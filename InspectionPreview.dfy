/** The inspection form of the browser client: the live valuation preview it shows while the
    user types, and the loss lines it submits. Both weight fields are number inputs, so a field
    holds either nothing or a number. */
module InspectionPreview {
  import opened Common
  import opened Schema
  import opened Valuation

  /** One loss line of the form: the chosen loss type (0 until one is chosen) and its weight
      field (None while empty). */
  datatype UllageInput = UllageInput(ullageType: nat, weight: Option<real>)

  /** What the preview does: keep the result it showed, show a result the exact arithmetic
      cannot give (a division by a zero sample or a zero net weight), or show a valuation. */
  datatype Preview =
    | Kept
    | Undefined
    | Shown(net: real, effective: real, percentage: real, totalCost: real)

  /** The loss the preview adds up: an empty weight field counts as zero. */
  function FormUllage(items: seq<UllageInput>): real
  {
    if items == [] then 0.0 else FormUllage(items[..|items| - 1]) + OrZero(items[|items| - 1].weight)
  }

  /** The line's purchase cost with its logistics share. */
  function PreviewCost(it: ReceivingItem): real
  {
    it.unitPrice * it.gross + it.logisticsShare
  }

  /** `calculatePreview`: nothing happens without a selected line or with an empty sample
      field; otherwise the loss percentage, the net weight, the cost including the logistics
      share and that cost per net unit. */
  function CalculatePreview(selected: Option<ReceivingItem>, sample: Option<real>, items: seq<UllageInput>): (p: Preview)
    ensures p.Kept? <==> selected.None? || sample.None?
    ensures p.Shown? ==>
      && p.percentage * sample.value == FormUllage(items) * 100.0
      && p.totalCost == PreviewCost(selected.value)
      && p.net != 0.0 && p.effective * p.net == p.totalCost
  {
    if selected.None? || sample.None? then Kept
    else if sample.value == 0.0 then Undefined
    else
      var it := selected.value;
      var pct := UllagePercentage(FormUllage(items), sample.value);
      var net := NetWeight(it.gross, pct);
      var cost := PreviewCost(it);
      if net == 0.0 then Undefined else Shown(net, cost / net, pct, cost)
  }

  /** The preview is undefined exactly when the exact arithmetic would divide by zero. */
  lemma PreviewUndefinedOnZero(it: ReceivingItem, sample: real, items: seq<UllageInput>)
    ensures CalculatePreview(Some(it), Some(sample), items).Undefined? <==>
      sample == 0.0 || NetWeight(it.gross, UllagePercentage(FormUllage(items), sample)) == 0.0
  {
  }

  /** The preview's percentage and net weight are the server's formulas applied to the same
      sample and loss, but its effective price exceeds the server's by the logistics share
      spread over the net weight. */
  lemma {:induction false} PreviewPriceExceedsServer(it: ReceivingItem, sample: real, items: seq<UllageInput>)
    requires CalculatePreview(Some(it), Some(sample), items).Shown?
    ensures var p := CalculatePreview(Some(it), Some(sample), items);
      && sample != 0.0
      && p.percentage == UllagePercentage(FormUllage(items), sample)
      && p.net == NetWeight(it.gross, p.percentage)
      && p.effective == EffectivePrice(it.gross, it.unitPrice, p.net) + it.logisticsShare / p.net
  {
    var p := CalculatePreview(Some(it), Some(sample), items);
    assert p.effective == (it.unitPrice * it.gross + it.logisticsShare) / p.net;
    assert EffectivePrice(it.gross, it.unitPrice, p.net) == it.gross * it.unitPrice / p.net;
  }

  /** A line the submit keeps: a loss type is chosen and a weight is typed. */
  predicate Complete(input: UllageInput)
  {
    input.ullageType != 0 && input.weight.Some?
  }

  function AsLine(input: UllageInput): UllageLine
    requires input.weight.Some?
  {
    UllageLine(input.ullageType, input.weight.value)
  }

  /** The loss lines `handleSubmit` sends: the complete form lines, in form order. */
  function SubmitLines(items: seq<UllageInput>): seq<UllageLine>
  {
    if items == [] then []
    else
      var last := items[|items| - 1];
      SubmitLines(items[..|items| - 1]) + (if Complete(last) then [AsLine(last)] else [])
  }

  /** The submit filters each part of the form on its own: the lines sent for a form are the
      lines sent for its first part followed by those sent for the rest. */
  lemma {:induction false} SubmitLinesAppend(a: seq<UllageInput>, b: seq<UllageInput>)
    ensures SubmitLines(a + b) == SubmitLines(a) + SubmitLines(b)
  {
    if b == [] {
      assert a + b == a;
    } else {
      var n := |b| - 1;
      assert (a + b)[..|a + b| - 1] == a + b[..n];
      assert (a + b)[|a + b| - 1] == b[n];
      SubmitLinesAppend(a, b[..n]);
      var x := if Complete(b[n]) then [AsLine(b[n])] else [];
      assert SubmitLines(a + b) == SubmitLines(a) + SubmitLines(b[..n]) + x;
      assert SubmitLines(b) == SubmitLines(b[..n]) + x;
    }
  }

  /** A line is sent exactly when it comes from a form line with both a loss type and a weight. */
  lemma {:induction false} SubmitLinesMembers(items: seq<UllageInput>)
    ensures forall l :: l in SubmitLines(items) <==> exists i :: 0 <= i < |items| && Complete(items[i]) && AsLine(items[i]) == l
  {
    if items != [] {
      var n := |items| - 1;
      var front := items[..n];
      SubmitLinesMembers(front);
      forall l ensures l in SubmitLines(items) <==> exists i :: 0 <= i < |items| && Complete(items[i]) && AsLine(items[i]) == l {
        if l in SubmitLines(front) {
          var i :| 0 <= i < |front| && Complete(front[i]) && AsLine(front[i]) == l;
          assert items[i] == front[i];
        }
        if exists i :: 0 <= i < |items| && Complete(items[i]) && AsLine(items[i]) == l {
          var i :| 0 <= i < |items| && Complete(items[i]) && AsLine(items[i]) == l;
          if i < n {
            assert front[i] == items[i];
          }
        }
      }
    }
  }

  /** Weight typed on lines without a loss type: the preview counts it, the submit drops it. */
  function UntypedWeight(items: seq<UllageInput>): real
  {
    if items == [] then 0.0
    else
      var last := items[|items| - 1];
      UntypedWeight(items[..|items| - 1]) + (if last.ullageType == 0 then OrZero(last.weight) else 0.0)
  }

  /** The loss the preview shows is the loss the server will record plus the weight typed on
      lines without a loss type; the two agree when every typed weight has its type. */
  lemma {:induction false} PreviewUllageVsSubmitted(items: seq<UllageInput>)
    ensures FormUllage(items) == UllageSum(SubmitLines(items)) + UntypedWeight(items)
  {
    if items != [] {
      var n := |items| - 1;
      PreviewUllageVsSubmitted(items[..n]);
      var front := SubmitLines(items[..n]);
      if Complete(items[n]) {
        var r := front + [AsLine(items[n])];
        assert SubmitLines(items) == r;
        assert r[..|r| - 1] == front;
        assert UllageSum(r) == UllageSum(front) + items[n].weight.value;
        assert FormUllage(items) == FormUllage(items[..n]) + items[n].weight.value;
        assert UntypedWeight(items) == UntypedWeight(items[..n]);
      } else {
        assert SubmitLines(items) == front + [];
        assert front + [] == front;
      }
    }
  }

  /** With every typed weight under a loss type, the preview shows the percentage and the net
      weight the server computes from the submitted lines, and an effective price above the
      server's by the logistics share over the net weight. */
  lemma PreviewMatchesSubmission(it: ReceivingItem, sample: real, items: seq<UllageInput>)
    requires UntypedWeight(items) == 0.0
    requires CalculatePreview(Some(it), Some(sample), items).Shown?
    ensures var p := CalculatePreview(Some(it), Some(sample), items);
      && p.percentage == UllagePercentage(UllageSum(SubmitLines(items)), sample)
      && p.net == NetWeight(it.gross, UllagePercentage(UllageSum(SubmitLines(items)), sample))
      && p.effective == EffectivePrice(it.gross, it.unitPrice, p.net) + it.logisticsShare / p.net
  {
    PreviewUllageVsSubmitted(items);
    PreviewPriceExceedsServer(it, sample, items);
  }

  /** A line typed without a loss type moves the preview but not the stored inspection. */
  lemma UntypedLineShowsInPreviewOnly()
    ensures var items := [UllageInput(0, Some(2.0))];
      && FormUllage(items) == 2.0
      && SubmitLines(items) == []
  {
  }
}
