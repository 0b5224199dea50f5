/** The tenant-scoped tables the route handlers share, and the consistency the handlers keep
    between them. Every table is a sequence indexed by its serial id; the two tables rows are
    deleted from (purchase headers and their lines) hold `None` in a deleted row's place. */
module Database {
  import opened Common
  import opened Schema
  import opened StockLedger
  import opened MoneyLedger

  /** The line belongs to purchase `tx`. */
  predicate InTx(o: Option<ReceivingItem>, tx: nat)
  {
    o.Some? && o.value.tx == tx
  }

  function GrossPart(o: Option<ReceivingItem>, tx: nat): real
  {
    if InTx(o, tx) then o.value.gross * o.value.unitPrice else 0.0
  }

  /** `net_weight * effective_unit_price`, which SUM skips while either is null. */
  function PricedPart(o: Option<ReceivingItem>, tx: nat): real
  {
    if InTx(o, tx) && o.value.net.Some? && o.value.effective.Some?
    then o.value.net.value * o.value.effective.value else 0.0
  }

  function UninspectedPart(o: Option<ReceivingItem>, tx: nat): nat
  {
    if InTx(o, tx) && o.value.net.None? then 1 else 0
  }

  /** Purchase value of the lines of `tx` at their gross weight and unit price. */
  function GrossValue(items: seq<Option<ReceivingItem>>, tx: nat): real
  {
    if items == [] then 0.0 else GrossValue(items[..|items| - 1], tx) + GrossPart(items[|items| - 1], tx)
  }

  /** `SUM(net_weight * effective_unit_price)` over the lines of `tx`. */
  function PricedValue(items: seq<Option<ReceivingItem>>, tx: nat): real
  {
    if items == [] then 0.0 else PricedValue(items[..|items| - 1], tx) + PricedPart(items[|items| - 1], tx)
  }

  /** `COUNT(*) ... WHERE net_weight IS NULL` over the lines of `tx`. */
  function Uninspected(items: seq<Option<ReceivingItem>>, tx: nat): nat
  {
    if items == [] then 0 else Uninspected(items[..|items| - 1], tx) + UninspectedPart(items[|items| - 1], tx)
  }

  /** An inspected line carries both its net weight and its effective price, and the price
      spreads exactly the line's purchase value over a nonzero net weight. */
  predicate ItemPriced(it: ReceivingItem)
  {
    (it.net.Some? <==> it.effective.Some?)
    && (it.net.Some? ==> it.net.value != 0.0 && it.effective.value * it.net.value == it.gross * it.unitPrice)
  }

  predicate AllPriced(items: seq<Option<ReceivingItem>>)
  {
    forall j :: 0 <= j < |items| && items[j].Some? ==> ItemPriced(items[j].value)
  }

  /** Every purchase names a known partner. */
  predicate PartnersKnown(partners: seq<Partner>, recs: seq<Option<ReceivingTx>>)
  {
    forall k :: 0 <= k < |recs| && recs[k].Some? ==> recs[k].value.partner < |partners|
  }

  /** Every line belongs to a purchase that exists. */
  predicate ItemsOwned(recs: seq<Option<ReceivingTx>>, items: seq<Option<ReceivingItem>>)
  {
    forall j :: 0 <= j < |items| && items[j].Some? ==> items[j].value.tx < |recs| && recs[items[j].value.tx].Some?
  }

  /** A purchase's total is its logistics cost plus the gross value of its lines. */
  predicate TotalsMatchItems(recs: seq<Option<ReceivingTx>>, items: seq<Option<ReceivingItem>>)
  {
    forall k :: 0 <= k < |recs| && recs[k].Some? ==> recs[k].value.total == recs[k].value.logistics + GrossValue(items, k)
  }

  /** An inspected or approved purchase has no line left without a net weight. */
  predicate CompletedInspected(recs: seq<Option<ReceivingTx>>, items: seq<Option<ReceivingItem>>)
  {
    forall k :: 0 <= k < |recs| && recs[k].Some? && recs[k].value.status in {Inspected, Approved} ==> Uninspected(items, k) == 0
  }

  /** Every ledger row names a known partner, and each partner's balance is what the money
      ledger accounts for it. */
  predicate BalancesMatch(partners: seq<Partner>, money: seq<MoneyRow>)
  {
    && (forall k :: 0 <= k < |money| ==> money[k].partner < |partners|)
    && (forall q :: 0 <= q < |partners| ==> partners[q].balance == Net(money, q))
  }

  predicate Consistent(partners: seq<Partner>, recs: seq<Option<ReceivingTx>>, items: seq<Option<ReceivingItem>>,
                       stock: seq<StockLot>, money: seq<MoneyRow>)
  {
    && PartnersKnown(partners, recs)
    && ItemsOwned(recs, items)
    && AllPriced(items)
    && TotalsMatchItems(recs, items)
    && CompletedInspected(recs, items)
    && UniqueKeys(stock)
    && BalancesMatch(partners, money)
  }

  /** Sum of the loss weights recorded for inspection `k`. */
  function LossOf(rows: seq<InspectionItem>, k: nat): real
  {
    if rows == [] then 0.0
    else LossOf(rows[..|rows| - 1], k) + (if rows[|rows| - 1].inspection == k then rows[|rows| - 1].weight else 0.0)
  }

  /** The inspection's percentage is its total loss over its nonzero sample weight. */
  predicate Measured(insp: Inspection)
  {
    insp.sample != 0.0 && insp.percentage * insp.sample == insp.totalUllage * 100.0
  }

  /** Every loss line belongs to a recorded inspection, and every inspection is measured and its
      total loss is the sum of its loss lines. */
  predicate InspectionsRecorded(inspections: seq<Inspection>, rows: seq<InspectionItem>)
  {
    && (forall j :: 0 <= j < |rows| ==> rows[j].inspection < |inspections|)
    && (forall k :: 0 <= k < |inspections| ==> Measured(inspections[k]) && inspections[k].totalUllage == LossOf(rows, k))
  }

  /** The database of one deployment. */
  class Store {
    var partners: seq<Partner>
    var materials: seq<Material>
    var receivings: seq<Option<ReceivingTx>>
    var receivingItems: seq<Option<ReceivingItem>>
    var inspections: seq<Inspection>
    var inspectionItems: seq<InspectionItem>
    var stock: seq<StockLot>
    var sales: seq<Sale>
    var saleItems: seq<SaleItem>
    var money: seq<MoneyRow>

    ghost predicate Valid()
      reads this
    {
      && Consistent(partners, receivings, receivingItems, stock, money)
      && InspectionsRecorded(inspections, inspectionItems)
    }

    /** A database holding only partners, each at the balance column's default of zero, and
        materials. */
    constructor (partners0: seq<Partner>, materials0: seq<Material>)
      requires forall q :: 0 <= q < |partners0| ==> partners0[q].balance == 0.0
      ensures Valid()
      ensures partners == partners0 && materials == materials0 && receivings == [] && receivingItems == []
      ensures inspections == [] && inspectionItems == [] && stock == []
      ensures sales == [] && saleItems == [] && money == []
    {
      partners := partners0;
      materials := materials0;
      receivings, receivingItems := [], [];
      inspections, inspectionItems := [], [];
      stock := [];
      sales, saleItems := [], [];
      money := [];
    }
  }

  /** Changing one line moves each per-purchase sum by the difference of that line's parts. */
  lemma {:induction false} SumsUpdate(items: seq<Option<ReceivingItem>>, i: nat, v: Option<ReceivingItem>, tx: nat)
    requires i < |items|
    ensures GrossValue(items[i := v], tx) == GrossValue(items, tx) - GrossPart(items[i], tx) + GrossPart(v, tx)
    ensures PricedValue(items[i := v], tx) == PricedValue(items, tx) - PricedPart(items[i], tx) + PricedPart(v, tx)
    ensures Uninspected(items[i := v], tx) + UninspectedPart(items[i], tx) == Uninspected(items, tx) + UninspectedPart(v, tx)
  {
    var n := |items| - 1;
    var u := items[i := v];
    if i < n {
      assert u[..n] == items[..n][i := v];
      SumsUpdate(items[..n], i, v, tx);
    } else {
      assert u[..n] == items[..n];
    }
  }

  /** Tables whose lines agree on their share of `tx` have the same sums for `tx`. */
  lemma {:induction false} SumsAgree(a: seq<Option<ReceivingItem>>, b: seq<Option<ReceivingItem>>, tx: nat)
    requires |a| == |b|
    requires forall j :: 0 <= j < |a| ==> (InTx(a[j], tx) <==> InTx(b[j], tx))
    requires forall j :: 0 <= j < |a| && InTx(a[j], tx) ==> a[j] == b[j]
    ensures GrossValue(a, tx) == GrossValue(b, tx)
    ensures PricedValue(a, tx) == PricedValue(b, tx)
    ensures Uninspected(a, tx) == Uninspected(b, tx)
  {
    if a != [] {
      SumsAgree(a[..|a| - 1], b[..|b| - 1], tx);
    }
  }

  /** Lines of other purchases appended to the table leave the sums of `tx` alone. */
  lemma {:induction false} SumsAppendOthers(a: seq<Option<ReceivingItem>>, b: seq<Option<ReceivingItem>>, tx: nat)
    requires forall j :: 0 <= j < |b| ==> !InTx(b[j], tx)
    ensures GrossValue(a + b, tx) == GrossValue(a, tx)
    ensures PricedValue(a + b, tx) == PricedValue(a, tx)
    ensures Uninspected(a + b, tx) == Uninspected(a, tx)
  {
    if b != [] {
      var c := b[..|b| - 1];
      assert (a + b)[..|a + b| - 1] == a + c;
      assert (a + b)[|a + b| - 1] == b[|b| - 1];
      SumsAppendOthers(a, c, tx);
    } else {
      assert a + b == a;
    }
  }

  /** A purchase with no lines has zero sums. */
  lemma {:induction false} SumsOfAbsent(items: seq<Option<ReceivingItem>>, tx: nat)
    requires forall j :: 0 <= j < |items| ==> !InTx(items[j], tx)
    ensures GrossValue(items, tx) == 0.0 && PricedValue(items, tx) == 0.0 && Uninspected(items, tx) == 0
  {
    SumsAppendOthers([], items, tx);
    assert [] + items == items;
  }

  /** Once every line of a purchase is inspected, re-pricing it at net weight and effective
      price gives back its gross value: the recomputed total equals the provisional one. */
  lemma {:induction false} PricedEqualsGross(items: seq<Option<ReceivingItem>>, tx: nat)
    requires AllPriced(items) && Uninspected(items, tx) == 0
    ensures PricedValue(items, tx) == GrossValue(items, tx)
  {
    if items != [] {
      var front := items[..|items| - 1];
      assert AllPriced(front) by {
        forall j | 0 <= j < |front| && front[j].Some? ensures ItemPriced(front[j].value) {
          assert front[j] == items[j];
        }
      }
      PricedEqualsGross(front, tx);
      var last := items[|items| - 1];
      if InTx(last, tx) {
        assert ItemPriced(last.value);
        assert last.value.net.value * last.value.effective.value == last.value.gross * last.value.unitPrice;
      }
    }
  }
}
