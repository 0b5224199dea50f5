/** The inspection arithmetic of the server: ullage percentage from a sample, net weight from
    the percentage, and the effective unit price a lot is valued at. Exact reals stand in for
    JavaScript doubles. */
module Valuation {
  import opened Schema

  /** Sum of the measured loss weights (the server's accumulation loop). */
  function UllageSum(lines: seq<UllageLine>): real
  {
    if lines == [] then 0.0 else UllageSum(lines[..|lines| - 1]) + lines[|lines| - 1].weight
  }

  /** Loss as a percentage of the sample. The code divides without checking the sample. */
  function UllagePercentage(totalUllage: real, sample: real): (pct: real)
    requires sample != 0.0
    ensures pct * sample == totalUllage * 100.0
  {
    totalUllage / sample * 100.0
  }

  /** Gross weight less the loss percentage. */
  function NetWeight(gross: real, pct: real): (net: real)
    ensures 0.0 <= gross && 0.0 <= pct <= 100.0 ==> 0.0 <= net <= gross
    ensures pct == 0.0 ==> net == gross
    ensures pct == 100.0 ==> net == 0.0
  {
    gross * (1.0 - pct / 100.0)
  }

  /** The server's effective unit price: the purchase cost of the line spread over its net
      weight, with no logistics share. The code divides without checking the net weight. */
  function EffectivePrice(gross: real, unitPrice: real, net: real): (eff: real)
    requires net != 0.0
    ensures eff * net == gross * unitPrice
  {
    gross * unitPrice / net
  }

  /** Net weight in terms of the sample: gross scaled by the unspoiled share of the sample;
      a loss within the sample keeps the net weight between zero and the gross weight. */
  lemma NetWeightFromSample(gross: real, totalUllage: real, sample: real)
    requires sample != 0.0
    ensures NetWeight(gross, UllagePercentage(totalUllage, sample)) * sample
            == gross * (sample - totalUllage)
    ensures 0.0 < sample && 0.0 <= totalUllage <= sample && 0.0 <= gross ==>
            0.0 <= NetWeight(gross, UllagePercentage(totalUllage, sample)) <= gross
  {
    var pct := UllagePercentage(totalUllage, sample);
    var net := NetWeight(gross, pct);
    calc {
      net * sample;
      gross * sample - gross * (pct * sample) / 100.0;
      { assert pct * sample == totalUllage * 100.0; }
      gross * sample - gross * totalUllage;
    }
    if 0.0 < sample && 0.0 <= totalUllage <= sample {
      assert pct == totalUllage * 100.0 / sample;
      assert 0.0 <= pct;
      assert pct <= 100.0 by {
        assert totalUllage * 100.0 <= sample * 100.0;
      }
    }
  }
}
