/** The integer margin arithmetic of the two byte ledgers (model_scheduler/contracts_v2.py). */
module LedgerArithmetic {
  import opened Prelude

  const MARGIN_PERCENT: nat := 115
  const MARGIN_DIVISOR: nat := 100

  /** `reserved_bytes_from_peak` and `physical_reserved_bytes_from_peak`: both compute this
      figure, and both refuse a peak that is not positive. */
  function ReservedFromPeak(peak: int): (r: Option<nat>) {
    if peak <= 0 then None
    else Some((peak * MARGIN_PERCENT + MARGIN_DIVISOR - 1) / MARGIN_DIVISOR)
  }

  /** The figure is the least whole number of bytes that is not below 1.15 times the peak. */
  lemma ReservedIsExactCeiling(peak: int, candidate: nat)
    requires peak > 0
    ensures ReservedFromPeak(peak).Some?
    ensures ReservedFromPeak(peak).value <= candidate
       <==> (candidate as real) >= (peak as real) * 1.15
    ensures ReservedFromPeak(peak).value > peak
  {
    var scaled := peak * MARGIN_PERCENT;
    var r := ReservedFromPeak(peak).value;
    assert MARGIN_DIVISOR * r <= scaled + 99 < MARGIN_DIVISOR * r + MARGIN_DIVISOR;
    assert (candidate as real) >= (peak as real) * 1.15
      <==> (candidate * 100) as real >= (peak * 115) as real;
  }

  /** Covering every single peak with its margin covers all of them together. */
  lemma {:induction false} MarginsAddUp<K(!new)>(peaks: map<K, nat>, figures: map<K, nat>)
    requires peaks.Keys == figures.Keys
    requires forall k :: k in peaks ==> ReservedFromPeak(peaks[k]) == Some(figures[k])
    ensures MARGIN_PERCENT * Sum(peaks) <= MARGIN_DIVISOR * Sum(figures)
    decreases |peaks|
  {
    if peaks == map[] {
      assert Sum(peaks) == 0;
    } else {
      var k :| k in peaks;
      SmallerWithout(peaks, k);
      SumSplit(peaks, k);
      SumSplit(figures, k);
      MarginsAddUp(peaks - {k}, figures - {k});
    }
  }
}
