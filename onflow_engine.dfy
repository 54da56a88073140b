// The OnFlow allocation engine: exponentially weighted moving averages of the
// win rate, the return and the volatility of past trades, and a Kelly-like
// allocation fraction derived from them and clamped to a configured range.

module Onflow {
  import opened Types

  /** One step of an exponentially weighted moving average; the first sample is taken as is. */
  function Ewma(alpha: real, prev: Option<real>, sample: real): (r: real)
    ensures prev.None? ==> r == sample
    ensures prev.Some? && 0.0 <= alpha <= 1.0 ==> Min(prev.value, sample) <= r <= Max(prev.value, sample)
    ensures prev.Some? && alpha == 0.0 ==> r == prev.value
    ensures prev.Some? && alpha == 1.0 ==> r == sample
  {
    match prev
    case None => sample
    case Some(x) =>
      ConvexCombination(alpha, sample, x);
      alpha * sample + (1.0 - alpha) * x
  }

  /** numpy's clip: raise to `lo`, then lower to `hi` (so `hi` wins when the bounds cross). */
  function Clip(x: real, lo: real, hi: real): (r: real)
    ensures lo <= hi ==> lo <= r <= hi
    ensures lo <= x <= hi ==> r == x
    ensures x <= lo && lo <= hi ==> r == lo
    ensures hi <= x && lo <= hi ==> r == hi
    ensures hi < lo ==> r == hi
  {
    Min(Max(x, lo), hi)
  }

  lemma ClipMonotone(x: real, y: real, lo: real, hi: real)
    requires x <= y
    ensures Clip(x, lo, hi) <= Clip(y, lo, hi)
  {
  }

  /**
   * The volatility the allocation divides by: the snapshot's when positive,
   * else 0.1, averaged with the engine's estimate when that is positive.
   * It is always positive.
   */
  function EffectiveVolatility(marketVolatility: real, estimate: Option<real>): (v: real)
    ensures v > 0.0
  {
    var base := if marketVolatility > 0.0 then marketVolatility else 0.1;
    if estimate.Some? && estimate.value > 0.0 then (base + estimate.value) / 2.0 else base
  }

  /** The engine's state as reported for monitoring. */
  datatype EngineState = EngineState(
    tradeCount: nat,
    ewmaWinRate: Option<real>,
    ewmaAvgReturn: Option<real>,
    ewmaVolatility: Option<real>)

  class OnflowEngine {
    const ewmaAlpha: real
    const maxAllocation: real
    const minAllocation: real
    const kellyFraction: real

    var ewmaWinRate: Option<real>
    var ewmaAvgReturn: Option<real>
    var ewmaVolatility: Option<real>
    var tradeCount: nat

    /**
     * The three estimates are set together, by the first update; with a
     * smoothing factor in [0,1] the win rate stays a probability.
     */
    ghost predicate Valid()
      reads this
    {
      && (ewmaWinRate.None? <==> tradeCount == 0)
      && (ewmaAvgReturn.None? <==> tradeCount == 0)
      && (ewmaVolatility.None? <==> tradeCount == 0)
      && (0.0 <= ewmaAlpha <= 1.0 && ewmaWinRate.Some? ==> 0.0 <= ewmaWinRate.value <= 1.0)
    }

    /** A fresh engine with no history (the defaults are 0.2, 0.5, 0.01 and 0.25). */
    constructor(ewmaAlpha: real, maxAllocation: real, minAllocation: real, kellyFraction: real)
      ensures Valid()
      ensures this.ewmaAlpha == ewmaAlpha && this.maxAllocation == maxAllocation
      ensures this.minAllocation == minAllocation && this.kellyFraction == kellyFraction
      ensures tradeCount == 0 && ewmaWinRate.None? && ewmaAvgReturn.None? && ewmaVolatility.None?
    {
      this.ewmaAlpha := ewmaAlpha;
      this.maxAllocation := maxAllocation;
      this.minAllocation := minAllocation;
      this.kellyFraction := kellyFraction;
      ewmaWinRate := None;
      ewmaAvgReturn := None;
      ewmaVolatility := None;
      tradeCount := 0;
    }

    /** Folds one trade result into the three averages and counts it. */
    method Update(won: bool, returnPct: real, volatility: real)
      requires Valid()
      modifies this
      ensures Valid()
      ensures tradeCount == old(tradeCount) + 1
      ensures ewmaWinRate == Some(Ewma(ewmaAlpha, old(ewmaWinRate), if won then 1.0 else 0.0))
      ensures ewmaAvgReturn == Some(Ewma(ewmaAlpha, old(ewmaAvgReturn), returnPct))
      ensures ewmaVolatility == Some(Ewma(ewmaAlpha, old(ewmaVolatility), volatility))
    {
      tradeCount := tradeCount + 1;
      var winValue := if won then 1.0 else 0.0;
      ewmaWinRate := Some(Ewma(ewmaAlpha, ewmaWinRate, winValue));
      ewmaAvgReturn := Some(Ewma(ewmaAlpha, ewmaAvgReturn, returnPct));
      ewmaVolatility := Some(Ewma(ewmaAlpha, ewmaVolatility, volatility));
    }

    /**
     * The suggested allocation fraction for a snapshot: the minimum without
     * history; otherwise the return edge over the squared effective volatility,
     * scaled by the Kelly fraction and by 0.5 + 0.5 × win rate, clipped to
     * [minAllocation, maxAllocation]. A function of the state: nothing changes.
     */
    function SuggestAllocation(m: MarketState): (f: real)
      reads this
      ensures ewmaWinRate.None? || ewmaAvgReturn.None? ==> f == minAllocation
      ensures minAllocation <= maxAllocation ==> minAllocation <= f <= maxAllocation
      ensures ewmaWinRate.Some? && ewmaAvgReturn.Some? && maxAllocation < minAllocation ==> f == maxAllocation
    {
      if ewmaWinRate.None? || ewmaAvgReturn.None? then minAllocation
      else
        var p := ewmaWinRate.value;
        var volatility := EffectiveVolatility(m.volatility, ewmaVolatility);
        var kelly :=
          if volatility > 0.0 then KellyTerm(ewmaAvgReturn.value, volatility, kellyFraction, p)
          else minAllocation * kellyFraction * (0.5 + p * 0.5);
        Clip(kelly, minAllocation, maxAllocation)
    }

    function GetState(): (s: EngineState)
      reads this
      ensures s.tradeCount == tradeCount && s.ewmaWinRate == ewmaWinRate
      ensures s.ewmaAvgReturn == ewmaAvgReturn && s.ewmaVolatility == ewmaVolatility
    {
      EngineState(tradeCount, ewmaWinRate, ewmaAvgReturn, ewmaVolatility)
    }
  }

  /**
   * The unclipped allocation: the edge (the average return as a fraction)
   * over the squared volatility, scaled by the Kelly fraction and by
   * 0.5 + 0.5 × win rate.
   */
  function KellyTerm(avgReturn: real, volatility: real, kellyFraction: real, winRate: real): real
    requires volatility > 0.0
  {
    avgReturn / 100.0 / (volatility * volatility) * kellyFraction * (0.5 + winRate * 0.5)
  }

  /**
   * The unclipped term grows with the average return, and is not positive for
   * a non-positive return, for a non-negative Kelly fraction and a win rate of
   * at least -1.
   */
  lemma KellyMonotone(r1: real, r2: real, v: real, kf: real, p: real)
    requires r1 <= r2 && v > 0.0 && kf >= 0.0 && p >= -1.0
    ensures KellyTerm(r1, v, kf, p) <= KellyTerm(r2, v, kf, p)
    ensures r2 <= 0.0 ==> KellyTerm(r1, v, kf, p) <= 0.0
  {
    DivideBySquare(r1 / 100.0, r2 / 100.0, v);
    MultiplyMonotone(r1 / 100.0 / (v * v), r2 / 100.0 / (v * v), kf);
    MultiplyMonotone(r1 / 100.0 / (v * v) * kf, r2 / 100.0 / (v * v) * kf, 0.5 + p * 0.5);
    if r2 <= 0.0 {
      DivideBySquare(r1 / 100.0, 0.0, v);
      assert 0.0 / 100.0 / (v * v) == 0.0;
      MultiplyMonotone(r1 / 100.0 / (v * v), 0.0, kf);
      MultiplyMonotone(r1 / 100.0 / (v * v) * kf, 0.0, 0.5 + p * 0.5);
    }
  }

  /**
   * With the configuration, win rate, volatility estimate and snapshot fixed,
   * a higher average return never lowers the suggested allocation
   * (for a non-negative Kelly fraction and a win rate of at least -1).
   */
  lemma AllocationMonotoneInReturn(e1: OnflowEngine, e2: OnflowEngine, m: MarketState)
    requires e1.minAllocation == e2.minAllocation && e1.maxAllocation == e2.maxAllocation
    requires e1.kellyFraction == e2.kellyFraction && e1.kellyFraction >= 0.0
    requires e1.ewmaWinRate == e2.ewmaWinRate && e1.ewmaWinRate.Some? && e1.ewmaWinRate.value >= -1.0
    requires e1.ewmaVolatility == e2.ewmaVolatility
    requires e1.ewmaAvgReturn.Some? && e2.ewmaAvgReturn.Some?
    requires e1.ewmaAvgReturn.value <= e2.ewmaAvgReturn.value
    ensures e1.SuggestAllocation(m) <= e2.SuggestAllocation(m)
  {
    var v := EffectiveVolatility(m.volatility, e1.ewmaVolatility);
    var kf := e1.kellyFraction;
    var p := e1.ewmaWinRate.value;
    KellyMonotone(e1.ewmaAvgReturn.value, e2.ewmaAvgReturn.value, v, kf, p);
    ClipMonotone(KellyTerm(e1.ewmaAvgReturn.value, v, kf, p), KellyTerm(e2.ewmaAvgReturn.value, v, kf, p),
      e1.minAllocation, e1.maxAllocation);
  }

  /**
   * A record whose average return is not positive gets exactly the minimum
   * allocation (for a non-negative minimum below the maximum, a non-negative
   * Kelly fraction and a win rate of at least -1).
   */
  lemma LosingRecordGetsMinimum(e: OnflowEngine, m: MarketState)
    requires 0.0 <= e.minAllocation <= e.maxAllocation && e.kellyFraction >= 0.0
    requires e.ewmaWinRate.Some? && e.ewmaWinRate.value >= -1.0
    requires e.ewmaAvgReturn.Some? && e.ewmaAvgReturn.value <= 0.0
    ensures e.SuggestAllocation(m) == e.minAllocation
  {
    var v := EffectiveVolatility(m.volatility, e.ewmaVolatility);
    KellyMonotone(e.ewmaAvgReturn.value, 0.0, v, e.kellyFraction, e.ewmaWinRate.value);
  }
}
