// The logic gate: a stateless rule filter over one market snapshot. Every rule
// is checked independently; each violated rule contributes one reason, in a
// fixed order, and a weight to a risk score capped at 1.

module Gate {
  import opened Types

  datatype LogicGate = LogicGate(
    maxMevRisk: real,
    maxLatencyMs: real,
    maxPriceJumpPct: real,
    maxEmaDeviationPct: real,
    minVolume24h: real)

  const DefaultGate := LogicGate(0.7, 500.0, 5.0, 10.0, 1000.0)

  /** The placeholder buy the drivers ask the gate about; the gate ignores it. */
  const ProbeAction := Action(Buy, 1.0, None, 0.5, 1.0, map[])

  /** Position of a rule in the checking order. */
  function Rank(r: GateReason): nat
  {
    match r
    case HighMevRisk => 0
    case HighLatency => 1
    case LowVolume => 2
    case EmaDeviation => 3
    case WideSpread => 4
  }

  /** What a violated rule adds to the risk score. */
  function Weight(r: GateReason): real
  {
    match r
    case HighMevRisk => 0.3
    case HighLatency => 0.2
    case LowVolume => 0.2
    case EmaDeviation => 0.2
    case WideSpread => 0.1
  }

  function TotalWeight(rs: seq<GateReason>): real
  {
    if rs == [] then 0.0 else Weight(rs[0]) + TotalWeight(rs[1..])
  }

  predicate EmaPresent(m: MarketState)
  {
    m.emaFast.Some? && m.emaSlow.Some?
  }

  function EmaAverage(m: MarketState): real
    requires EmaPresent(m)
  {
    (m.emaFast.value + m.emaSlow.value) / 2.0
  }

  function Abs(x: real): real { if x < 0.0 then -x else x }

  /** The divisions the gate performs are defined: bid and the EMA average are non-zero. */
  predicate Checkable(m: MarketState)
  {
    m.bid != 0.0 && (EmaPresent(m) ==> EmaAverage(m) != 0.0)
  }

  function EmaDeviationPct(m: MarketState): real
    requires EmaPresent(m) && EmaAverage(m) != 0.0
  {
    Abs(m.price - EmaAverage(m)) / EmaAverage(m) * 100.0
  }

  function SpreadPct(m: MarketState): real
    requires m.bid != 0.0
  {
    (m.ask - m.bid) / m.bid * 100.0
  }

  /** The condition under which each rule fires, stated on its own. */
  predicate Fires(g: LogicGate, m: MarketState, r: GateReason)
    requires Checkable(m)
  {
    match r
    case HighMevRisk => m.mevRiskScore > g.maxMevRisk
    case HighLatency => m.latencyMs > g.maxLatencyMs
    case LowVolume => m.volume24h < g.minVolume24h
    case EmaDeviation => EmaPresent(m) && EmaDeviationPct(m) > g.maxEmaDeviationPct
    case WideSpread => SpreadPct(m) > g.maxPriceJumpPct
  }

  predicate InRuleOrder(rs: seq<GateReason>)
  {
    forall i, j :: 0 <= i < j < |rs| ==> Rank(rs[i]) < Rank(rs[j])
  }

  /** One rule's contribution to the reason list: the reason if it fired, else nothing. */
  function Flag(fired: bool, r: GateReason): seq<GateReason>
  {
    if fired then [r] else []
  }

  /** The reasons reported for the given rule outcomes, in checking order. */
  function Reasons(mev: bool, latency: bool, volume: bool, ema: bool, spread: bool): seq<GateReason>
  {
    Flag(mev, HighMevRisk) + Flag(latency, HighLatency) + Flag(volume, LowVolume)
      + Flag(ema, EmaDeviation) + Flag(spread, WideSpread)
  }

  /** The risk the source accumulates rule by rule. */
  function RiskSum(mev: bool, latency: bool, volume: bool, ema: bool, spread: bool): real
  {
    (if mev then 0.3 else 0.0) + (if latency then 0.2 else 0.0) + (if volume then 0.2 else 0.0)
      + (if ema then 0.2 else 0.0) + (if spread then 0.1 else 0.0)
  }

  /** Each rule is reported exactly when it fired. */
  lemma ReasonsMembership(mev: bool, latency: bool, volume: bool, ema: bool, spread: bool)
    ensures var rs := Reasons(mev, latency, volume, ema, spread);
      && (HighMevRisk in rs <==> mev) && (HighLatency in rs <==> latency)
      && (LowVolume in rs <==> volume) && (EmaDeviation in rs <==> ema)
      && (WideSpread in rs <==> spread)
  {
  }

  /** Reasons appear in rule order, hence without repetition. */
  lemma ReasonsInOrder(mev: bool, latency: bool, volume: bool, ema: bool, spread: bool)
    ensures InRuleOrder(Reasons(mev, latency, volume, ema, spread))
    ensures |Reasons(mev, latency, volume, ema, spread)| <= 5
  {
    var r1 := Flag(mev, HighMevRisk);
    assert [] + r1 == r1;
    FlagExtendsOrder([], mev, HighMevRisk);
    FlagExtendsOrder(r1, latency, HighLatency);
    FlagExtendsOrder(r1 + Flag(latency, HighLatency), volume, LowVolume);
    FlagExtendsOrder(r1 + Flag(latency, HighLatency) + Flag(volume, LowVolume), ema, EmaDeviation);
    FlagExtendsOrder(r1 + Flag(latency, HighLatency) + Flag(volume, LowVolume) + Flag(ema, EmaDeviation), spread, WideSpread);
  }

  /** Appending a rule ranked after every reason so far keeps the list in rule order. */
  lemma FlagExtendsOrder(rs: seq<GateReason>, fired: bool, r: GateReason)
    requires InRuleOrder(rs) && forall x :: x in rs ==> Rank(x) < Rank(r)
    ensures InRuleOrder(rs + Flag(fired, r))
    ensures forall x :: x in rs + Flag(fired, r) ==> Rank(x) <= Rank(r)
    ensures |rs + Flag(fired, r)| <= |rs| + 1
  {
    var out := rs + Flag(fired, r);
    forall i, j | 0 <= i < j < |out|
      ensures Rank(out[i]) < Rank(out[j])
    {
      if j >= |rs| {
        assert out[i] in rs;
      }
    }
  }

  /** The risk accumulated rule by rule is the total weight of the reported reasons. */
  lemma ReasonsWeight(mev: bool, latency: bool, volume: bool, ema: bool, spread: bool)
    ensures TotalWeight(Reasons(mev, latency, volume, ema, spread)) == RiskSum(mev, latency, volume, ema, spread)
  {
    var r1 := Flag(mev, HighMevRisk);
    var r2 := Flag(latency, HighLatency);
    var r3 := Flag(volume, LowVolume);
    var r4 := Flag(ema, EmaDeviation);
    var r5 := Flag(spread, WideSpread);
    TotalWeightAppend(r1, r2);
    TotalWeightAppend(r1 + r2, r3);
    TotalWeightAppend(r1 + r2 + r3, r4);
    TotalWeightAppend(r1 + r2 + r3 + r4, r5);
    FlagWeight(mev, HighMevRisk);
    FlagWeight(latency, HighLatency);
    FlagWeight(volume, LowVolume);
    FlagWeight(ema, EmaDeviation);
    FlagWeight(spread, WideSpread);
  }

  lemma FlagWeight(fired: bool, r: GateReason)
    ensures TotalWeight(Flag(fired, r)) == if fired then Weight(r) else 0.0
  {
    if fired {
      assert Flag(fired, r)[1..] == [];
    }
  }

  /**
   * Checks a snapshot against every rule, in the order MEV risk, latency,
   * volume, EMA deviation, spread. The proposed action is accepted and
   * ignored, as in the source.
   */
  function Check(g: LogicGate, m: MarketState, action: Action): (r: FilterResult)
    requires Checkable(m)
    ensures HighMevRisk in r.reasons <==> m.mevRiskScore > g.maxMevRisk
    ensures HighLatency in r.reasons <==> m.latencyMs > g.maxLatencyMs
    ensures LowVolume in r.reasons <==> m.volume24h < g.minVolume24h
    ensures EmaDeviation in r.reasons <==> EmaPresent(m) && EmaDeviationPct(m) > g.maxEmaDeviationPct
    ensures WideSpread in r.reasons <==> SpreadPct(m) > g.maxPriceJumpPct
    ensures InRuleOrder(r.reasons) && |r.reasons| <= 5
    ensures r.allowed <==> r.reasons == []
    ensures r.riskScore == Min(TotalWeight(r.reasons), 1.0)
    ensures ValidFilterResult(r)
  {
    var mevFires := m.mevRiskScore > g.maxMevRisk;
    var latencyFires := m.latencyMs > g.maxLatencyMs;
    var volumeFires := m.volume24h < g.minVolume24h;
    var emaFires := EmaPresent(m) && EmaDeviationPct(m) > g.maxEmaDeviationPct;
    var spreadFires := SpreadPct(m) > g.maxPriceJumpPct;
    var reasons := Reasons(mevFires, latencyFires, volumeFires, emaFires, spreadFires);
    var risk := RiskSum(mevFires, latencyFires, volumeFires, emaFires, spreadFires);
    ReasonsMembership(mevFires, latencyFires, volumeFires, emaFires, spreadFires);
    ReasonsInOrder(mevFires, latencyFires, volumeFires, emaFires, spreadFires);
    ReasonsWeight(mevFires, latencyFires, volumeFires, emaFires, spreadFires);
    TotalWeightNonNegative(reasons);
    FilterResult(reasons == [], reasons, Min(risk, 1.0))
  }

  /** The weight of the concatenated reason list is the sum of the pieces' weights. */
  lemma {:induction false} TotalWeightAppend(a: seq<GateReason>, b: seq<GateReason>)
    ensures TotalWeight(a + b) == TotalWeight(a) + TotalWeight(b)
    decreases |a|
  {
    if a == [] {
      assert a + b == b;
    } else {
      assert (a + b)[1..] == a[1..] + b;
      TotalWeightAppend(a[1..], b);
    }
  }

  /** The risk score lies in [0,1]: the total weight of distinct rules is non-negative. */
  lemma {:induction false} TotalWeightNonNegative(rs: seq<GateReason>)
    ensures TotalWeight(rs) >= 0.0
    decreases |rs|
  {
    if rs != [] { TotalWeightNonNegative(rs[1..]); }
  }

  /** The gate's verdict does not depend on the action it is asked about. */
  lemma CheckIgnoresAction(g: LogicGate, m: MarketState, a1: Action, a2: Action)
    requires Checkable(m)
    ensures Check(g, m, a1) == Check(g, m, a2)
  {
  }

  /** A risk score exactly at the threshold passes; strictly above is reported. */
  lemma MevThresholdIsStrict(g: LogicGate, m: MarketState, a: Action)
    requires Checkable(m)
    ensures m.mevRiskScore == g.maxMevRisk ==> HighMevRisk !in Check(g, m, a).reasons
    ensures m.mevRiskScore > g.maxMevRisk ==> !Check(g, m, a).allowed
  {
  }

  /** A valid snapshot can always be checked unless its EMA average is zero. */
  lemma ValidIsCheckable(m: MarketState)
    requires ValidMarketState(m)
    requires EmaPresent(m) ==> EmaAverage(m) != 0.0
    ensures Checkable(m)
  {
  }
}
