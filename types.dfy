// Shared records of the trading pipeline: enumerations, the market snapshot,
// actions, decisions, filter results and engine votes, each with the range
// constraints its declaration carries.

module Types {

  datatype Option<T> = None | Some(value: T)

  function Min(a: real, b: real): real { if a <= b then a else b }
  function Max(a: real, b: real): real { if a >= b then a else b }

  /** A lookup of an optional setting, with a default. */
  function GetOr(x: Option<real>, default: real): real
  {
    if x.Some? then x.value else default
  }

  // Facts of real arithmetic the solver finds only in isolation.

  lemma DivideBySquare(a: real, b: real, v: real)
    requires a <= b && v > 0.0
    ensures a / (v * v) <= b / (v * v)
  {
  }

  lemma DivideMonotone(a: real, b: real, d: real)
    requires a <= b && d > 0.0
    ensures a / d <= b / d
  {
  }

  /** Scaling a quotient by c and multiplying back by the divisor gives the scaled dividend. */
  lemma ScaledQuotient(a: real, d: real, c: real)
    requires d != 0.0
    ensures a / d * c * d == a * c
  {
    assert a / d * d == a;
  }

  lemma MultiplyMonotone(a: real, b: real, s: real)
    requires a <= b && s >= 0.0
    ensures a * s <= b * s
  {
  }

  lemma PositiveProduct(a: real, b: real)
    requires a > 0.0 && b > 0.0
    ensures a * b > 0.0
  {
  }

  lemma ConvexCombination(alpha: real, s: real, x: real)
    ensures 0.0 <= alpha <= 1.0 ==> Min(x, s) <= alpha * s + (1.0 - alpha) * x <= Max(x, s)
  {
    if 0.0 <= alpha <= 1.0 {
      var d := s - x;
      assert alpha * s + (1.0 - alpha) * x == x + alpha * d;
      if d >= 0.0 {
        MultiplyMonotone(0.0, alpha, d);
        MultiplyMonotone(alpha, 1.0, d);
      } else {
        MultiplyMonotone(0.0, alpha, -d);
        MultiplyMonotone(alpha, 1.0, -d);
      }
    }
  }

  /** The four kinds of action, in declaration order. */
  datatype ActionType = Buy | Sell | Hold | Close

  const ActionTypes: seq<ActionType> := [Buy, Sell, Hold, Close]

  /** Position of an action kind in the declaration order. */
  function ActionIndex(a: ActionType): (i: nat)
    ensures i < |ActionTypes| && ActionTypes[i] == a
  {
    match a
    case Buy => 0
    case Sell => 1
    case Hold => 2
    case Close => 3
  }

  lemma ActionTypesEnumerated()
    ensures |ActionTypes| == 4
    ensures forall a: ActionType :: a in ActionTypes
    ensures forall i, j :: 0 <= i < j < |ActionTypes| ==> ActionTypes[i] != ActionTypes[j]
  {
    forall a: ActionType ensures a in ActionTypes {
      var i := ActionIndex(a);
    }
  }

  /** The five market regimes; their order defines the regime index. */
  datatype MarketRegime = TrendingUp | TrendingDown | Ranging | Volatile | Unknown

  const Regimes: seq<MarketRegime> := [TrendingUp, TrendingDown, Ranging, Volatile, Unknown]

  function RegimeIndex(r: MarketRegime): (i: nat)
    ensures i < |Regimes| && Regimes[i] == r
  {
    match r
    case TrendingUp => 0
    case TrendingDown => 1
    case Ranging => 2
    case Volatile => 3
    case Unknown => 4
  }

  lemma RegimesEnumerated()
    ensures |Regimes| == 5
    ensures forall r: MarketRegime :: r in Regimes
    ensures forall i, j :: 0 <= i < j < |Regimes| ==> Regimes[i] != Regimes[j]
  {
    forall r: MarketRegime ensures r in Regimes {
      var i := RegimeIndex(r);
    }
  }

  datatype DecisionStatus = Approved | Blocked | Pending

  /** One snapshot of market conditions. */
  datatype MarketState = MarketState(
    price: real,
    volume24h: real,
    bid: real,
    ask: real,
    emaFast: Option<real>,
    emaSlow: Option<real>,
    regime: MarketRegime,
    volatility: real,
    liquidityScore: real,
    mevRiskScore: real,
    latencyMs: real)

  /** The field constraints of a snapshot; note there is no ask >= bid constraint. */
  predicate ValidMarketState(m: MarketState)
  {
    && m.price > 0.0
    && m.volume24h >= 0.0
    && m.bid > 0.0
    && m.ask > 0.0
    && m.volatility >= 0.0
    && 0.0 <= m.liquidityScore <= 1.0
    && 0.0 <= m.mevRiskScore <= 1.0
    && m.latencyMs >= 0.0
  }

  /** A snapshot built from the four required fields, every other field at its default. */
  function Snapshot(price: real, volume24h: real, bid: real, ask: real): (m: MarketState)
    ensures m.emaFast.None? && m.emaSlow.None? && m.regime == Unknown
    ensures m.volatility == 0.0 && m.liquidityScore == 1.0 && m.mevRiskScore == 0.0 && m.latencyMs == 0.0
    ensures ValidMarketState(m) <==> price > 0.0 && volume24h >= 0.0 && bid > 0.0 && ask > 0.0
  {
    MarketState(price, volume24h, bid, ask, None, None, Unknown, 0.0, 1.0, 0.0, 0.0)
  }

  /** A proposed trade. The metadata dictionary holds numeric diagnostics by key. */
  datatype Action = Action(
    actionType: ActionType,
    size: real,
    price: Option<real>,
    confidence: real,
    leverage: real,
    metadata: map<string, real>)

  predicate ValidAction(a: Action)
  {
    a.size >= 0.0 && 0.0 <= a.confidence <= 1.0 && 1.0 <= a.leverage <= 5.0
  }

  /**
   * Validated construction of an action from its required fields: it fails
   * (None) exactly when a constraint is violated, and otherwise has leverage 1,
   * no price and empty metadata.
   */
  function NewAction(t: ActionType, size: real, confidence: real): (r: Option<Action>)
    ensures r.Some? <==> size >= 0.0 && 0.0 <= confidence <= 1.0
    ensures r.Some? ==> ValidAction(r.value) && r.value.leverage == 1.0
    ensures r.Some? ==> r.value.actionType == t && r.value.size == size && r.value.confidence == confidence
    ensures r.Some? ==> r.value.price.None? && r.value.metadata == map[]
  {
    if size >= 0.0 && 0.0 <= confidence <= 1.0 then
      Some(Action(t, size, None, confidence, 1.0, map[]))
    else
      None
  }

  /** Why a decision was approved or blocked (the source's free-text reasons, as tags). */
  datatype DecisionNote = NoEngineVotes | EnginesVoted(count: nat) | LowConsensus

  /** What an engine's vote is recorded as, for audit. */
  datatype VoteRecord = VoteRecord(action: ActionType, confidence: real)

  datatype Decision = Decision(
    action: Action,
    consensusConfidence: real,
    status: DecisionStatus,
    reasons: seq<DecisionNote>,
    engineVotes: map<string, VoteRecord>)

  predicate ValidDecision(d: Decision)
  {
    ValidAction(d.action) && 0.0 <= d.consensusConfidence <= 1.0
  }

  /** A decision with status left at its default. */
  function PendingDecision(action: Action, consensus: real): (d: Decision)
    ensures d.status == Pending && d.reasons == [] && d.engineVotes == map[]
    ensures ValidDecision(d) <==> ValidAction(action) && 0.0 <= consensus <= 1.0
  {
    Decision(action, consensus, Pending, [], map[])
  }

  /** The rules of the logic gate, in the order they are checked. */
  datatype GateReason = HighMevRisk | HighLatency | LowVolume | EmaDeviation | WideSpread

  datatype FilterResult = FilterResult(allowed: bool, reasons: seq<GateReason>, riskScore: real)

  predicate ValidFilterResult(f: FilterResult)
  {
    0.0 <= f.riskScore <= 1.0
  }

  datatype EngineVote = EngineVote(engineName: string, action: Action, confidence: real)

  predicate ValidEngineVote(v: EngineVote)
  {
    ValidAction(v.action) && 0.0 <= v.confidence <= 1.0
  }
}
