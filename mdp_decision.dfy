// The MDP decision layer: a coarse discretisation of the market snapshot
// into 45 states, a lazily grown Q-table over the four action kinds,
// epsilon-greedy action selection and the one-step Q-learning update.

module Mdp {
  import opened Types

  /** Volatility bins: low below 0.02, medium below 0.05, high otherwise. */
  function VolatilityBin(volatility: real): (b: nat)
    ensures b < 3
    ensures b == 0 <==> volatility < 0.02
    ensures b == 2 <==> volatility >= 0.05
  {
    if volatility < 0.02 then 0 else if volatility < 0.05 then 1 else 2
  }

  /** Liquidity bins: low below 0.4, medium below 0.7, high otherwise. */
  function LiquidityBin(liquidity: real): (b: nat)
    ensures b < 3
    ensures b == 0 <==> liquidity < 0.4
    ensures b == 2 <==> liquidity >= 0.7
  {
    if liquidity < 0.4 then 0 else if liquidity < 0.7 then 1 else 2
  }

  const StateCount: nat := 45

  /**
   * Mixed-radix encoding of (regime, volatility bin, liquidity bin): the
   * digits are recovered by division and remainder, so the encoding is
   * injective and lands in [0, 45).
   */
  function Encode(regime: nat, volBin: nat, liqBin: nat): (s: nat)
    requires regime < 5 && volBin < 3 && liqBin < 3
    ensures s < StateCount
    ensures s / 9 == regime && (s % 9) / 3 == volBin && s % 3 == liqBin
  {
    regime * 9 + volBin * 3 + liqBin
  }

  lemma EncodeInjective(r1: nat, v1: nat, l1: nat, r2: nat, v2: nat, l2: nat)
    requires r1 < 5 && v1 < 3 && l1 < 3 && r2 < 5 && v2 < 3 && l2 < 3
    requires Encode(r1, v1, l1) == Encode(r2, v2, l2)
    ensures r1 == r2 && v1 == v2 && l1 == l2
  {
  }

  /** The state index of a snapshot. */
  function Discretize(m: MarketState): (s: nat)
    ensures s < StateCount
    ensures s / 9 == RegimeIndex(m.regime)
    ensures (s % 9) / 3 == VolatilityBin(m.volatility) && s % 3 == LiquidityBin(m.liquidityScore)
  {
    Encode(RegimeIndex(m.regime), VolatilityBin(m.volatility), LiquidityBin(m.liquidityScore))
  }

  /** Two snapshots share a state exactly when their regime and both bins agree. */
  lemma SameStateIffSameBins(m1: MarketState, m2: MarketState)
    ensures Discretize(m1) == Discretize(m2) <==>
      m1.regime == m2.regime && VolatilityBin(m1.volatility) == VolatilityBin(m2.volatility)
      && LiquidityBin(m1.liquidityScore) == LiquidityBin(m2.liquidityScore)
  {
    if Discretize(m1) == Discretize(m2) {
      var r1 := RegimeIndex(m1.regime);
      var r2 := RegimeIndex(m2.regime);
      assert Regimes[r1] == m1.regime && Regimes[r2] == m2.regime;
    }
  }

  type Row = map<ActionType, real>
  type QTable = map<nat, Row>

  /** A row holds a value for every action kind. */
  predicate Full(row: Row)
  {
    forall a: ActionType :: a in row
  }

  const ZeroRow: Row := map[Buy := 0.0, Sell := 0.0, Hold := 0.0, Close := 0.0]

  /** The table with a zero row added for `s` if, and only if, it has none. */
  function WithRow(q: QTable, s: nat): (r: QTable)
    ensures r.Keys == q.Keys + {s}
    ensures forall t :: t in q ==> r[t] == q[t]
    ensures s !in q ==> r[s] == ZeroRow
    ensures (forall t :: t in q ==> Full(q[t])) ==> forall t :: t in r ==> Full(r[t])
  {
    ZeroRowFull();
    if s in q then q else q[s := ZeroRow]
  }

  lemma ZeroRowFull()
    ensures Full(ZeroRow)
  {
    forall a: ActionType ensures a in ZeroRow {
      match a
      case Buy =>
      case Sell =>
      case Hold =>
      case Close =>
    }
  }

  /** Adding a row is idempotent. */
  lemma WithRowIdempotent(q: QTable, s: nat)
    ensures WithRow(WithRow(q, s), s) == WithRow(q, s)
  {
  }

  /** No kind's value exceeds the row maximum. */
  lemma MaxValueBounds(row: Row, a: ActionType)
    requires Full(row)
    ensures row[a] <= MaxValue(row)
  {
    match a
    case Buy =>
    case Sell =>
    case Hold =>
    case Close =>
  }

  /** The largest value of a full row. */
  function MaxValue(row: Row): (v: real)
    requires Full(row)
    ensures row[Buy] <= v && row[Sell] <= v && row[Hold] <= v && row[Close] <= v
    ensures v == row[Buy] || v == row[Sell] || v == row[Hold] || v == row[Close]
  {
    Max(Max(row[Buy], row[Sell]), Max(row[Hold], row[Close]))
  }

  function MeanValue(row: Row): real
    requires Full(row)
  {
    (row[Buy] + row[Sell] + row[Hold] + row[Close]) / 4.0
  }

  /**
   * The greedy choice: a kind of maximal value, the first in the order
   * BUY, SELL, HOLD, CLOSE on ties (the row's insertion order).
   */
  function Greedy(row: Row): (a: ActionType)
    requires Full(row)
    ensures row[a] == MaxValue(row)
    ensures forall i :: 0 <= i < ActionIndex(a) ==> row[ActionTypes[i]] < row[a]
  {
    var b1 := if row[Sell] > row[Buy] then Sell else Buy;
    var b2 := if row[Hold] > row[b1] then Hold else b1;
    if row[Close] > row[b2] then Close else b2
  }

  /** Confidence of a greedy choice: 0.5, raised by twice the lead over the mean, capped at 0.9. */
  function GreedyConfidence(row: Row): (c: real)
    requires Full(row)
    ensures 0.5 <= c <= 0.9
    ensures MaxValue(row) <= MeanValue(row) ==> c == 0.5
  {
    var maxQ := row[Greedy(row)];
    var avgQ := MeanValue(row);
    if maxQ > avgQ then Min(0.9, 0.5 + (maxQ - avgQ) * 2.0) else 0.5
  }

  /** One Q-learning step towards a target. */
  function QStep(current: real, learningRate: real, target: real): real
  {
    current + learningRate * (target - current)
  }

  /**
   * With a learning rate in (0,1] the new value lies between the old value
   * and the target, and strictly moves towards a target that differs.
   */
  lemma QStepMovesTowardsTarget(current: real, learningRate: real, target: real)
    requires 0.0 < learningRate <= 1.0
    ensures Min(current, target) <= QStep(current, learningRate, target) <= Max(current, target)
    ensures target > current ==> QStep(current, learningRate, target) > current
    ensures target < current ==> QStep(current, learningRate, target) < current
  {
    ConvexCombination(learningRate, target, current);
    assert QStep(current, learningRate, target) == learningRate * target + (1.0 - learningRate) * current;
    var d := target - current;
    assert QStep(current, learningRate, target) == current + learningRate * d;
    if d > 0.0 {
      assert learningRate * d > 0.0;
    } else if d < 0.0 {
      assert learningRate * d < 0.0;
    }
  }

  /** The bootstrapped target: the reward, plus the discounted best next value unless the episode ended. */
  function Target(reward: real, discount: real, nextRow: Row, done: bool): real
    requires Full(nextRow)
  {
    if done then reward else reward + discount * MaxValue(nextRow)
  }

  /** Exploration rate after an episode ends: decayed, but never below the floor. */
  function DecayedEpsilon(epsilon: real, decay: real, minEpsilon: real): (e: real)
    ensures e >= minEpsilon
    ensures epsilon >= minEpsilon && 0.0 <= decay <= 1.0 && epsilon >= 0.0 ==> e <= epsilon
  {
    DecayShrinks(epsilon, decay);
    Max(minEpsilon, epsilon * decay)
  }

  lemma DecayShrinks(epsilon: real, decay: real)
    ensures 0.0 <= decay <= 1.0 && epsilon >= 0.0 ==> epsilon * decay <= epsilon
  {
    if 0.0 <= decay <= 1.0 && epsilon >= 0.0 {
      MultiplyMonotone(decay, 1.0, epsilon);
      assert decay * epsilon == epsilon * decay;
    }
  }

  /** What the layer reports for monitoring. */
  datatype MdpState = MdpState(episodeCount: nat, epsilon: real, qTableSize: nat)

  class MdpDecision {
    const learningRate: real
    const discountFactor: real
    var epsilon: real
    const epsilonDecay: real
    const minEpsilon: real
    var qTable: QTable
    var episodeCount: nat

    /** Every row of the table is full and indexed by a state of the discretisation. */
    ghost predicate Valid()
      reads this
    {
      forall s :: s in qTable ==> s < StateCount && Full(qTable[s])
    }

    /** A fresh layer with an empty table (defaults 0.1, 0.95, 0.1, 0.995 and 0.01). */
    constructor(learningRate: real, discountFactor: real, epsilon: real, epsilonDecay: real, minEpsilon: real)
      ensures Valid() && qTable == map[] && episodeCount == 0
      ensures this.learningRate == learningRate && this.discountFactor == discountFactor
      ensures this.epsilon == epsilon && this.epsilonDecay == epsilonDecay && this.minEpsilon == minEpsilon
    {
      this.learningRate := learningRate;
      this.discountFactor := discountFactor;
      this.epsilon := epsilon;
      this.epsilonDecay := epsilonDecay;
      this.minEpsilon := minEpsilon;
      qTable := map[];
      episodeCount := 0;
    }

    /** Adds an all-zero row for a state seen for the first time; existing rows are untouched. */
    method InitState(s: nat)
      requires Valid() && s < StateCount
      modifies this
      ensures Valid()
      ensures qTable == WithRow(old(qTable), s)
      ensures epsilon == old(epsilon) && episodeCount == old(episodeCount)
    {
      if s !in qTable {
        ZeroRowFull();
        qTable := qTable[s := ZeroRow];
      }
    }

    /**
     * Epsilon-greedy selection for a snapshot. `coin` is the uniform draw in
     * [0,1) and `randomChoice` the uniformly drawn kind, both used only when
     * exploring. The snapshot's row is created if missing.
     */
    method SelectAction(m: MarketState, explore: bool, coin: real, randomChoice: ActionType)
      returns (a: ActionType, confidence: real)
      requires Valid()
      modifies this
      ensures Valid()
      ensures qTable == WithRow(old(qTable), Discretize(m))
      ensures epsilon == old(epsilon) && episodeCount == old(episodeCount)
      ensures explore && coin < epsilon ==> a == randomChoice && confidence == 0.3
      ensures !(explore && coin < epsilon) ==>
        a == Greedy(qTable[Discretize(m)]) && confidence == GreedyConfidence(qTable[Discretize(m)])
    {
      var s := Discretize(m);
      InitState(s);
      if explore && coin < epsilon {
        a := randomChoice;
        confidence := 0.3;
      } else {
        var row := qTable[s];
        a := Greedy(row);
        confidence := GreedyConfidence(row);
      }
    }

    /**
     * One Q-learning update for the transition (state, action, reward,
     * nextState): both states get rows if missing, only the entry for
     * (state, action) changes, and when the episode ended the episode count
     * grows and epsilon decays.
     */
    method Update(state: MarketState, action: ActionType, reward: real, nextState: MarketState, done: bool)
      requires Valid()
      modifies this
      ensures Valid()
      ensures var s := Discretize(state);
        var q := WithRow(WithRow(old(qTable), s), Discretize(nextState));
        qTable == q[s := q[s][action := QStep(q[s][action], learningRate,
          Target(reward, discountFactor, q[Discretize(nextState)], done))]]
      ensures done ==> (episodeCount == old(episodeCount) + 1
        && epsilon == DecayedEpsilon(old(epsilon), epsilonDecay, minEpsilon))
      ensures !done ==> episodeCount == old(episodeCount) && epsilon == old(epsilon)
    {
      var s := Discretize(state);
      var ns := Discretize(nextState);
      InitState(s);
      InitState(ns);
      var current := qTable[s][action];
      var target := Target(reward, discountFactor, qTable[ns], done);
      qTable := qTable[s := qTable[s][action := QStep(current, learningRate, target)]];
      if done {
        episodeCount := episodeCount + 1;
        epsilon := Max(minEpsilon, epsilon * epsilonDecay);
      }
    }

    function GetState(): (r: MdpState)
      reads this
      ensures r.episodeCount == episodeCount && r.epsilon == epsilon && r.qTableSize == |qTable|
    {
      MdpState(episodeCount, epsilon, |qTable|)
    }
  }

  /** An update adds at most the two states it touches to the table and removes none. */
  lemma UpdateKeys(old_q: QTable, s: nat, ns: nat, action: ActionType, v: real)
    requires forall t :: t in old_q ==> Full(old_q[t])
    ensures var q := WithRow(WithRow(old_q, s), ns);
      var r := q[s := q[s][action := v]];
      r.Keys == old_q.Keys + {s, ns} && |r| <= |old_q| + 2
  {
    var q := WithRow(WithRow(old_q, s), ns);
    var r := q[s := q[s][action := v]];
    var extra := {s, ns};
    assert r.Keys == old_q.Keys + extra;
    assert |extra| <= 2;
    assert |old_q.Keys + extra| <= |old_q.Keys| + |extra|;
    assert |r| == |r.Keys| && |old_q| == |old_q.Keys|;
  }

  /**
   * An update changes no entry but (state, action): old entries keep their
   * values and the entries of new rows read as zero.
   */
  lemma UpdateEntries(old_q: QTable, s: nat, ns: nat, action: ActionType, v: real, t: nat, b: ActionType)
    requires forall u :: u in old_q ==> Full(old_q[u])
    requires t == s || t == ns || t in old_q
    requires t != s || b != action
    ensures var q := WithRow(WithRow(old_q, s), ns);
      var r := q[s := q[s][action := v]];
      && (t in old_q ==> r[t][b] == old_q[t][b])
      && (t !in old_q ==> r[t][b] == 0.0)
  {
    ZeroRowFull();
  }

  /**
   * At the end of an episode, with a learning rate in (0,1], the updated
   * value lies between the previous value and the reward; a reward above
   * the previous value raises it.
   */
  lemma TerminalUpdateTowardsReward(current: real, learningRate: real, discount: real, reward: real, nextRow: Row)
    requires 0.0 < learningRate <= 1.0 && Full(nextRow)
    ensures var v := QStep(current, learningRate, Target(reward, discount, nextRow, true));
      Min(current, reward) <= v <= Max(current, reward) && (reward > current ==> v > current)
  {
    QStepMovesTowardsTarget(current, learningRate, reward);
  }

  /** The table can never hold more rows than there are states. */
  lemma TableSizeBounded(q: QTable)
    requires forall s :: s in q ==> s < StateCount
    ensures |q| <= StateCount
  {
    var all := Below(StateCount);
    forall s | s in q.Keys ensures s in all {
      BelowContains(StateCount, s);
    }
    SubsetCardinality(q.Keys, all);
  }

  /** The states below `n`. */
  function Below(n: nat): (r: set<nat>)
    ensures forall s :: s in r ==> s < n
    ensures |r| == n
  {
    if n == 0 then {} else Below(n - 1) + {n - 1}
  }

  lemma {:induction false} BelowContains(n: nat, s: nat)
    requires s < n
    ensures s in Below(n)
  {
    if s < n - 1 {
      BelowContains(n - 1, s);
    }
  }

  lemma {:induction false} SubsetCardinality(a: set<nat>, b: set<nat>)
    requires a <= b
    ensures |a| <= |b|
    decreases |b|
  {
    if a != {} {
      var x :| x in a;
      SubsetCardinality(a - {x}, b - {x});
    }
  }
}
