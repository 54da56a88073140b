// The bot's main loop: each cycle takes a snapshot, runs the gate, asks the
// onflow and MDP engines through the ensemble, sizes the decision and
// executes it, on the paper trader in simulation mode or as a bundle in live
// mode. The snapshots and every random draw are parameters.

module Bot {
  import opened Types
  import opened Gate
  import opened Ensemble
  import opened Onflow
  import opened Mdp
  import opened Leverage
  import opened Jito
  import opened Paper
  import Simulator

  datatype Mode = Simulation | Live

  /** The engines the bot registers, in order. */
  const Engines: seq<string> := ["onflow", "mdp"]

  /** The optional entries of the bot's configuration. */
  datatype BotConfig = BotConfig(
    maxPositionPct: Option<real>,
    accountBalance: Option<real>,
    initialBalance: Option<real>,
    minConfidence: Option<real>)

  /**
   * What one cycle consumes: the fetched snapshot, the MDP's exploration
   * coin and random kind, the paper trader's slippage draw, the bundle's
   * latency jitter and inclusion draw, and whether a stop was requested
   * while the loop waited after this cycle.
   */
  datatype CycleInput = CycleInput(
    m: MarketState,
    coin: real,
    randomChoice: ActionType,
    slippageDraw: real,
    jitter: real,
    inclusionDraw: real,
    stopRequested: bool)

  /** One cycle's report. */
  datatype CycleReport =
    | GateBlockedCycle(cycle: nat, reasons: seq<GateReason>)
    | LowConfidenceCycle(cycle: nat)
    | HoldCycle(cycle: nat, confidence: real)
    | PaperTradeCycle(cycle: nat, actionType: ActionType, size: real, leverage: real, confidence: real, price: real)
    | LiveExecutionCycle(cycle: nat, actionType: ActionType, result: BundleReport)

  /**
   * The MDP engine's answer when asked to explore: the random kind at
   * confidence 0.3 when the coin falls below epsilon, otherwise the greedy
   * kind of the snapshot's row (a fresh all-zero row if the state is new).
   */
  function MdpChoice(q: QTable, epsilon: real, m: MarketState, coin: real, randomChoice: ActionType): (r: EngineResult)
    requires forall t :: t in q ==> Full(q[t])
    ensures r.Ok?
    ensures coin < epsilon ==> r == Ok(randomChoice, 0.3)
    ensures coin >= epsilon ==> 0.5 <= r.confidence <= 0.9
  {
    if coin < epsilon then Ok(randomChoice, 0.3)
    else
      var row := WithRow(q, Discretize(m))[Discretize(m)];
      Ok(Greedy(row), GreedyConfidence(row))
  }

  /** The engines' answers for a cycle: a buy at the onflow allocation, then the MDP's choice. */
  function Answers(allocation: real, q: QTable, epsilon: real, input: CycleInput): (r: seq<EngineResult>)
    requires forall t :: t in q ==> Full(q[t])
    ensures |r| == 2 && r[0] == Ok(Buy, allocation) && r[1].Ok?
  {
    [Ok(Buy, allocation), MdpChoice(q, epsilon, input.m, input.coin, input.randomChoice)]
  }

  /** Whether the loop bound is in force: a missing or zero bound means none. */
  predicate Bounded(maxCycles: Option<int>)
  {
    maxCycles.Some? && maxCycles.value != 0
  }

  /** Both engines always answer validly, so an ensemble of the two always has votes. */
  lemma EnginesAlwaysVote(allocation: real, mdp: EngineResult)
    requires 0.0 <= allocation <= 1.0 && mdp.Ok? && 0.0 <= mdp.confidence <= 1.0
    ensures Accepted([Ok(Buy, allocation), mdp]) == 2
    ensures |CollectVotes(Engines, [Ok(Buy, allocation), mdp])| == 2
  {
    CollectVotesCount(["onflow", "mdp"], [Ok(Buy, allocation), mdp]);
  }

  class LiveBot {
    const mode: Mode
    const gate: LogicGate
    const onflow: OnflowEngine
    const mdp: MdpDecision
    const ensemble: HyperEnsemble
    const leverage: LeverageConfig
    const trader: PaperTrader?
    const jito: JitoConfig
    const configBalance: real
    const minConfidence: real

    var cycleCount: nat
    var totalTrades: nat
    var blockedCount: nat
    var running: bool

    /**
     * The engines are the onflow and MDP engines, in that order; a paper
     * trader exists exactly in simulation mode; and every cycle blocked at
     * most once or traded at most once.
     */
    ghost predicate Valid()
      reads this, onflow, mdp, ensemble, trader
    {
      && onflow.Valid() && mdp.Valid()
      && ensemble.engines == Engines
      && (mode == Simulation <==> trader != null)
      && (trader != null ==> trader.Valid())
      && blockedCount + totalTrades <= cycleCount
    }

    /** The balance a decision is sized against: the trader's in simulation, the configured one live. */
    function SizingBalance(): real
      reads this, trader
      requires mode == Simulation ==> trader != null
    {
      if mode == Simulation then trader.balance else configBalance
    }

    /**
     * A bot with default components: the default gate, fresh onflow and MDP
     * engines registered in that order, a sizer and (in simulation mode) a
     * paper trader seeded from the configuration.
     */
    constructor(mode: Mode, config: BotConfig)
      ensures Valid() && fresh(onflow) && fresh(mdp) && fresh(ensemble)
      ensures this.mode == mode && gate == DefaultGate && jito == DefaultJitoConfig
      ensures leverage == DefaultLeverageConfig.(maxPositionPct := GetOr(config.maxPositionPct, 0.35),
                                                 accountBalance := GetOr(config.accountBalance, 100.0))
      ensures configBalance == GetOr(config.accountBalance, 100.0)
      ensures minConfidence == GetOr(config.minConfidence, 0.75)
      ensures mode == Simulation ==> (fresh(trader) && trader.Ledgered() && trader.trades == []
                                      && trader.initialBalance == GetOr(config.initialBalance, 100.0))
      ensures onflow.tradeCount == 0 && mdp.qTable == map[] && mdp.epsilon == 0.1
      ensures cycleCount == 0 && totalTrades == 0 && blockedCount == 0 && !running
    {
      var o := new OnflowEngine(0.2, 0.5, 0.01, 0.25);
      var q := new MdpDecision(0.1, 0.95, 0.1, 0.995, 0.01);
      var e := new HyperEnsemble([]);
      e.AddEngine("onflow");
      e.AddEngine("mdp");
      var t: PaperTrader? := null;
      if mode == Simulation {
        t := new PaperTrader(GetOr(config.initialBalance, 100.0), 0.05, 0.02, 100.0);
      }
      this.mode := mode;
      gate := DefaultGate;
      onflow := o;
      mdp := q;
      ensemble := e;
      leverage := DefaultLeverageConfig.(maxPositionPct := GetOr(config.maxPositionPct, 0.35),
                                         accountBalance := GetOr(config.accountBalance, 100.0));
      trader := t;
      jito := DefaultJitoConfig;
      configBalance := GetOr(config.accountBalance, 100.0);
      minConfidence := GetOr(config.minConfidence, 0.75);
      cycleCount := 0;
      totalTrades := 0;
      blockedCount := 0;
      running := false;
    }

    /**
     * One cycle: counts it; a gate block or a low consensus is counted as
     * blocked; an approved decision is sized against the sizing balance; a
     * hold is reported without trading; anything else is traded once, on
     * paper or as a bundle depending on the mode. `outcomes` are the
     * engines' answers when they were asked and `v` the verdict on them.
     */
    method RunCycle(input: CycleInput) returns (report: CycleReport, outcomes: seq<EngineResult>, v: Simulator.Verdict)
      requires Valid() && Checkable(input.m) && input.m.liquidityScore != 0.0
      modifies this, mdp, trader
      ensures Valid() && running == old(running)
      ensures cycleCount == old(cycleCount) + 1
      ensures |outcomes| == 2 && v == Simulator.Judge(gate, Engines, minConfidence, input.m, outcomes)
      ensures Reported(report, v, cycleCount)
      ensures v.GateBlock? ==> unchanged(mdp)
      ensures !v.GateBlock? ==> outcomes == Answers(onflow.SuggestAllocation(input.m), old(mdp.qTable), old(mdp.epsilon), input)
      ensures !v.GateBlock? ==> Asked(mdp, old(mdp.qTable), old(mdp.epsilon), old(mdp.episodeCount), input.m)
      ensures blockedCount == old(blockedCount) + (if v.Approve? then 0 else 1)
      ensures v.Approve? ==> Acted(report, v.decision, mode, SizePosition(leverage, v.decision.action, input.m, Some(old(SizingBalance()))), jito, input)
      ensures totalTrades == old(totalTrades) + (if report.PaperTradeCycle? || report.LiveExecutionCycle? then 1 else 0)
      ensures v.Approve? && trader != null && report.PaperTradeCycle? ==>
        var t := trader.Opening(SizePosition(leverage, v.decision.action, input.m, Some(old(SizingBalance()))), input.m, input.slippageDraw);
        trader.OpenedFrom(old(trader.trades), old(trader.balance), old(trader.openPositions), old(trader.closedTrades), t)
        && report.price == t.entryPrice
      ensures trader != null && !report.PaperTradeCycle? ==> unchanged(trader)
      ensures trader != null && old(trader.Ledgered()) ==> trader.Ledgered()
    {
      cycleCount := cycleCount + 1;
      v, outcomes := Consult(input);
      report := Respond(v, input);
    }

    /** Counts a blocked verdict and reports it, or acts on an approved one. */
    method Respond(v: Simulator.Verdict, input: CycleInput) returns (report: CycleReport)
      requires Valid() && input.m.liquidityScore != 0.0
      requires blockedCount + totalTrades < cycleCount
      modifies this, trader
      ensures Valid() && running == old(running) && cycleCount == old(cycleCount)
      ensures Reported(report, v, cycleCount)
      ensures blockedCount == old(blockedCount) + (if v.Approve? then 0 else 1)
      ensures v.Approve? ==> Acted(report, v.decision, mode, SizePosition(leverage, v.decision.action, input.m, Some(old(SizingBalance()))), jito, input)
      ensures totalTrades == old(totalTrades) + (if report.PaperTradeCycle? || report.LiveExecutionCycle? then 1 else 0)
      ensures v.Approve? && trader != null && report.PaperTradeCycle? ==>
        var t := trader.Opening(SizePosition(leverage, v.decision.action, input.m, Some(old(SizingBalance()))), input.m, input.slippageDraw);
        trader.OpenedFrom(old(trader.trades), old(trader.balance), old(trader.openPositions), old(trader.closedTrades), t)
        && report.price == t.entryPrice
      ensures trader != null && !report.PaperTradeCycle? ==> unchanged(trader)
      ensures trader != null && old(trader.Ledgered()) ==> trader.Ledgered()
    {
      if v.Approve? {
        report := Act(v.decision, input);
      } else {
        blockedCount := blockedCount + 1;
        report := if v.GateBlock? then GateBlockedCycle(cycleCount, v.reasons) else LowConfidenceCycle(cycleCount);
      }
    }

    /**
     * The gate, then (only if it passes) the engines in registration order
     * and the ensemble with its minimum-confidence check.
     */
    method Consult(input: CycleInput) returns (v: Simulator.Verdict, outcomes: seq<EngineResult>)
      requires mdp.Valid() && ensemble.engines == Engines && Checkable(input.m)
      modifies mdp
      ensures mdp.Valid()
      ensures |outcomes| == 2 && v == Simulator.Judge(gate, Engines, minConfidence, input.m, outcomes)
      ensures v.GateBlock? ==> unchanged(mdp)
      ensures !v.GateBlock? ==> outcomes == Answers(onflow.SuggestAllocation(input.m), old(mdp.qTable), old(mdp.epsilon), input)
      ensures !v.GateBlock? ==> Asked(mdp, old(mdp.qTable), old(mdp.epsilon), old(mdp.episodeCount), input.m)
    {
      var filter := Check(gate, input.m, ProbeAction);
      if !filter.allowed {
        return Simulator.GateBlock(filter.reasons), [Fail, Fail];
      }
      outcomes := Ask(input);
      var decision := ensemble.RunAndAssert(outcomes, minConfidence);
      v := if decision.None? then Simulator.ConfidenceBlock else Simulator.Approve(decision.value);
    }

    /** The engines' answers, in registration order; only the MDP's table changes. */
    method Ask(input: CycleInput) returns (outcomes: seq<EngineResult>)
      requires mdp.Valid()
      modifies mdp
      ensures mdp.Valid()
      ensures outcomes == Answers(onflow.SuggestAllocation(input.m), old(mdp.qTable), old(mdp.epsilon), input)
      ensures Asked(mdp, old(mdp.qTable), old(mdp.epsilon), old(mdp.episodeCount), input.m)
    {
      var allocation := onflow.SuggestAllocation(input.m);
      var a, c := mdp.SelectAction(input.m, true, input.coin, input.randomChoice);
      outcomes := [Ok(Buy, allocation), Ok(a, c)];
    }

    /**
     * The approved part of a cycle: sizes the decision against the sizing
     * balance; reports a hold without trading; otherwise trades once, on
     * paper in simulation mode and as a bundle in live mode.
     */
    method Act(d: Decision, input: CycleInput) returns (report: CycleReport)
      requires Valid() && input.m.liquidityScore != 0.0
      requires blockedCount + totalTrades < cycleCount
      modifies this, trader
      ensures Valid() && running == old(running)
      ensures report.cycle == cycleCount && cycleCount == old(cycleCount) && blockedCount == old(blockedCount)
      ensures Acted(report, d, mode, SizePosition(leverage, d.action, input.m, Some(old(SizingBalance()))), jito, input)
      ensures totalTrades == old(totalTrades) + (if report.HoldCycle? then 0 else 1)
      ensures trader != null && report.PaperTradeCycle? ==>
        var t := trader.Opening(SizePosition(leverage, d.action, input.m, Some(old(SizingBalance()))), input.m, input.slippageDraw);
        trader.OpenedFrom(old(trader.trades), old(trader.balance), old(trader.openPositions), old(trader.closedTrades), t)
        && report.price == t.entryPrice
      ensures trader != null && !report.PaperTradeCycle? ==> unchanged(trader)
      ensures trader != null && old(trader.Ledgered()) ==> trader.Ledgered()
    {
      var sized := SizePosition(leverage, d.action, input.m, Some(SizingBalance()));
      if sized.actionType == Hold {
        return HoldCycle(cycleCount, d.consensusConfidence);
      }
      if mode == Simulation {
        var trade, id := trader.SimulateExecution(sized, input.m, input.slippageDraw);
        totalTrades := totalTrades + 1;
        report := PaperTradeCycle(cycleCount, sized.actionType, sized.size, sized.leverage, d.consensusConfidence, trade.entryPrice);
      } else {
        var result := ExecuteAction(jito, sized, input.m, input.jitter, input.inclusionDraw);
        totalTrades := totalTrades + 1;
        report := LiveExecutionCycle(cycleCount, sized.actionType, result);
      }
    }

    /**
     * Runs cycles while the bot is running. It stops before a cycle once a
     * bound (a nonzero `maxCycles`) is reached, or after a cycle during
     * which a stop was requested. When the inputs run out first, the next
     * cycle is counted and then fails to fetch its snapshot, which ends the
     * loop (`fetchFailed`). Whatever the reason, the bot is no longer
     * running afterwards.
     */
    method RunLoop(maxCycles: Option<int>, inputs: seq<CycleInput>) returns (cyclesRun: nat, fetchFailed: bool)
      requires Valid()
      requires forall i :: 0 <= i < |inputs| ==> Checkable(inputs[i].m) && inputs[i].m.liquidityScore != 0.0
      modifies this, mdp, trader
      ensures Valid() && !running
      ensures cycleCount == old(cycleCount) + cyclesRun + (if fetchFailed then 1 else 0)
      ensures LoopEnded(maxCycles, inputs, cyclesRun, fetchFailed)
      ensures trader != null && old(trader.Ledgered()) ==> trader.Ledgered()
    {
      ghost var ledgered := trader != null && trader.Ledgered();
      running := true;
      cyclesRun, fetchFailed := 0, false;
      while running
        invariant Valid() && cyclesRun <= |inputs| && !fetchFailed && cycleCount == old(cycleCount) + cyclesRun
        invariant Looping(maxCycles, inputs, cyclesRun, running)
        invariant ledgered ==> trader.Ledgered()
        decreases |inputs| - cyclesRun
      {
        if Bounded(maxCycles) && cyclesRun >= maxCycles.value {
          break;
        }
        if cyclesRun == |inputs| {
          cycleCount := cycleCount + 1;
          fetchFailed := true;
          break;
        }
        CycleAndWait(inputs[cyclesRun]);
        cyclesRun := cyclesRun + 1;
      }
      running := false;
    }

    /**
     * The loop's body: one cycle, then the wait between cycles, during which
     * a stop may be requested.
     */
    method CycleAndWait(input: CycleInput)
      requires Valid() && Checkable(input.m) && input.m.liquidityScore != 0.0
      modifies this, mdp, trader
      ensures Valid() && cycleCount == old(cycleCount) + 1
      ensures running == (old(running) && !input.stopRequested)
      ensures trader != null && old(trader.Ledgered()) ==> trader.Ledgered()
    {
      var report, outcomes, v := RunCycle(input);
      if input.stopRequested {
        Stop();
      }
    }

    /** Asks the loop to stop after the current cycle. */
    method Stop()
      modifies this
      ensures !running
      ensures cycleCount == old(cycleCount) && totalTrades == old(totalTrades) && blockedCount == old(blockedCount)
    {
      running := false;
    }
  }

  /**
   * While the loop runs: no bound has been passed, no stop was requested
   * before the last cycle, and the bot still runs exactly when the last
   * cycle did not request a stop.
   */
  predicate Looping(maxCycles: Option<int>, inputs: seq<CycleInput>, cyclesRun: nat, running: bool)
  {
    && cyclesRun <= |inputs|
    && (Bounded(maxCycles) && cyclesRun > 0 ==> cyclesRun <= maxCycles.value)
    && (forall k :: 0 <= k < cyclesRun - 1 ==> !inputs[k].stopRequested)
    && (running <==> cyclesRun == 0 || !inputs[cyclesRun - 1].stopRequested)
  }

  /**
   * How a loop that ran `cyclesRun` cycles ended: within its inputs and its
   * bound, with no stop requested before the last cycle, and for one of
   * three reasons: the bound was reached, the last cycle requested a stop,
   * or neither happened before the inputs ran out and the next fetch failed.
   */
  predicate LoopEnded(maxCycles: Option<int>, inputs: seq<CycleInput>, cyclesRun: nat, fetchFailed: bool)
  {
    && cyclesRun <= |inputs|
    && (Bounded(maxCycles) && cyclesRun > 0 ==> cyclesRun <= maxCycles.value)
    && (forall k :: 0 <= k < cyclesRun - 1 ==> !inputs[k].stopRequested)
    && (fetchFailed <==>
          && cyclesRun == |inputs|
          && !(Bounded(maxCycles) && cyclesRun >= maxCycles.value)
          && (cyclesRun == 0 || !inputs[cyclesRun - 1].stopRequested))
    && (|| fetchFailed
        || (Bounded(maxCycles) && cyclesRun >= maxCycles.value)
        || (cyclesRun > 0 && inputs[cyclesRun - 1].stopRequested))
  }

  /**
   * The MDP engine after being asked about a snapshot: its table has a row
   * for the snapshot's state (a fresh all-zero one if it was new) and is
   * otherwise as before; exploration and episodes are untouched.
   */
  ghost predicate Asked(mdp: MdpDecision, q: QTable, epsilon: real, episodeCount: nat, m: MarketState)
    reads mdp
  {
    mdp.qTable == WithRow(q, Discretize(m)) && mdp.epsilon == epsilon && mdp.episodeCount == episodeCount
  }

  /** A cycle's report agrees with the verdict: its number, the gate's reasons, a low consensus. */
  predicate Reported(r: CycleReport, v: Simulator.Verdict, cycle: nat)
  {
    && r.cycle == cycle
    && (r.GateBlockedCycle? <==> v.GateBlock?)
    && (v.GateBlock? ==> r.GateBlockedCycle? && r.reasons == v.reasons)
    && (r.LowConfidenceCycle? <==> v.ConfidenceBlock?)
  }

  /**
   * An approved cycle's report for the sized action: a hold exactly when the
   * sized action is a hold; otherwise a paper trade in simulation mode and a
   * live execution of the bundle in live mode, of the sized kind.
   */
  predicate Acted(r: CycleReport, d: Decision, mode: Mode, sized: Action, jito: JitoConfig, input: CycleInput)
  {
    && (r.HoldCycle? || r.PaperTradeCycle? || r.LiveExecutionCycle?)
    && (r.HoldCycle? <==> sized.actionType == Hold)
    && (r.HoldCycle? ==> r.confidence == d.consensusConfidence)
    && (r.PaperTradeCycle? <==> sized.actionType != Hold && mode == Simulation)
    && (r.PaperTradeCycle? ==> (r.actionType == sized.actionType && r.size == sized.size
                                && r.leverage == sized.leverage && r.confidence == d.consensusConfidence))
    && (r.LiveExecutionCycle? ==> (r.actionType == sized.actionType && input.m.liquidityScore != 0.0
                                   && r.result == ExecuteAction(jito, sized, input.m, input.jitter, input.inclusionDraw)))
  }
}
