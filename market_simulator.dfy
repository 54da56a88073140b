// The market simulator: the live pipeline (gate, ensemble, sizing) run on
// snapshots from a market-data source, with paper execution that can be
// switched off. The snapshots, the engines' answers and the paper trader's
// slippage draws are parameters.

module Simulator {
  import opened Types
  import opened Gate
  import opened Ensemble
  import opened Leverage
  import opened Paper

  /** The optional entries of a simulator's configuration. */
  datatype SimConfig = SimConfig(minConfidence: Option<real>, initialBalance: Option<real>, maxPositionPct: Option<real>)

  /**
   * The confidence threshold: the configured one when present (even zero);
   * otherwise the argument, unless it is missing or zero, which gives 0.75.
   */
  function ResolveMinConfidence(configured: Option<real>, argument: Option<real>): (c: real)
    ensures configured.Some? ==> c == configured.value
    ensures configured.None? && argument.Some? && argument.value != 0.0 ==> c == argument.value
    ensures configured.None? && (argument.None? || argument.value == 0.0) ==> c == 0.75
  {
    if configured.Some? then configured.value
    else if argument.Some? && argument.value != 0.0 then argument.value
    else 0.75
  }

  /** A zero threshold survives in the configuration but not as an argument. */
  lemma ZeroThreshold()
    ensures ResolveMinConfidence(Some(0.0), Some(0.9)) == 0.0
    ensures ResolveMinConfidence(None, Some(0.0)) == 0.75
  {
  }

  /** The sizing configuration built when none is supplied. */
  function DefaultSizing(config: SimConfig): (cfg: LeverageConfig)
    ensures cfg.maxPositionPct == GetOr(config.maxPositionPct, 0.35)
    ensures cfg.accountBalance == GetOr(config.initialBalance, 100.0)
    ensures cfg.maxLeverage == DefaultLeverageConfig.maxLeverage && cfg.minPositionPct == DefaultLeverageConfig.minPositionPct
  {
    DefaultLeverageConfig.(maxPositionPct := GetOr(config.maxPositionPct, 0.35), accountBalance := GetOr(config.initialBalance, 100.0))
  }

  /**
   * Approved decisions as a percentage of the decisions taken, 0 before the
   * first one.
   */
  function ApprovalRate(approved: nat, total: nat): (r: real)
    ensures total == 0 ==> r == 0.0
    ensures approved <= total ==> 0.0 <= r <= 100.0
    ensures 0 < total && approved == total ==> r == 100.0
    ensures 0 < total && approved == 0 ==> r == 0.0
  {
    if total > 0 then
      ShareBounds(approved, total);
      approved as real / total as real * 100.0
    else 0.0
  }

  lemma ShareBounds(part: nat, total: nat)
    requires total > 0
    ensures part <= total ==> 0.0 <= part as real / total as real * 100.0 <= 100.0
  {
    if part <= total {
      DivideMonotone(part as real, total as real, total as real);
      MultiplyMonotone(part as real / total as real, 1.0, 100.0);
    }
  }

  /** How the pipeline judges one snapshot. */
  datatype Verdict = GateBlock(reasons: seq<GateReason>) | ConfidenceBlock | Approve(decision: Decision)

  /**
   * The verdict on a snapshot: blocked by the gate, with its reasons;
   * else blocked for a consensus below the threshold; else approved with the
   * ensemble's decision.
   */
  function Judge(gate: LogicGate, engines: seq<string>, minConfidence: real, m: MarketState, outcomes: seq<EngineResult>): (v: Verdict)
    requires Checkable(m) && |outcomes| == |engines|
    ensures v.GateBlock? <==> !Check(gate, m, ProbeAction).allowed
    ensures v.GateBlock? ==> v.reasons == Check(gate, m, ProbeAction).reasons
    ensures v.ConfidenceBlock? ==> Aggregate(CollectVotes(engines, outcomes)).consensusConfidence < minConfidence
    ensures v.Approve? ==> (v.decision == Aggregate(CollectVotes(engines, outcomes))
                            && v.decision.consensusConfidence >= minConfidence)
  {
    var filter := Check(gate, m, ProbeAction);
    if !filter.allowed then GateBlock(filter.reasons)
    else
      var d := Aggregate(CollectVotes(engines, outcomes));
      if d.consensusConfidence < minConfidence then ConfidenceBlock else Approve(d)
  }

  /**
   * With a positive threshold, an approved snapshot had at least one engine
   * answer validly, and its decision is an approved, valid one; a gate block
   * always names at least one reason.
   */
  lemma ApprovedHadVotes(gate: LogicGate, engines: seq<string>, minConfidence: real, m: MarketState, outcomes: seq<EngineResult>)
    requires Checkable(m) && |outcomes| == |engines| && minConfidence > 0.0
    ensures var v := Judge(gate, engines, minConfidence, m, outcomes);
      v.Approve? ==> Accepted(outcomes) > 0 && v.decision.status == Approved && ValidDecision(v.decision)
    ensures var v := Judge(gate, engines, minConfidence, m, outcomes);
      v.GateBlock? ==> v.reasons != []
  {
    CollectVotesCount(engines, outcomes);
  }

  /** One iteration's report. */
  datatype IterationReport =
    | GateBlockedReport(iteration: nat, reasons: seq<GateReason>, price: real, volume24h: real)
    | LowConfidenceReport(iteration: nat, price: real, volume24h: real)
    | PaperTradeReport(iteration: nat, actionType: ActionType, size: real, leverage: real, confidence: real,
                       price: real, entryPrice: real, feesPaid: real, slippagePct: real, regime: MarketRegime)
    | SimulatedDecisionReport(iteration: nat, actionType: ActionType, size: real, confidence: real,
                              price: real, regime: MarketRegime)

  /** A report states its snapshot's price and verdict: a block as such, an approval as a trade or a simulated decision. */
  predicate Screened(r: IterationReport, v: Verdict, m: MarketState)
  {
    && r.price == m.price
    && (r.GateBlockedReport? <==> v.GateBlock?)
    && (v.GateBlock? ==> r.reasons == v.reasons && r.volume24h == m.volume24h)
    && (r.LowConfidenceReport? <==> v.ConfidenceBlock?)
    && (v.ConfidenceBlock? ==> r.volume24h == m.volume24h)
    && (v.Approve? ==> r.confidence == v.decision.consensusConfidence && r.regime == m.regime)
  }

  /**
   * An approved report carries the sized action's kind and size; it is a
   * paper trade exactly when trades are executed and the sized action is not
   * a hold.
   */
  predicate SizedReport(r: IterationReport, v: Verdict, executeTrades: bool, sized: Action)
  {
    v.Approve? ==>
      && (r.PaperTradeReport? || r.SimulatedDecisionReport?)
      && r.actionType == sized.actionType && r.size == sized.size
      && (r.PaperTradeReport? <==> executeTrades && sized.actionType != Hold)
      && (r.PaperTradeReport? ==> r.leverage == sized.leverage)
  }

  /** The reports from position n0 on are numbered consecutively after `first`. */
  predicate Numbered(reports: seq<IterationReport>, first: nat)
  {
    forall k :: 0 <= k < |reports| ==> reports[k].iteration == first + k + 1
  }

  /** Every snapshot can be judged, with one answer per engine. */
  predicate Judgeable(engines: seq<string>, snapshots: seq<MarketState>, outcomes: seq<seq<EngineResult>>)
  {
    && |outcomes| == |snapshots|
    && (forall i :: 0 <= i < |snapshots| ==> Checkable(snapshots[i]))
    && (forall i :: 0 <= i < |outcomes| ==> |outcomes[i]| == |engines|)
  }

  /** The snapshots a run consumes can be judged and, when trades are executed, traded on. */
  predicate Simulable(engines: seq<string>, executeTrades: bool, snapshots: seq<MarketState>, outcomes: seq<seq<EngineResult>>)
  {
    && Judgeable(engines, snapshots, outcomes)
    && (forall i :: 0 <= i < |snapshots| ==> executeTrades ==> snapshots[i].liquidityScore != 0.0)
  }

  /** The verdict on every snapshot. */
  function Verdicts(gate: LogicGate, engines: seq<string>, minConfidence: real,
                    snapshots: seq<MarketState>, outcomes: seq<seq<EngineResult>>): (vs: seq<Verdict>)
    requires Judgeable(engines, snapshots, outcomes)
    ensures |vs| == |snapshots|
    ensures forall i :: 0 <= i < |snapshots| ==> vs[i] == Judge(gate, engines, minConfidence, snapshots[i], outcomes[i])
  {
    seq(|snapshots|, i requires 0 <= i < |snapshots| => Judge(gate, engines, minConfidence, snapshots[i], outcomes[i]))
  }

  /** Every report so far states its own snapshot's verdict. */
  predicate AllScreened(reports: seq<IterationReport>, vs: seq<Verdict>, snapshots: seq<MarketState>)
    requires |reports| <= |vs| == |snapshots|
  {
    forall k :: 0 <= k < |reports| ==> Screened(reports[k], vs[k], snapshots[k])
  }

  lemma AllScreenedStep(reports: seq<IterationReport>, vs: seq<Verdict>, snapshots: seq<MarketState>,
                        r: IterationReport, first: nat)
    requires |reports| < |vs| == |snapshots|
    requires AllScreened(reports, vs, snapshots) && Screened(r, vs[|reports|], snapshots[|reports|])
    requires Numbered(reports, first) && r.iteration == first + |reports| + 1
    ensures AllScreened(reports + [r], vs, snapshots)
    ensures Numbered(reports + [r], first)
  {
  }

  /** The counters and the trading summary of a simulator. */
  datatype SimSummary = SimSummary(
    finalBalance: real,
    totalPnl: real,
    totalTrades: nat,
    winningTrades: nat,
    winRatePct: real,
    returnPct: real,
    maxDrawdownPct: real,
    blockedCount: nat,
    approvedCount: nat,
    totalCycles: nat,
    approvalRate: real)

  /** The report of a whole run. */
  datatype SimulationReport = SimulationReport(
    iterations: nat,
    minConfidence: real,
    executeTrades: bool,
    total: nat,
    approved: nat,
    blocked: nat,
    approvalRate: real,
    tradingSummary: Option<Summary>,
    iterationReports: seq<IterationReport>)

  class MarketSimulator {
    const gate: LogicGate
    const ensemble: HyperEnsemble
    const leverage: LeverageConfig
    const trader: PaperTrader
    const minConfidence: real

    var executeTrades: bool
    var iteration: nat
    var decisionsBlocked: nat
    var decisionsApproved: nat

    /** Every iteration so far was either blocked or approved. */
    predicate Counted()
      reads this
    {
      decisionsBlocked + decisionsApproved == iteration
    }

    /**
     * A simulator over the given components, building the missing ones: the
     * default gate, an ensemble of the onflow and MDP engines, a sizer and a
     * paper trader seeded from the configuration.
     */
    constructor(gate: Option<LogicGate>, ensemble: Option<HyperEnsemble>, leverage: Option<LeverageConfig>,
                trader: Option<PaperTrader>, minConfidence: Option<real>, executeTrades: bool, config: SimConfig)
      ensures this.gate == if gate.Some? then gate.value else DefaultGate
      ensures ensemble.Some? ==> this.ensemble == ensemble.value
      ensures ensemble.None? ==> fresh(this.ensemble) && this.ensemble.engines == ["onflow", "mdp"]
      ensures this.leverage == if leverage.Some? then leverage.value else DefaultSizing(config)
      ensures trader.Some? ==> this.trader == trader.value
      ensures trader.None? ==> (fresh(this.trader) && this.trader.Ledgered() && this.trader.trades == []
                                && this.trader.initialBalance == GetOr(config.initialBalance, 100.0)
                                && this.trader.feePct == 0.05 && this.trader.baseSlippagePct == 0.02)
      ensures this.minConfidence == ResolveMinConfidence(config.minConfidence, minConfidence)
      ensures this.executeTrades == executeTrades
      ensures iteration == 0 && decisionsBlocked == 0 && decisionsApproved == 0 && Counted()
    {
      var e: HyperEnsemble;
      if ensemble.Some? {
        e := ensemble.value;
      } else {
        e := new HyperEnsemble([]);
        e.AddEngine("onflow");
        e.AddEngine("mdp");
      }
      var t: PaperTrader;
      if trader.Some? {
        t := trader.value;
      } else {
        t := new PaperTrader(GetOr(config.initialBalance, 100.0), 0.05, 0.02, 100.0);
      }
      this.gate := if gate.Some? then gate.value else DefaultGate;
      this.ensemble := e;
      this.leverage := if leverage.Some? then leverage.value else DefaultSizing(config);
      this.trader := t;
      this.minConfidence := ResolveMinConfidence(config.minConfidence, minConfidence);
      this.executeTrades := executeTrades;
      iteration := 0;
      decisionsBlocked := 0;
      decisionsApproved := 0;
    }

    /**
     * One iteration on a snapshot, given the engines' answers and the
     * slippage draw: counts it; a gate block or a low consensus is counted
     * as blocked and reported before sizing or trading; an approval is sized
     * against the trader's balance and paper-traded when trades are executed
     * and the sized action is not a hold.
     */
    method RunIteration(m: MarketState, outcomes: seq<EngineResult>, draw: real) returns (report: IterationReport)
      requires Checkable(m) && |outcomes| == |ensemble.engines|
      requires executeTrades ==> m.liquidityScore != 0.0
      requires trader.Valid()
      modifies this, trader
      ensures iteration == old(iteration) + 1 && report.iteration == iteration
      ensures executeTrades == old(executeTrades)
      ensures var v := Judge(gate, ensemble.engines, minConfidence, m, outcomes);
        && decisionsBlocked == old(decisionsBlocked) + (if v.Approve? then 0 else 1)
        && decisionsApproved == old(decisionsApproved) + (if v.Approve? then 1 else 0)
        && Screened(report, v, m)
        && (v.Approve? ==> SizedReport(report, v, executeTrades, SizePosition(leverage, v.decision.action, m, Some(old(trader.balance)))))
      ensures old(Counted()) ==> Counted()
      ensures !report.PaperTradeReport? ==> unchanged(trader)
      ensures report.PaperTradeReport? ==>
        var sized := SizePosition(leverage, Judge(gate, ensemble.engines, minConfidence, m, outcomes).decision.action, m, Some(old(trader.balance)));
        var t := trader.Opening(sized, m, draw);
        && trader.OpenedFrom(old(trader.trades), old(trader.balance), old(trader.openPositions), old(trader.closedTrades), t)
        && report.entryPrice == t.entryPrice && report.feesPaid == t.feesPaid && report.slippagePct == t.slippagePct
      ensures trader.Valid() && (old(trader.Ledgered()) ==> trader.Ledgered())
    {
      iteration := iteration + 1;
      var v := JudgeSnapshot(m, outcomes);
      decisionsBlocked := if v.Approve? then decisionsBlocked else decisionsBlocked + 1;
      decisionsApproved := if v.Approve? then decisionsApproved + 1 else decisionsApproved;
      if v.Approve? {
        report := ExecuteApproved(v.decision, m, draw);
      } else {
        report := if v.GateBlock? then GateBlockedReport(iteration, v.reasons, m.price, m.volume24h)
                  else LowConfidenceReport(iteration, m.price, m.volume24h);
      }
    }

    /** The gate, then the ensemble with the minimum-confidence check. */
    method JudgeSnapshot(m: MarketState, outcomes: seq<EngineResult>) returns (v: Verdict)
      requires Checkable(m) && |outcomes| == |ensemble.engines|
      ensures v == Judge(gate, ensemble.engines, minConfidence, m, outcomes)
    {
      var filter := Check(gate, m, ProbeAction);
      if !filter.allowed {
        return GateBlock(filter.reasons);
      }
      var decision := ensemble.RunAndAssert(outcomes, minConfidence);
      if decision.None? {
        return ConfidenceBlock;
      }
      return Approve(decision.value);
    }

    /**
     * The approved part of an iteration: sizes the decision against the
     * trader's balance and paper-trades it when trades are executed and it is
     * not a hold; otherwise reports the decision as simulated.
     */
    method ExecuteApproved(d: Decision, m: MarketState, draw: real) returns (report: IterationReport)
      requires executeTrades ==> m.liquidityScore != 0.0
      requires trader.Valid()
      modifies trader
      ensures report.iteration == iteration && report.price == m.price
      ensures SizedReport(report, Approve(d), executeTrades, SizePosition(leverage, d.action, m, Some(old(trader.balance))))
      ensures report.confidence == d.consensusConfidence && report.regime == m.regime
      ensures !report.PaperTradeReport? ==> unchanged(trader)
      ensures report.PaperTradeReport? ==>
        var sized := SizePosition(leverage, d.action, m, Some(old(trader.balance)));
        var t := trader.Opening(sized, m, draw);
        && trader.OpenedFrom(old(trader.trades), old(trader.balance), old(trader.openPositions), old(trader.closedTrades), t)
        && report.entryPrice == t.entryPrice && report.feesPaid == t.feesPaid && report.slippagePct == t.slippagePct
      ensures trader.Valid() && (old(trader.Ledgered()) ==> trader.Ledgered())
    {
      var sized := SizePosition(leverage, d.action, m, Some(trader.balance));
      if executeTrades && sized.actionType != Hold {
        var trade, id := trader.SimulateExecution(sized, m, draw);
        report := PaperTradeReport(iteration, sized.actionType, sized.size, sized.leverage, d.consensusConfidence,
                                   m.price, trade.entryPrice, trade.feesPaid, trade.slippagePct, m.regime);
      } else {
        report := SimulatedDecisionReport(iteration, sized.actionType, sized.size, d.consensusConfidence, m.price, m.regime);
      }
    }

    /**
     * One iteration with the execution flag optionally overridden for just
     * this call: the flag in force afterwards is the one from before.
     */
    method RunCycle(m: MarketState, outcomes: seq<EngineResult>, draw: real, execute: Option<bool>)
      returns (report: IterationReport)
      requires Checkable(m) && |outcomes| == |ensemble.engines|
      requires (if execute.Some? then execute.value else executeTrades) ==> m.liquidityScore != 0.0
      requires trader.Valid()
      modifies this, trader
      ensures executeTrades == old(executeTrades)
      ensures iteration == old(iteration) + 1 && report.iteration == iteration
      ensures var v := Judge(gate, ensemble.engines, minConfidence, m, outcomes);
        var inForce := if execute.Some? then execute.value else old(executeTrades);
        && decisionsBlocked == old(decisionsBlocked) + (if v.Approve? then 0 else 1)
        && decisionsApproved == old(decisionsApproved) + (if v.Approve? then 1 else 0)
        && Screened(report, v, m)
        && (v.Approve? ==> SizedReport(report, v, inForce, SizePosition(leverage, v.decision.action, m, Some(old(trader.balance)))))
      ensures !report.PaperTradeReport? ==> unchanged(trader)
      ensures report.PaperTradeReport? ==>
        var sized := SizePosition(leverage, Judge(gate, ensemble.engines, minConfidence, m, outcomes).decision.action, m, Some(old(trader.balance)));
        var t := trader.Opening(sized, m, draw);
        && trader.OpenedFrom(old(trader.trades), old(trader.balance), old(trader.openPositions), old(trader.closedTrades), t)
        && report.entryPrice == t.entryPrice && report.feesPaid == t.feesPaid && report.slippagePct == t.slippagePct
      ensures trader.Valid() && (old(trader.Ledgered()) ==> trader.Ledgered())
    {
      if execute.Some? {
        var previous := executeTrades;
        executeTrades := execute.value;
        report := RunIteration(m, outcomes, draw);
        executeTrades := previous;
      } else {
        report := RunIteration(m, outcomes, draw);
      }
    }

    /**
     * The simulator's counters and the trader's results, renamed; there is no
     * drawdown tracking. There is none when the trader has no summary.
     */
    function GetSummary(): (r: Option<SimSummary>)
      reads this, trader
      requires trader.Valid()
      ensures r.None? <==> trader.GetSummary().None?
      ensures r.Some? ==> var s, p := r.value, trader.GetSummary().value;
        && s.finalBalance == p.currentBalance == trader.balance
        && s.totalPnl == p.totalPnl && s.returnPct == p.returnPct
        && s.totalTrades == p.totalTrades == |trader.closedTrades|
        && s.winningTrades == p.winningTrades == Wins(trader.trades, trader.closedTrades)
        && s.winRatePct == p.winRate && 0.0 <= s.winRatePct <= 100.0
        && (trader.closedTrades == [] ==> s.totalPnl == 0.0 && s.returnPct == 0.0)
        && s.maxDrawdownPct == 0.0
        && s.blockedCount == decisionsBlocked && s.approvedCount == decisionsApproved && s.totalCycles == iteration
        && s.approvalRate == ApprovalRate(decisionsApproved, iteration)
        && (Counted() ==> 0.0 <= s.approvalRate <= 100.0)
    {
      match trader.GetSummary()
      case None => None
      case Some(p) =>
        Some(SimSummary(p.currentBalance, p.totalPnl, p.totalTrades, p.winningTrades, p.winRate, p.returnPct, 0.0,
                        decisionsBlocked, decisionsApproved, iteration, ApprovalRate(decisionsApproved, iteration)))
    }

    /**
     * Runs one iteration per snapshot, then closes every open position at
     * the closing snapshot's price; the report carries one iteration report
     * per snapshot, in order, the decision counters and the trader's summary.
     */
    method RunSimulation(snapshots: seq<MarketState>, outcomes: seq<seq<EngineResult>>, draws: seq<real>, closing: MarketState)
      returns (report: SimulationReport)
      requires Simulable(ensemble.engines, executeTrades, snapshots, outcomes) && |draws| == |snapshots|
      requires trader.Valid()
      modifies this, trader
      ensures report.iterations == |snapshots| && |report.iterationReports| == |snapshots|
      ensures executeTrades == old(executeTrades)
      ensures Numbered(report.iterationReports, old(iteration))
      ensures AllScreened(report.iterationReports, Verdicts(gate, ensemble.engines, minConfidence, snapshots, outcomes), snapshots)
      ensures iteration == old(iteration) + |snapshots|
      ensures old(Counted()) ==> Counted()
      ensures report.total == iteration && report.approved == decisionsApproved && report.blocked == decisionsBlocked
      ensures report.approvalRate == ApprovalRate(decisionsApproved, iteration)
      ensures report.minConfidence == minConfidence && report.executeTrades == executeTrades
      ensures trader.openPositions == []
      ensures trader.Valid() && (old(trader.Ledgered()) ==> trader.Ledgered())
      ensures report.tradingSummary == trader.GetSummary()
    {
      var reports := RunIterations(snapshots, outcomes, draws);
      var closed := trader.CloseAllPositions(closing);
      report := SimulationReport(|snapshots|, minConfidence, executeTrades, iteration, decisionsApproved,
                                 decisionsBlocked, ApprovalRate(decisionsApproved, iteration), trader.GetSummary(), reports);
    }

    /** The iterations of a run, one per snapshot, without the close-out. */
    method RunIterations(snapshots: seq<MarketState>, outcomes: seq<seq<EngineResult>>, draws: seq<real>)
      returns (reports: seq<IterationReport>)
      requires Simulable(ensemble.engines, executeTrades, snapshots, outcomes) && |draws| == |snapshots|
      requires trader.Valid()
      modifies this, trader
      ensures |reports| == |snapshots| && executeTrades == old(executeTrades)
      ensures Numbered(reports, old(iteration))
      ensures AllScreened(reports, Verdicts(gate, ensemble.engines, minConfidence, snapshots, outcomes), snapshots)
      ensures iteration == old(iteration) + |snapshots|
      ensures old(Counted()) ==> Counted()
      ensures trader.Valid() && (old(trader.Ledgered()) ==> trader.Ledgered())
    {
      ghost var first := iteration;
      ghost var counted := Counted();
      ghost var ledgered := trader.Ledgered();
      ghost var vs := Verdicts(gate, ensemble.engines, minConfidence, snapshots, outcomes);
      reports := [];
      for i: nat := 0 to |snapshots|
        invariant |reports| == i && iteration == first + i && executeTrades == old(executeTrades)
        invariant counted ==> Counted()
        invariant trader.Valid() && (ledgered ==> trader.Ledgered())
        invariant Numbered(reports, first)
        invariant AllScreened(reports, vs, snapshots)
      {
        var r := RunIteration(snapshots[i], outcomes[i], draws[i]);
        AllScreenedStep(reports, vs, snapshots, r, first);
        reports := reports + [r];
      }
    }
  }
}
