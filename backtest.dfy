// Historical replay: every bar becomes a snapshot and goes through the gate,
// the ensemble, the position sizer and the paper trader; a trade opened on one
// bar is exited at the next bar's price, and whatever is still open after the
// last bar is closed at its price. The engines' answers for each bar and the
// paper trader's slippage draws are parameters.

module Backtest {
  import opened Types
  import opened Gate
  import opened Ensemble
  import opened Leverage
  import opened Paper

  /** A historical bar; every field may be missing. */
  datatype Bar = Bar(
    close: Option<real>,
    price: Option<real>,
    volume: Option<real>,
    high: Option<real>,
    low: Option<real>,
    emaFast: Option<real>,
    emaSlow: Option<real>,
    regime: Option<MarketRegime>,
    volatility: Option<real>,
    liquidityScore: Option<real>,
    mevRiskScore: Option<real>,
    latencyMs: Option<real>)

  /** The bar's price: its close, else its price field, else 100. */
  function BarPrice(b: Bar): real
  {
    GetOr(b.close, GetOr(b.price, 100.0))
  }

  /**
   * The snapshot of a bar: bid and ask are the bar's low and high, 0.1%
   * either side of the price when missing; the other fields have fixed
   * defaults (volume 1000, volatility 0.02, liquidity 0.8, MEV risk 0.1,
   * latency 100 ms, unknown regime).
   */
  function MarketStateFromBar(b: Bar): (m: MarketState)
    ensures m.price == BarPrice(b)
    ensures m.bid == GetOr(b.low, BarPrice(b) * 0.999) && m.ask == GetOr(b.high, BarPrice(b) * 1.001)
    ensures m.emaFast == b.emaFast && m.emaSlow == b.emaSlow
    ensures m.regime == if b.regime.Some? then b.regime.value else Unknown
  {
    var price := BarPrice(b);
    MarketState(
      price,
      GetOr(b.volume, 1000.0),
      GetOr(b.low, price * 0.999),
      GetOr(b.high, price * 1.001),
      b.emaFast,
      b.emaSlow,
      if b.regime.Some? then b.regime.value else Unknown,
      GetOr(b.volatility, 0.02),
      GetOr(b.liquidityScore, 0.8),
      GetOr(b.mevRiskScore, 0.1),
      GetOr(b.latencyMs, 100.0))
  }

  /** A bar with only a positive close has a valid snapshot, with the bid below the price and the ask above it. */
  lemma CloseOnlyBar(close: real)
    requires close > 0.0
    ensures var m := MarketStateFromBar(Bar(Some(close), None, None, None, None, None, None, None, None, None, None, None));
      ValidMarketState(m) && m.bid < m.price < m.ask
  {
  }

  /**
   * A bar with only a positive close passes the default gate: its MEV risk,
   * latency and volume defaults are within the default limits, it has no
   * EMAs, and its default spread is about 0.2%.
   */
  lemma CloseOnlyBarPasses(close: real, a: Action)
    requires close > 0.0
    ensures var m := MarketStateFromBar(Bar(Some(close), None, None, None, None, None, None, None, None, None, None, None));
      Checkable(m) && Check(DefaultGate, m, a).allowed
  {
    var m := MarketStateFromBar(Bar(Some(close), None, None, None, None, None, None, None, None, None, None, None));
    assert m.ask - m.bid == close * 0.002;
    assert SpreadPct(m) == close * 0.002 / (close * 0.999) * 100.0;
    assert close * 0.002 / (close * 0.999) == 0.002 / 0.999;
  }

  /** The divisions the gate performs on every bar's snapshot are defined. */
  predicate Replayable(b: Bar)
  {
    Checkable(MarketStateFromBar(b))
  }

  /** How a bar fares before any money moves. */
  datatype Screening = GateBlocked | LowConfidence | HoldSized | Trade(decision: Decision)

  /**
   * The bar's screening: blocked by the gate; else withheld by the ensemble
   * for low consensus; else a hold (sizing keeps the kind, so a hold decision
   * stays a hold and is not traded); else a trade of the decided kind.
   */
  function Screen(gate: LogicGate, engines: seq<string>, minConfidence: real, b: Bar, outcomes: seq<EngineResult>): (s: Screening)
    requires Replayable(b) && |outcomes| == |engines|
    ensures s.GateBlocked? <==> !Check(gate, MarketStateFromBar(b), ProbeAction).allowed
    ensures s.Trade? ==> s.decision == Aggregate(CollectVotes(engines, outcomes)) && s.decision.action.actionType != Hold
  {
    if !Check(gate, MarketStateFromBar(b), ProbeAction).allowed then GateBlocked
    else
      var d := Aggregate(CollectVotes(engines, outcomes));
      if d.consensusConfidence < minConfidence then LowConfidence
      else if d.action.actionType == Hold then HoldSized
      else Trade(d)
  }

  /** One entry of the replay's result list. */
  datatype BarResult =
    | BlockedBar(bar: nat, price: real)
    | LowConfidenceBar(bar: nat, price: real)
    | Executed(bar: nat, actionType: ActionType, price: real, size: real)

  /** A result entry records the bar's price and its screening. */
  predicate Describes(r: BarResult, s: Screening, m: MarketState)
  {
    && r.price == m.price
    && (r.BlockedBar? <==> s.GateBlocked?)
    && (r.LowConfidenceBar? <==> s.LowConfidence?)
    && (r.Executed? <==> s.Trade?)
    && (r.Executed? ==> r.actionType == s.decision.action.actionType)
  }

  predicate Replayables(gate: LogicGate, engines: seq<string>, bars: seq<Bar>, outcomes: seq<seq<EngineResult>>)
  {
    && |outcomes| == |bars|
    && (forall i :: 0 <= i < |bars| ==> Replayable(bars[i]))
    && (forall i :: 0 <= i < |outcomes| ==> |outcomes[i]| == |engines|)
  }

  /**
   * The paper trader divides by the liquidity score only when it executes,
   * so only a bar screened as a trade needs a non-zero score.
   */
  predicate LiquidWhereTraded(ss: seq<Screening>, bars: seq<Bar>)
  {
    && |ss| == |bars|
    && forall i :: 0 <= i < |bars| && ss[i].Trade? ==> MarketStateFromBar(bars[i]).liquidityScore != 0.0
  }

  /** The screening of every bar. */
  function Screens(gate: LogicGate, engines: seq<string>, minConfidence: real, bars: seq<Bar>, outcomes: seq<seq<EngineResult>>): (ss: seq<Screening>)
    requires Replayables(gate, engines, bars, outcomes)
    ensures |ss| == |bars|
  {
    if bars == [] then []
    else
      var n := |bars| - 1;
      Screens(gate, engines, minConfidence, bars[..n], outcomes[..n]) + [Screen(gate, engines, minConfidence, bars[n], outcomes[n])]
  }

  /** Each bar's entry is that bar's screening. */
  lemma {:induction false} ScreensAt(gate: LogicGate, engines: seq<string>, minConfidence: real, bars: seq<Bar>, outcomes: seq<seq<EngineResult>>, i: nat)
    requires Replayables(gate, engines, bars, outcomes) && i < |bars|
    ensures Screens(gate, engines, minConfidence, bars, outcomes)[i] == Screen(gate, engines, minConfidence, bars[i], outcomes[i])
    decreases |bars|
  {
    var n := |bars| - 1;
    var front := Screens(gate, engines, minConfidence, bars[..n], outcomes[..n]);
    assert Screens(gate, engines, minConfidence, bars, outcomes)
      == front + [Screen(gate, engines, minConfidence, bars[n], outcomes[n])];
    if i < n {
      ScreensAt(gate, engines, minConfidence, bars[..n], outcomes[..n], i);
      assert bars[..n][i] == bars[i] && outcomes[..n][i] == outcomes[i];
    }
  }

  /** The positions that get an entry in the result list, in order: all but the holds. */
  function Reported(ss: seq<Screening>): (rs: seq<nat>)
    ensures |rs| <= |ss|
  {
    if ss == [] then []
    else
      var n := |ss| - 1;
      Reported(ss[..n]) + (if ss[n].HoldSized? then [] else [n])
  }

  /** Reported positions are increasing, and a position is reported exactly when it is not a hold. */
  lemma {:induction false} ReportedSpec(ss: seq<Screening>)
    ensures forall k, l :: 0 <= k < l < |Reported(ss)| ==> Reported(ss)[k] < Reported(ss)[l]
    ensures forall k :: 0 <= k < |Reported(ss)| ==> Reported(ss)[k] < |ss|
    ensures forall i :: 0 <= i < |ss| ==> (i in Reported(ss) <==> !ss[i].HoldSized?)
  {
    if ss != [] {
      var n := |ss| - 1;
      ReportedSpec(ss[..n]);
      assert forall i :: 0 <= i < n ==> ss[..n][i] == ss[i];
    }
  }

  /** One more screening adds its position unless it is a hold. */
  lemma ReportedStep(ss: seq<Screening>, i: nat)
    requires i < |ss|
    ensures Reported(ss[..i + 1]) == Reported(ss[..i]) + (if ss[i].HoldSized? then [] else [i])
  {
    assert ss[..i + 1][..i] == ss[..i];
  }

  /** The positions screened as trades, in order. */
  function TradeBars(ss: seq<Screening>): (tb: seq<nat>)
    ensures |tb| <= |ss|
  {
    if ss == [] then []
    else
      var n := |ss| - 1;
      TradeBars(ss[..n]) + (if ss[n].Trade? then [n] else [])
  }

  /** Trade positions are increasing, and a position is one exactly when it is screened as a trade. */
  lemma {:induction false} TradeBarsSpec(ss: seq<Screening>)
    ensures forall k, l :: 0 <= k < l < |TradeBars(ss)| ==> TradeBars(ss)[k] < TradeBars(ss)[l]
    ensures forall k :: 0 <= k < |TradeBars(ss)| ==> TradeBars(ss)[k] < |ss|
    ensures forall i :: 0 <= i < |ss| ==> (i in TradeBars(ss) <==> ss[i].Trade?)
  {
    if ss != [] {
      var n := |ss| - 1;
      TradeBarsSpec(ss[..n]);
      assert forall i :: 0 <= i < n ==> ss[..n][i] == ss[i];
    }
  }

  lemma TradeBarsNext(ss: seq<Screening>, i: nat)
    requires i < |ss|
    ensures TradeBars(ss[..i + 1]) == TradeBars(ss[..i]) + (if ss[i].Trade? then [i] else [])
  {
    assert ss[..i + 1][..i] == ss[..i];
  }

  /** The executed entries of a result list, in order. */
  function ExecutedOf(results: seq<BarResult>): (es: seq<BarResult>)
    ensures |es| <= |results|
    ensures forall k :: 0 <= k < |es| ==> es[k].Executed? && es[k] in results
  {
    if results == [] then []
    else
      var n := |results| - 1;
      var front := ExecutedOf(results[..n]);
      assert forall k :: 0 <= k < |front| ==> front[k] in results by {
        assert forall r :: r in results[..n] ==> r in results;
      }
      front + (if results[n].Executed? then [results[n]] else [])
  }

  lemma ExecutedOfAppend(results: seq<BarResult>, r: BarResult)
    ensures ExecutedOf(results + [r]) == ExecutedOf(results) + (if r.Executed? then [r] else [])
  {
    assert (results + [r])[..|results|] == results;
  }

  /** The bar indices of a result list. */
  function BarsOf(results: seq<BarResult>): (bs: seq<nat>)
    ensures |bs| == |results|
    ensures forall k :: 0 <= k < |results| ==> bs[k] == results[k].bar
  {
    if results == [] then [] else BarsOf(results[..|results| - 1]) + [results[|results| - 1].bar]
  }

  /** Every result entry belongs to a bar before i and describes that bar's screening and snapshot. */
  predicate DescribesBars(results: seq<BarResult>, ss: seq<Screening>, bars: seq<Bar>, i: nat)
    requires |ss| == |bars| && i <= |bars|
  {
    forall k :: 0 <= k < |results| ==>
      results[k].bar < i && Describes(results[k], ss[results[k].bar], MarketStateFromBar(bars[results[k].bar]))
  }

  lemma DescribesBarsStep(results: seq<BarResult>, ss: seq<Screening>, bars: seq<Bar>, i: nat, r: Option<BarResult>)
    requires |ss| == |bars| && i < |bars|
    requires DescribesBars(results, ss, bars, i)
    requires r.Some? ==> r.value.bar == i && Describes(r.value, ss[i], MarketStateFromBar(bars[i]))
    ensures DescribesBars(results + (if r.Some? then [r.value] else []), ss, bars, i + 1)
  {
  }

  lemma BarsOfAppend(results: seq<BarResult>, r: BarResult)
    ensures BarsOf(results + [r]) == BarsOf(results) + [r.bar]
  {
    assert (results + [r])[..|results|] == results;
  }

  /** The price of every bar. */
  function BarPrices(bars: seq<Bar>): (ps: seq<real>)
    ensures |ps| == |bars|
    ensures forall i :: 0 <= i < |bars| ==> ps[i] == BarPrice(bars[i])
  {
    seq(|bars|, i requires 0 <= i < |bars| => BarPrice(bars[i]))
  }

  /**
   * The trades from position n0 on were opened on the given bars, in order,
   * and each one whose bar has a successor was exited at that successor's price.
   */
  predicate ExitedAtNextBar(ts: seq<SimTrade>, n0: nat, tradeBars: seq<nat>, prices: seq<real>)
  {
    && |ts| == n0 + |tradeBars|
    && (forall k :: 0 <= k < |tradeBars| && tradeBars[k] + 1 < |prices| ==>
         ts[n0 + k].isClosed && ts[n0 + k].exitPrice == Some(prices[tradeBars[k] + 1]))
    && (forall k :: 0 <= k < |tradeBars| && tradeBars[k] + 1 >= |prices| ==> !ts[n0 + k].isClosed)
  }

  /** Appending a trade exited at the next bar's price, or no trade, keeps the earlier trades' exits. */
  lemma ExitedAtNextBarStep(ts: seq<SimTrade>, ts': seq<SimTrade>, n0: nat, tradeBars: seq<nat>, prices: seq<real>, i: nat, traded: bool)
    requires ExitedAtNextBar(ts, n0, tradeBars, prices)
    requires ts <= ts' && |ts'| == |ts| + (if traded then 1 else 0)
    requires traded && i + 1 < |prices| ==> ts'[|ts|].isClosed && ts'[|ts|].exitPrice == Some(prices[i + 1])
    requires traded && i + 1 >= |prices| ==> !ts'[|ts|].isClosed
    ensures ExitedAtNextBar(ts', n0, tradeBars + (if traded then [i] else []), prices)
  {
    var tb := tradeBars + (if traded then [i] else []);
    forall k | 0 <= k < |tb| && tb[k] + 1 < |prices|
      ensures ts'[n0 + k].isClosed && ts'[n0 + k].exitPrice == Some(prices[tb[k] + 1])
    {
      if k < |tradeBars| {
        assert ts'[n0 + k] == ts[n0 + k];
      }
    }
    forall k | 0 <= k < |tb| && tb[k] + 1 >= |prices|
      ensures !ts'[n0 + k].isClosed
    {
      if k < |tradeBars| {
        assert ts'[n0 + k] == ts[n0 + k];
      }
    }
  }

  /**
   * The replay's bookkeeping after the first i bars: the result entries are
   * those of the reported bars, each describing its bar, and the trades
   * from position n0 on were opened on trading bars and exited at the next
   * bar's price.
   */
  predicate Progress(results: seq<BarResult>, tradeBars: seq<nat>, ts: seq<SimTrade>, n0: nat,
                     ss: seq<Screening>, prices: seq<real>, bars: seq<Bar>, i: nat)
    requires |ss| == |bars| && i <= |bars|
  {
    && BarsOf(results) == Reported(ss[..i])
    && DescribesBars(results, ss, bars, i)
    && (forall k :: 0 <= k < |tradeBars| ==> tradeBars[k] < i && ss[tradeBars[k]].Trade?)
    && ExitedAtNextBar(ts, n0, tradeBars, prices)
  }

  /** Recording bar i as a trading bar, when it trades, keeps every recorded bar a trading bar already replayed. */
  lemma TradeBarsStep(tradeBars: seq<nat>, ss: seq<Screening>, i: nat, traded: bool)
    requires i < |ss| && (traded ==> ss[i].Trade?)
    requires forall k :: 0 <= k < |tradeBars| ==> tradeBars[k] < i && ss[tradeBars[k]].Trade?
    ensures var tb := tradeBars + (if traded then [i] else []);
      forall k :: 0 <= k < |tb| ==> tb[k] < i + 1 && ss[tb[k]].Trade?
  {
  }

  lemma ProgressStep(results: seq<BarResult>, tradeBars: seq<nat>, ts: seq<SimTrade>, ts': seq<SimTrade>, n0: nat,
                     ss: seq<Screening>, prices: seq<real>, bars: seq<Bar>, i: nat,
                     r: Option<BarResult>, traded: bool, nextPrice: Option<real>)
    requires |ss| == |bars| && i < |bars| && prices == BarPrices(bars)
    requires Progress(results, tradeBars, ts, n0, ss, prices, bars, i)
    requires r.None? <==> ss[i].HoldSized?
    requires r.Some? ==> r.value.bar == i && Describes(r.value, ss[i], MarketStateFromBar(bars[i]))
    requires traded <==> ss[i].Trade?
    requires ts <= ts' && |ts'| == |ts| + (if traded then 1 else 0)
    requires nextPrice == if i + 1 < |bars| then Some(MarketStateFromBar(bars[i + 1]).price) else None
    requires traded && nextPrice.Some? ==> ts'[|ts|].isClosed && ts'[|ts|].exitPrice == nextPrice
    requires traded && nextPrice.None? ==> !ts'[|ts|].isClosed
    ensures Progress(results + (if r.Some? then [r.value] else []), tradeBars + (if traded then [i] else []),
                     ts', n0, ss, prices, bars, i + 1)
  {
    ExitedAtNextBarStep(ts, ts', n0, tradeBars, prices, i, traded);
    TradeBarsStep(tradeBars, ss, i, traded);
    ReportedStep(ss, i);
    DescribesBarsStep(results, ss, bars, i, r);
    if r.Some? {
      BarsOfAppend(results, r.value);
    } else {
      assert results + [] == results;
    }
  }

  /**
   * The trading bookkeeping after the first i bars: the trading bars are
   * the positions screened as trades, and the executed entries pair up, in
   * order, with the trades from position n0 on: the same bar, kind and size.
   */
  predicate Paired(results: seq<BarResult>, tradeBars: seq<nat>, ts: seq<SimTrade>, n0: nat, ss: seq<Screening>, i: nat)
    requires i <= |ss|
  {
    && tradeBars == TradeBars(ss[..i])
    && |ExecutedOf(results)| == |tradeBars| && |ts| == n0 + |tradeBars|
    && forall k :: 0 <= k < |tradeBars| ==>
         && ExecutedOf(results)[k].bar == tradeBars[k]
         && ExecutedOf(results)[k].actionType == ts[n0 + k].actionType
         && ExecutedOf(results)[k].size == ts[n0 + k].size
  }

  lemma PairedStep(results: seq<BarResult>, tradeBars: seq<nat>, ts: seq<SimTrade>, ts': seq<SimTrade>, n0: nat,
                   ss: seq<Screening>, i: nat, r: Option<BarResult>, traded: bool)
    requires i < |ss| && Paired(results, tradeBars, ts, n0, ss, i)
    requires traded <==> ss[i].Trade?
    requires traded <==> r.Some? && r.value.Executed?
    requires ts <= ts' && |ts'| == |ts| + (if traded then 1 else 0)
    requires traded ==> r.value.bar == i && r.value.actionType == ts'[|ts|].actionType && r.value.size == ts'[|ts|].size
    ensures Paired(results + (if r.Some? then [r.value] else []), tradeBars + (if traded then [i] else []), ts', n0, ss, i + 1)
  {
    if traded {
      PairedTrade(results, tradeBars, ts, ts', n0, ss, i, r.value);
    } else {
      assert ts' == ts;
      PairedNoTrade(results, tradeBars, ts, n0, ss, i, r);
    }
  }

  /** A bar that trades appends its entry and its trade to the pairing. */
  lemma PairedTrade(results: seq<BarResult>, tradeBars: seq<nat>, ts: seq<SimTrade>, ts': seq<SimTrade>, n0: nat,
                    ss: seq<Screening>, i: nat, e: BarResult)
    requires i < |ss| && Paired(results, tradeBars, ts, n0, ss, i)
    requires ss[i].Trade? && e.Executed? && e.bar == i
    requires ts <= ts' && |ts'| == |ts| + 1 && e.actionType == ts'[|ts|].actionType && e.size == ts'[|ts|].size
    ensures Paired(results + [e], tradeBars + [i], ts', n0, ss, i + 1)
  {
    TradeBarsNext(ss, i);
    ExecutedOfAppend(results, e);
    var es := ExecutedOf(results);
    var es' := es + [e];
    var tb' := tradeBars + [i];
    forall k | 0 <= k < |tb'|
      ensures es'[k].bar == tb'[k] && es'[k].actionType == ts'[n0 + k].actionType && es'[k].size == ts'[n0 + k].size
    {
      if k < |tradeBars| {
        assert es'[k] == es[k] && tb'[k] == tradeBars[k] && ts'[n0 + k] == ts[n0 + k];
      } else {
        assert es'[k] == e && tb'[k] == i && n0 + k == |ts|;
      }
    }
  }

  /** A bar that does not trade adds no executed entry and no trade. */
  lemma PairedNoTrade(results: seq<BarResult>, tradeBars: seq<nat>, ts: seq<SimTrade>, n0: nat,
                      ss: seq<Screening>, i: nat, r: Option<BarResult>)
    requires i < |ss| && Paired(results, tradeBars, ts, n0, ss, i)
    requires !ss[i].Trade? && (r.Some? ==> !r.value.Executed?)
    ensures Paired(results + (if r.Some? then [r.value] else []), tradeBars, ts, n0, ss, i + 1)
  {
    TradeBarsNext(ss, i);
    if r.Some? {
      ExecutedOfAppend(results, r.value);
    } else {
      assert results + [] == results;
    }
  }

  /** A change that keeps every trade's kind and size keeps the pairing. */
  lemma PairedKept(results: seq<BarResult>, tradeBars: seq<nat>, ts: seq<SimTrade>, ts': seq<SimTrade>, n0: nat,
                   ss: seq<Screening>, i: nat)
    requires i <= |ss| && Paired(results, tradeBars, ts, n0, ss, i)
    requires |ts'| == |ts| && forall j :: 0 <= j < |ts| ==> ts'[j].actionType == ts[j].actionType && ts'[j].size == ts[j].size
    ensures Paired(results, tradeBars, ts', n0, ss, i)
  {
  }

  /**
   * After the last bar, the trading bars are the bars screened as trades,
   * every trade from position n0 on has the kind its bar's decision had, and
   * the executed entries pair up with those trades by bar, kind and size.
   */
  lemma PairedKinds(results: seq<BarResult>, tradeBars: seq<nat>, ts: seq<SimTrade>, n0: nat, ss: seq<Screening>, bars: seq<Bar>)
    requires |ss| == |bars| && Paired(results, tradeBars, ts, n0, ss, |bars|)
    requires DescribesBars(results, ss, bars, |bars|)
    ensures tradeBars == TradeBars(ss)
    ensures forall k :: 0 <= k < |tradeBars| ==>
      tradeBars[k] < |ss| && ss[tradeBars[k]].Trade? && ts[n0 + k].actionType == ss[tradeBars[k]].decision.action.actionType
    ensures var es := ExecutedOf(results);
      && |es| == |tradeBars|
      && forall k :: 0 <= k < |tradeBars| ==>
           es[k].bar == tradeBars[k] && es[k].actionType == ts[n0 + k].actionType && es[k].size == ts[n0 + k].size
  {
    assert ss[..|bars|] == ss;
    forall k | 0 <= k < |tradeBars|
      ensures tradeBars[k] < |ss| && ss[tradeBars[k]].Trade? && ts[n0 + k].actionType == ss[tradeBars[k]].decision.action.actionType
    {
      var e := ExecutedOf(results)[k];
      assert e in results;
      var j :| 0 <= j < |results| && results[j] == e;
    }
  }

  /** After the last bar, the bookkeeping says what the replay's contract states. */
  lemma ProgressMeaning(results: seq<BarResult>, tradeBars: seq<nat>, ts: seq<SimTrade>, n0: nat,
                        ss: seq<Screening>, prices: seq<real>, bars: seq<Bar>)
    requires |ss| == |bars| && prices == BarPrices(bars)
    requires Progress(results, tradeBars, ts, n0, ss, prices, bars, |bars|)
    ensures BarsOf(results) == Reported(ss) && DescribesBars(results, ss, bars, |bars|)
    ensures Paired(results, tradeBars, ts, n0, ss, |bars|) ==> tradeBars == TradeBars(ss)
    ensures forall k :: 0 <= k < |results| ==>
      results[k].bar < |bars| && Describes(results[k], ss[results[k].bar], MarketStateFromBar(bars[results[k].bar]))
    ensures |ts| == n0 + |tradeBars|
    ensures forall k :: 0 <= k < |tradeBars| ==> tradeBars[k] < |bars| && ss[tradeBars[k]].Trade?
    ensures TradesExited(ts, n0, tradeBars, bars)
    ensures forall k :: 0 <= k < |tradeBars| && tradeBars[k] + 1 >= |bars| ==> !ts[n0 + k].isClosed
  {
    assert ss[..|bars|] == ss;
  }

  /**
   * Closing every open position leaves a trade that is not a buy as it
   * was: only buys are open.
   */
  lemma CloseAllKeepsNonBuys(ts: seq<SimTrade>, open: seq<nat>, closed: seq<nat>, price: real, feePct: real, j: nat)
    requires WellFormed(ts, open, closed) && j < |ts| && ts[j].actionType != Buy
    ensures ExitAll(ts, open, price, feePct)[j] == ts[j]
  {
    ExitAllKeepsShape(ts, open, price, feePct);
  }

  /** The trades from position n0 on that have a next bar were exited at that bar's price. */
  predicate TradesExited(ts: seq<SimTrade>, n0: nat, tradeBars: seq<nat>, bars: seq<Bar>)
  {
    && |ts| == n0 + |tradeBars|
    && forall k :: 0 <= k < |tradeBars| && tradeBars[k] + 1 < |bars| ==>
         ts[n0 + k].isClosed && ts[n0 + k].exitPrice == Some(BarPrice(bars[tradeBars[k] + 1]))
  }

  /** A change that leaves every exited trade alone keeps the trades' recorded exits. */
  lemma TradesExitedKept(ts: seq<SimTrade>, ts': seq<SimTrade>, n0: nat, tradeBars: seq<nat>, bars: seq<Bar>)
    requires TradesExited(ts, n0, tradeBars, bars)
    requires |ts'| == |ts| && forall j :: 0 <= j < |ts| && ts[j].isClosed ==> ts'[j] == ts[j]
    ensures TradesExited(ts', n0, tradeBars, bars)
  {
  }

  /**
   * What a replay of `bars`, screened as `ss`, leaves behind: one result per
   * non-hold bar, in bar order, each describing its bar's screening and
   * snapshot; the trades from position n0 on were opened exactly at the
   * bars screened as trades, in order, each of its bar's decision kind, and
   * they pair up with the executed entries by bar, kind and size; each was
   * exited at the next bar's price when there is one, and a non-buy trade
   * of the last bar is still open.
   */
  predicate Replayed(results: seq<BarResult>, tradeBars: seq<nat>, ts: seq<SimTrade>, n0: nat, ss: seq<Screening>, bars: seq<Bar>)
    requires |ss| == |bars|
  {
    && BarsOf(results) == Reported(ss)
    && (forall k :: 0 <= k < |results| ==>
          results[k].bar < |bars| && Describes(results[k], ss[results[k].bar], MarketStateFromBar(bars[results[k].bar])))
    && tradeBars == TradeBars(ss)
    && |ts| == n0 + |tradeBars|
    && (forall k :: 0 <= k < |tradeBars| ==>
          tradeBars[k] < |ss| && ss[tradeBars[k]].Trade? && ts[n0 + k].actionType == ss[tradeBars[k]].decision.action.actionType)
    && |ExecutedOf(results)| == |tradeBars|
    && (forall k :: 0 <= k < |tradeBars| ==>
          && ExecutedOf(results)[k].bar == tradeBars[k]
          && ExecutedOf(results)[k].actionType == ts[n0 + k].actionType
          && ExecutedOf(results)[k].size == ts[n0 + k].size)
    && TradesExited(ts, n0, tradeBars, bars)
    && (forall k :: 0 <= k < |tradeBars| && tradeBars[k] + 1 == |bars| && ts[n0 + k].actionType != Buy ==> !ts[n0 + k].isClosed)
  }

  /** The replay's bookkeeping after the last bar and the close-out is a replay's outcome. */
  lemma ReplayedFrom(results: seq<BarResult>, tradeBars: seq<nat>, ts: seq<SimTrade>, n0: nat, ss: seq<Screening>, bars: seq<Bar>)
    requires |ss| == |bars|
    requires BarsOf(results) == Reported(ss) && DescribesBars(results, ss, bars, |bars|)
    requires Paired(results, tradeBars, ts, n0, ss, |bars|)
    requires TradesExited(ts, n0, tradeBars, bars)
    requires forall k :: 0 <= k < |tradeBars| && tradeBars[k] + 1 == |bars| && ts[n0 + k].actionType != Buy ==> !ts[n0 + k].isClosed
    ensures Replayed(results, tradeBars, ts, n0, ss, bars)
  {
    PairedKinds(results, tradeBars, ts, n0, ss, bars);
  }

  /**
   * The trader's ledger is the given one after opening `t` and, when there is
   * a next price, exiting it there: with an exit, the trade is recorded
   * exited, its entry fee paid and its P&L realised, it is closed and no
   * position stays open; without one, the trade is merely opened.
   */
  ghost predicate OpenedAndExited(p: PaperTrader, trades0: seq<SimTrade>, balance0: real, open0: seq<nat>, closed0: seq<nat>,
                                  t: SimTrade, nextPrice: Option<real>)
    reads p
  {
    if nextPrice.Some? then
      var e := Exited(t, nextPrice.value, p.feePct);
      && p.trades == trades0 + [e]
      && p.balance == balance0 - t.feesPaid + e.pnl
      && p.openPositions == open0
      && p.closedTrades == closed0 + [|trades0|]
    else
      p.OpenedFrom(trades0, balance0, open0, closed0, t)
  }

  datatype BacktestReport = BacktestReport(
    numBars: nat,
    minConfidence: real,
    results: seq<BarResult>,
    summary: Option<Summary>)

  class Backtest {
    const gate: LogicGate
    const ensemble: HyperEnsemble
    const leverage: LeverageConfig
    const trader: PaperTrader
    const minConfidence: real

    /** A replay over the given pipeline (the default threshold is 0.75). */
    constructor(gate: LogicGate, ensemble: HyperEnsemble, leverage: LeverageConfig, trader: PaperTrader, minConfidence: real)
      ensures this.gate == gate && this.ensemble == ensemble && this.leverage == leverage
      ensures this.trader == trader && this.minConfidence == minConfidence
    {
      this.gate := gate;
      this.ensemble := ensemble;
      this.leverage := leverage;
      this.trader := trader;
      this.minConfidence := minConfidence;
    }

    /**
     * Replays the bars. Each bar is screened; a blocked or low-confidence bar
     * is recorded as such; a hold is skipped; a trade is sized against the
     * trader's balance, executed, and exited at the next bar's price when
     * there is one. After the last bar, the remaining positions are closed
     * at its price, and the report carries the trader's summary.
     */
    method RunBacktest(bars: seq<Bar>, outcomes: seq<seq<EngineResult>>, draws: seq<real>)
      returns (report: BacktestReport, ghost tradeBars: seq<nat>)
      requires Replayables(gate, ensemble.engines, bars, outcomes) && |draws| == |bars|
      requires LiquidWhereTraded(Screens(gate, ensemble.engines, minConfidence, bars, outcomes), bars)
      requires trader.Valid()
      modifies trader
      ensures report.numBars == |bars| && report.minConfidence == minConfidence
      ensures trader.Valid() && (old(trader.Ledgered()) ==> trader.Ledgered())
      ensures |bars| > 0 ==> trader.openPositions == []
      ensures Replayed(report.results, tradeBars, trader.trades, |old(trader.trades)|,
                       Screens(gate, ensemble.engines, minConfidence, bars, outcomes), bars)
      ensures report.summary == trader.GetSummary()
    {
      ghost var n0 := |trader.trades|;
      ghost var ss := Screens(gate, ensemble.engines, minConfidence, bars, outcomes);
      var results;
      results, tradeBars := ReplayBars(bars, outcomes, draws);
      ProgressMeaning(results, tradeBars, trader.trades, n0, ss, BarPrices(bars), bars);
      CloseOut(bars, results, tradeBars, n0, ss);
      ReplayedFrom(results, tradeBars, trader.trades, n0, ss, bars);
      report := BacktestReport(|bars|, minConfidence, results, trader.GetSummary());
    }

    /**
     * After the last bar, closes the remaining positions at its price. The
     * exits, the pairing of entries with trades, and the open non-buy trades
     * of the last bar are kept.
     */
    method CloseOut(bars: seq<Bar>, ghost results: seq<BarResult>, ghost tradeBars: seq<nat>, ghost n0: nat, ghost ss: seq<Screening>)
      requires |ss| == |bars| && trader.Valid()
      requires Paired(results, tradeBars, trader.trades, n0, ss, |bars|)
      requires TradesExited(trader.trades, n0, tradeBars, bars)
      requires forall k :: 0 <= k < |tradeBars| && tradeBars[k] + 1 >= |bars| ==> !trader.trades[n0 + k].isClosed
      modifies trader
      ensures trader.Valid() && (old(trader.Ledgered()) ==> trader.Ledgered())
      ensures |bars| > 0 ==> trader.openPositions == []
      ensures Paired(results, tradeBars, trader.trades, n0, ss, |bars|)
      ensures TradesExited(trader.trades, n0, tradeBars, bars)
      ensures forall k :: 0 <= k < |tradeBars| && tradeBars[k] + 1 == |bars| && trader.trades[n0 + k].actionType != Buy ==>
        !trader.trades[n0 + k].isClosed
    {
      if |bars| > 0 {
        var finalState := MarketStateFromBar(bars[|bars| - 1]);
        ghost var before := trader.trades;
        ghost var open := trader.openPositions;
        ghost var closed0 := trader.closedTrades;
        ExitAllKeepsExited(trader.trades, trader.openPositions, trader.closedTrades, finalState.price, trader.feePct);
        ExitAllKeepsShape(trader.trades, trader.openPositions, finalState.price, trader.feePct);
        var closed := trader.CloseAllPositions(finalState);
        TradesExitedKept(before, trader.trades, n0, tradeBars, bars);
        PairedKept(results, tradeBars, before, trader.trades, n0, ss, |bars|);
        forall k | 0 <= k < |tradeBars| && tradeBars[k] + 1 == |bars| && trader.trades[n0 + k].actionType != Buy
          ensures !trader.trades[n0 + k].isClosed
        {
          CloseAllKeepsNonBuys(before, open, closed0, finalState.price, trader.feePct, n0 + k);
        }
      }
    }

    /** The loop over the bars, without the final close-out. */
    method ReplayBars(bars: seq<Bar>, outcomes: seq<seq<EngineResult>>, draws: seq<real>)
      returns (results: seq<BarResult>, ghost tradeBars: seq<nat>)
      requires Replayables(gate, ensemble.engines, bars, outcomes) && |draws| == |bars|
      requires LiquidWhereTraded(Screens(gate, ensemble.engines, minConfidence, bars, outcomes), bars)
      requires trader.Valid()
      modifies trader
      ensures trader.Valid() && (old(trader.Ledgered()) ==> trader.Ledgered())
      ensures Progress(results, tradeBars, trader.trades, |old(trader.trades)|,
                       Screens(gate, ensemble.engines, minConfidence, bars, outcomes), BarPrices(bars), bars, |bars|)
      ensures Paired(results, tradeBars, trader.trades, |old(trader.trades)|,
                     Screens(gate, ensemble.engines, minConfidence, bars, outcomes), |bars|)
    {
      ghost var n0 := |trader.trades|;
      ghost var ledgered := trader.Ledgered();
      ghost var ss := Screens(gate, ensemble.engines, minConfidence, bars, outcomes);
      ghost var prices := BarPrices(bars);
      results := [];
      tradeBars := [];
      for i: nat := 0 to |bars|
        invariant trader.Valid() && (ledgered ==> trader.Ledgered())
        invariant Progress(results, tradeBars, trader.trades, n0, ss, prices, bars, i)
        invariant Paired(results, tradeBars, trader.trades, n0, ss, i)
      {
        results, tradeBars := AdvanceBar(bars, outcomes, draws, i, results, tradeBars, n0, ss, prices);
      }
    }

    /** The loop body: replays bar i and extends the bookkeeping to the first i + 1 bars. */
    method AdvanceBar(bars: seq<Bar>, outcomes: seq<seq<EngineResult>>, draws: seq<real>, i: nat,
                      results: seq<BarResult>, ghost tradeBars: seq<nat>, ghost n0: nat, ghost ss: seq<Screening>, ghost prices: seq<real>)
      returns (results': seq<BarResult>, ghost tradeBars': seq<nat>)
      requires Replayables(gate, ensemble.engines, bars, outcomes) && |draws| == |bars| && i < |bars|
      requires ss == Screens(gate, ensemble.engines, minConfidence, bars, outcomes) && prices == BarPrices(bars)
      requires LiquidWhereTraded(ss, bars)
      requires trader.Valid()
      requires Progress(results, tradeBars, trader.trades, n0, ss, prices, bars, i)
      requires Paired(results, tradeBars, trader.trades, n0, ss, i)
      modifies trader
      ensures trader.Valid() && (old(trader.Ledgered()) ==> trader.Ledgered())
      ensures Progress(results', tradeBars', trader.trades, n0, ss, prices, bars, i + 1)
      ensures Paired(results', tradeBars', trader.trades, n0, ss, i + 1)
    {
      ghost var before := trader.trades;
      ScreensAt(gate, ensemble.engines, minConfidence, bars, outcomes, i);
      var nextPrice := if i + 1 < |bars| then Some(MarketStateFromBar(bars[i + 1]).price) else None;
      var result, traded := ReplayBar(i, bars[i], outcomes[i], draws[i], nextPrice, ss[i]);
      ProgressStep(results, tradeBars, before, trader.trades, n0, ss, prices, bars, i, result, traded, nextPrice);
      PairedStep(results, tradeBars, before, trader.trades, n0, ss, i, result, traded);
      tradeBars' := tradeBars + (if traded then [i] else []);
      results' := results + (if result.Some? then [result.value] else []);
    }

    /**
     * One bar of the replay, given the next bar's price if there is one: the
     * bar's result entry, if any, and whether a trade was opened.
     */
    method ReplayBar(i: nat, bar: Bar, outcome: seq<EngineResult>, draw: real, nextPrice: Option<real>, ghost s: Screening)
      returns (result: Option<BarResult>, traded: bool)
      requires Replayable(bar) && |outcome| == |ensemble.engines|
      requires s == Screen(gate, ensemble.engines, minConfidence, bar, outcome)
      requires s.Trade? ==> MarketStateFromBar(bar).liquidityScore != 0.0
      requires trader.Valid()
      modifies trader
      ensures trader.Valid() && (old(trader.Ledgered()) ==> trader.Ledgered())
      ensures result.None? <==> s.HoldSized?
      ensures result.Some? ==> result.value.bar == i && Describes(result.value, s, MarketStateFromBar(bar))
      ensures traded <==> s.Trade?
      ensures |trader.trades| == |old(trader.trades)| + (if traded then 1 else 0)
      ensures old(trader.trades) <= trader.trades
      ensures traded && nextPrice.Some? ==>
        trader.trades[|old(trader.trades)|].isClosed
        && trader.trades[|old(trader.trades)|].exitPrice == nextPrice
      ensures traded && nextPrice.None? ==> !trader.trades[|old(trader.trades)|].isClosed
      ensures !traded ==> unchanged(trader)
      ensures traded ==>
        var m := MarketStateFromBar(bar);
        var sized := SizePosition(leverage, s.decision.action, m, Some(old(trader.balance)));
        var t := trader.Opening(sized, m, draw);
        && result == Some(Executed(i, sized.actionType, m.price, sized.size))
        && t.actionType == trader.trades[|old(trader.trades)|].actionType
        && t.size == trader.trades[|old(trader.trades)|].size
        && OpenedAndExited(trader, old(trader.trades), old(trader.balance), old(trader.openPositions), old(trader.closedTrades), t, nextPrice)
    {
      var m := MarketStateFromBar(bar);
      var filter := Check(gate, m, ProbeAction);
      if !filter.allowed {
        return Some(BlockedBar(i, m.price)), false;
      }
      var decision := ensemble.RunAndAssert(outcome, minConfidence);
      if decision.None? {
        return Some(LowConfidenceBar(i, m.price)), false;
      }
      var sized := SizePosition(leverage, decision.value.action, m, Some(trader.balance));
      if sized.actionType == Hold {
        return None, false;
      }
      OpenAndExit(sized, m, draw, nextPrice);
      result, traded := Some(Executed(i, sized.actionType, m.price, sized.size)), true;
    }

    /** Executes the sized action and, when there is a next price, exits the new trade at it. */
    method OpenAndExit(sized: Action, m: MarketState, draw: real, nextPrice: Option<real>)
      requires trader.Valid() && m.liquidityScore != 0.0
      modifies trader
      ensures trader.Valid() && (old(trader.Ledgered()) ==> trader.Ledgered())
      ensures OpenedAndExited(trader, old(trader.trades), old(trader.balance), old(trader.openPositions), old(trader.closedTrades),
                              trader.Opening(sized, m, draw), nextPrice)
      ensures |trader.trades| == |old(trader.trades)| + 1 && old(trader.trades) <= trader.trades
      ensures trader.trades[|old(trader.trades)|].actionType == sized.actionType
      ensures trader.trades[|old(trader.trades)|].size == sized.size
      ensures trader.trades[|old(trader.trades)|].isClosed <==> nextPrice.Some?
      ensures nextPrice.Some? ==> trader.trades[|old(trader.trades)|].exitPrice == nextPrice
    {
      ghost var open0 := trader.openPositions;
      var trade, id := trader.SimulateExecution(sized, m, draw);
      if nextPrice.Some? {
        assert id !in open0;
        if sized.actionType == Buy {
          RemoveFirstAppended(open0, id);
        }
        var exited := trader.RecordExit(id, nextPrice.value);
        assert trader.trades == (old(trader.trades) + [trade])[id := exited];
      }
    }
  }
}
