// The paper trader: simulated execution with a fee and slippage model, and a
// ledger made of a balance and three trade lists. Trades are identified by
// their position in the list of all trades; the open and closed lists hold
// those positions, so that an exit updates the one record all lists share.

module Paper {
  import opened Types

  /** A simulated trade; the exit fields are filled in when it is exited. */
  datatype SimTrade = SimTrade(
    actionType: ActionType,
    entryPrice: real,
    size: real,
    leverage: real,
    feesPaid: real,
    slippagePct: real,
    exitPrice: Option<real>,
    exitFees: real,
    pnl: real,
    pnlPct: real,
    isClosed: bool,
    confidence: real,
    liquidityScore: real)

  /**
   * The slippage percentage of an order: the base slippage, scaled by the
   * size relative to 1000 (at most 1), divided by the liquidity score, and
   * multiplied by the random draw.
   */
  function SlippagePct(baseSlippagePct: real, size: real, liquidityScore: real, draw: real): real
    requires liquidityScore != 0.0
  {
    baseSlippagePct * Min(size / 1000.0, 1.0) * (1.0 / liquidityScore) * draw
  }

  /**
   * Slippage is non-negative, and never more than the base slippage times
   * the draw over the liquidity: the size factor is capped at 1.
   */
  lemma SlippageBounds(baseSlippagePct: real, size: real, liquidityScore: real, draw: real)
    requires baseSlippagePct >= 0.0 && size >= 0.0 && liquidityScore > 0.0 && draw >= 0.0
    ensures 0.0 <= SlippagePct(baseSlippagePct, size, liquidityScore, draw)
    ensures SlippagePct(baseSlippagePct, size, liquidityScore, draw) <= baseSlippagePct * (1.0 / liquidityScore) * draw
  {
    var factor := Min(size / 1000.0, 1.0);
    var inverse := 1.0 / liquidityScore;
    assert 0.0 <= factor <= 1.0;
    MultiplyMonotone(factor, 1.0, baseSlippagePct);
    assert factor * baseSlippagePct == baseSlippagePct * factor;
    MultiplyMonotone(0.0, baseSlippagePct * factor, inverse);
    MultiplyMonotone(baseSlippagePct * factor, baseSlippagePct, inverse);
    MultiplyMonotone(0.0, baseSlippagePct * factor * inverse, draw);
    MultiplyMonotone(baseSlippagePct * factor * inverse, baseSlippagePct * inverse, draw);
  }

  /** The fill price: a buy pays the slippage above the market price, anything else receives it below. */
  function EntryPrice(t: ActionType, price: real, slippagePct: real): real
  {
    if t == Buy then price * (1.0 + slippagePct / 100.0) else price * (1.0 - slippagePct / 100.0)
  }

  /** With non-negative slippage, a buy fills at or above the market price and any other kind at or below it. */
  lemma EntryPriceSide(t: ActionType, price: real, slippagePct: real)
    requires price >= 0.0 && slippagePct >= 0.0
    ensures t == Buy ==> EntryPrice(t, price, slippagePct) >= price
    ensures t != Buy ==> EntryPrice(t, price, slippagePct) <= price
  {
    MultiplyMonotone(0.0, slippagePct / 100.0, price);
    assert price * (1.0 + slippagePct / 100.0) == price + slippagePct / 100.0 * price;
    assert price * (1.0 - slippagePct / 100.0) == price - slippagePct / 100.0 * price;
  }

  /** The fee on a position: its value times the fee percentage. */
  function Fee(size: real, price: real, feePct: real): real
  {
    size * price * (feePct / 100.0)
  }

  /** The record of a newly executed action, before any exit. */
  function OpenTrade(action: Action, m: MarketState, slippagePct: real, feePct: real): (t: SimTrade)
    ensures t.actionType == action.actionType && t.size == action.size && t.leverage == action.leverage
    ensures t.entryPrice == EntryPrice(action.actionType, m.price, slippagePct)
    ensures t.feesPaid == Fee(action.size, t.entryPrice, feePct)
    ensures !t.isClosed && t.exitPrice.None? && t.exitFees == 0.0 && t.pnl == 0.0
  {
    var entry := EntryPrice(action.actionType, m.price, slippagePct);
    SimTrade(action.actionType, entry, action.size, action.leverage, Fee(action.size, entry, feePct),
      slippagePct, None, 0.0, 0.0, 0.0, false, action.confidence, m.liquidityScore)
  }

  /**
   * The record of a trade exited at a price: the exit fee on the exit value,
   * and the leveraged change in value less the exit fee as P&L, also as a
   * percentage of the entry value (0 when that is not positive).
   */
  function Exited(t: SimTrade, exitPrice: real, feePct: real): (e: SimTrade)
    ensures e.actionType == t.actionType && e.entryPrice == t.entryPrice && e.size == t.size
    ensures e.leverage == t.leverage && e.feesPaid == t.feesPaid && e.slippagePct == t.slippagePct
    ensures e.confidence == t.confidence && e.liquidityScore == t.liquidityScore
    ensures e.isClosed && e.exitPrice == Some(exitPrice) && e.exitFees == Fee(t.size, exitPrice, feePct)
  {
    var exitValue := t.size * exitPrice;
    var exitFees := exitValue * (feePct / 100.0);
    var entryValue := t.size * t.entryPrice;
    var pnl := (exitValue - entryValue) * t.leverage - exitFees;
    t.(exitPrice := Some(exitPrice), exitFees := exitFees, pnl := pnl,
       pnlPct := if entryValue > 0.0 then pnl / entryValue * 100.0 else 0.0, isClosed := true)
  }

  /** Exiting at the entry price loses exactly the exit fee. */
  lemma ExitAtEntry(t: SimTrade, feePct: real)
    ensures Exited(t, t.entryPrice, feePct).pnl == -Exited(t, t.entryPrice, feePct).exitFees
  {
  }

  /**
   * With non-negative size, leverage, fee and exit price, a trade can only
   * make a profit if it is exited above its entry price; and its percentage
   * P&L has the sign of its P&L.
   */
  lemma ProfitNeedsRise(t: SimTrade, exitPrice: real, feePct: real)
    requires t.size >= 0.0 && t.leverage >= 0.0 && feePct >= 0.0 && exitPrice >= 0.0
    ensures Exited(t, exitPrice, feePct).pnl > 0.0 ==> exitPrice > t.entryPrice
    ensures (Exited(t, exitPrice, feePct).pnlPct > 0.0) == (t.size * t.entryPrice > 0.0 && Exited(t, exitPrice, feePct).pnl > 0.0)
  {
    var e := Exited(t, exitPrice, feePct);
    var exitValue := t.size * exitPrice;
    var entryValue := t.size * t.entryPrice;
    MultiplyMonotone(0.0, exitValue, feePct / 100.0);
    if exitPrice <= t.entryPrice {
      MultiplyMonotone(exitPrice, t.entryPrice, t.size);
      assert exitPrice * t.size == exitValue && t.entryPrice * t.size == entryValue;
      MultiplyMonotone(exitValue - entryValue, 0.0, t.leverage);
    }
    if entryValue > 0.0 {
      PositiveQuotient(e.pnl, entryValue);
    }
  }

  lemma PositiveQuotient(a: real, d: real)
    requires d > 0.0
    ensures (a / d * 100.0 > 0.0) == (a > 0.0)
  {
  }

  /** Every element of the list is different. */
  predicate DistinctIds(s: seq<nat>)
  {
    forall i, j :: 0 <= i < j < |s| ==> s[i] != s[j]
  }

  /** Python's list.remove, tolerating absence: drops the first occurrence of `x`, if any. */
  function RemoveFirst(s: seq<nat>, x: nat): (r: seq<nat>)
    ensures x !in s ==> r == s
    ensures x in s ==> |r| == |s| - 1
    ensures forall y :: y in r ==> y in s
    ensures forall y :: y in s && y != x ==> y in r
  {
    if s == [] then []
    else if s[0] == x then s[1..]
    else [s[0]] + RemoveFirst(s[1..], x)
  }

  /** Removing an element just appended, and absent before, gives back the list. */
  lemma {:induction false} RemoveFirstAppended(s: seq<nat>, x: nat)
    requires x !in s
    ensures RemoveFirst(s + [x], x) == s
  {
    if s != [] {
      assert (s + [x])[0] == s[0] && (s + [x])[1..] == s[1..] + [x];
      RemoveFirstAppended(s[1..], x);
    }
  }

  /** Removing from a list without repetitions leaves none, and removes every occurrence. */
  lemma {:induction false} RemoveFirstDistinct(s: seq<nat>, x: nat)
    requires DistinctIds(s)
    ensures DistinctIds(RemoveFirst(s, x)) && x !in RemoveFirst(s, x)
    decreases |s|
  {
    if s != [] {
      assert DistinctIds(s[1..]);
      if s[0] == x {
        assert x !in s[1..];
      } else {
        RemoveFirstDistinct(s[1..], x);
        assert s[0] !in s[1..];
      }
    }
  }

  /** A list whose elements all occur in a list of identifiers below `n` is below `n` too. */
  lemma InRangeSubset(r: seq<nat>, s: seq<nat>, n: nat)
    requires InRange(s, n) && forall y :: y in r ==> y in s
    ensures InRange(r, n)
  {
    forall k | 0 <= k < |r| ensures r[k] < n {
      assert r[k] in s;
    }
  }

  /** The entry fees of all trades. */
  function TotalFees(ts: seq<SimTrade>): real
  {
    if ts == [] then 0.0 else TotalFees(ts[..|ts| - 1]) + ts[|ts| - 1].feesPaid
  }

  predicate InRange(ids: seq<nat>, n: nat)
  {
    forall k :: 0 <= k < |ids| ==> ids[k] < n
  }

  /** The realised P&L of the trades named by `ids`. */
  function ClosedPnl(ts: seq<SimTrade>, ids: seq<nat>): real
    requires InRange(ids, |ts|)
  {
    if ids == [] then 0.0 else ClosedPnl(ts, ids[..|ids| - 1]) + ts[ids[|ids| - 1]].pnl
  }

  /** Entry plus exit fees of the trades named by `ids`. */
  function ClosedFees(ts: seq<SimTrade>, ids: seq<nat>): real
    requires InRange(ids, |ts|)
  {
    if ids == [] then 0.0
    else ClosedFees(ts, ids[..|ids| - 1]) + (ts[ids[|ids| - 1]].feesPaid + ts[ids[|ids| - 1]].exitFees)
  }

  /** How many of the named trades made a profit. */
  function Wins(ts: seq<SimTrade>, ids: seq<nat>): (w: nat)
    requires InRange(ids, |ts|)
    ensures w <= |ids|
  {
    if ids == [] then 0
    else Wins(ts, ids[..|ids| - 1]) + (if ts[ids[|ids| - 1]].pnl > 0.0 then 1 else 0)
  }

  /** How many of the named trades did not make a profit: the rest of them. */
  function Losses(ts: seq<SimTrade>, ids: seq<nat>): (l: nat)
    requires InRange(ids, |ts|)
    ensures l == |ids| - Wins(ts, ids)
  {
    if ids == [] then 0
    else Losses(ts, ids[..|ids| - 1]) + (if ts[ids[|ids| - 1]].pnl <= 0.0 then 1 else 0)
  }

  /** The P&L of the winning trades: positive exactly when there is a winner. */
  function WinPnl(ts: seq<SimTrade>, ids: seq<nat>): (s: real)
    requires InRange(ids, |ts|)
    ensures s >= 0.0 && (s > 0.0 <==> Wins(ts, ids) > 0)
  {
    if ids == [] then 0.0
    else WinPnl(ts, ids[..|ids| - 1]) + (if ts[ids[|ids| - 1]].pnl > 0.0 then ts[ids[|ids| - 1]].pnl else 0.0)
  }

  /** The P&L of the losing trades: never positive. */
  function LossPnl(ts: seq<SimTrade>, ids: seq<nat>): (s: real)
    requires InRange(ids, |ts|)
    ensures s <= 0.0
  {
    if ids == [] then 0.0
    else LossPnl(ts, ids[..|ids| - 1]) + (if ts[ids[|ids| - 1]].pnl <= 0.0 then ts[ids[|ids| - 1]].pnl else 0.0)
  }

  /** Winners and losers split the realised P&L. */
  lemma {:induction false} PnlPartition(ts: seq<SimTrade>, ids: seq<nat>)
    requires InRange(ids, |ts|)
    ensures ClosedPnl(ts, ids) == WinPnl(ts, ids) + LossPnl(ts, ids)
    decreases |ids|
  {
    if ids != [] {
      PnlPartition(ts, ids[..|ids| - 1]);
    }
  }

  /** The realised P&L only depends on the P&L of the named trades. */
  lemma {:induction false} ClosedPnlFrame(ts: seq<SimTrade>, us: seq<SimTrade>, ids: seq<nat>)
    requires InRange(ids, |ts|) && InRange(ids, |us|)
    requires forall k :: 0 <= k < |ids| ==> ts[ids[k]].pnl == us[ids[k]].pnl
    ensures ClosedPnl(ts, ids) == ClosedPnl(us, ids)
    decreases |ids|
  {
    if ids != [] {
      ClosedPnlFrame(ts, us, ids[..|ids| - 1]);
    }
  }

  /** The entry fees only depend on each trade's fee. */
  lemma {:induction false} TotalFeesFrame(ts: seq<SimTrade>, us: seq<SimTrade>)
    requires |ts| == |us|
    requires forall j :: 0 <= j < |ts| ==> ts[j].feesPaid == us[j].feesPaid
    ensures TotalFees(ts) == TotalFees(us)
    decreases |ts|
  {
    if ts != [] {
      TotalFeesFrame(ts[..|ts| - 1], us[..|us| - 1]);
    }
  }

  /** The performance summary; `openPositions` is only reported once a trade has closed. */
  datatype Summary = Summary(
    totalTrades: nat,
    winningTrades: nat,
    losingTrades: nat,
    winRate: real,
    totalPnl: real,
    totalPnlPct: real,
    avgPnl: real,
    avgWin: real,
    avgLoss: real,
    totalFees: real,
    currentBalance: real,
    returnPct: real,
    openPositions: Option<nat>)

  /**
   * The shape every operation keeps: the lists name existing trades; open
   * positions are distinct, unexited buys; a trade is marked closed exactly
   * when it is in the closed list.
   */
  predicate WellFormed(ts: seq<SimTrade>, open: seq<nat>, closed: seq<nat>)
  {
    && InRange(open, |ts|)
    && InRange(closed, |ts|)
    && DistinctIds(open)
    && (forall k :: 0 <= k < |open| ==> !ts[open[k]].isClosed && ts[open[k]].actionType == Buy)
    && (forall j :: 0 <= j < |ts| ==> (ts[j].isClosed <==> j in closed))
  }

  /**
   * The ledger balances: no trade was exited twice, and the balance is the
   * initial one, less every entry fee, plus the realised P&L.
   */
  predicate Balanced(initial: real, balance: real, ts: seq<SimTrade>, closed: seq<nat>)
  {
    && InRange(closed, |ts|)
    && DistinctIds(closed)
    && balance == initial - TotalFees(ts) + ClosedPnl(ts, closed)
  }

  /** Recording a new, unexited trade (opened as a position only if it is a buy) keeps the shape and the balance. */
  lemma OpenKeepsLedger(ts: seq<SimTrade>, open: seq<nat>, closed: seq<nat>, t: SimTrade, opens: bool,
                        initial: real, balance: real)
    requires WellFormed(ts, open, closed) && !t.isClosed && (opens ==> t.actionType == Buy)
    ensures WellFormed(ts + [t], open + (if opens then [|ts|] else []), closed)
    ensures Balanced(initial, balance, ts, closed) ==> Balanced(initial, balance - t.feesPaid, ts + [t], closed)
  {
    var us := ts + [t];
    assert us[..|us| - 1] == ts;
    if Balanced(initial, balance, ts, closed) {
      ClosedPnlFrame(ts, us, closed);
    }
  }

  /**
   * Exiting a trade keeps the shape; it keeps the balance, credited with the
   * trade's P&L, when the trade had not been exited before.
   */
  lemma ExitKeepsLedger(ts: seq<SimTrade>, open: seq<nat>, closed: seq<nat>, id: nat, exitPrice: real, feePct: real,
                        initial: real, balance: real)
    requires WellFormed(ts, open, closed) && id < |ts|
    ensures var us := ts[id := Exited(ts[id], exitPrice, feePct)];
      WellFormed(us, RemoveFirst(open, id), closed + [id])
    ensures var e := Exited(ts[id], exitPrice, feePct);
      Balanced(initial, balance, ts, closed) && !ts[id].isClosed ==>
      Balanced(initial, balance + e.pnl, ts[id := e], closed + [id])
  {
    var e := Exited(ts[id], exitPrice, feePct);
    var us := ts[id := e];
    var rest := RemoveFirst(open, id);
    InRangeSubset(rest, open, |us|);
    RemoveFirstDistinct(open, id);
    forall k | 0 <= k < |rest| ensures !us[rest[k]].isClosed && us[rest[k]].actionType == Buy {
      assert rest[k] in open;
    }
    TotalFeesFrame(ts, us);
    if Balanced(initial, balance, ts, closed) && !ts[id].isClosed {
      ClosedPnlFrame(ts, us, closed);
      assert (closed + [id])[..|closed|] == closed;
    }
  }

  /** The trades after exiting, at one price, each trade named in `ids`. */
  function ExitAll(ts: seq<SimTrade>, ids: seq<nat>, price: real, feePct: real): (us: seq<SimTrade>)
    ensures |us| == |ts|
  {
    seq(|ts|, j requires 0 <= j < |ts| => if j in ids then Exited(ts[j], price, feePct) else ts[j])
  }

  /** Exiting one more trade, not yet named, extends the exited set by it. */
  lemma ExitAllStep(ts: seq<SimTrade>, ids: seq<nat>, id: nat, price: real, feePct: real)
    requires id < |ts| && id !in ids
    ensures ExitAll(ts, ids, price, feePct)[id] == ts[id]
    ensures var us := ExitAll(ts, ids, price, feePct);
      us[id := Exited(us[id], price, feePct)] == ExitAll(ts, ids + [id], price, feePct)
  {
  }

  /** Exactly the named trades are exited; the others are untouched. */
  lemma ExitAllSpec(ts: seq<SimTrade>, ids: seq<nat>, price: real, feePct: real)
    ensures forall j :: 0 <= j < |ts| ==>
      ExitAll(ts, ids, price, feePct)[j] == if j in ids then Exited(ts[j], price, feePct) else ts[j]
  {
  }

  /** Closing every open position leaves the already exited trades as they were. */
  lemma ExitAllKeepsExited(ts: seq<SimTrade>, open: seq<nat>, closed: seq<nat>, price: real, feePct: real)
    requires WellFormed(ts, open, closed)
    ensures forall j :: 0 <= j < |ts| && ts[j].isClosed ==> ExitAll(ts, open, price, feePct)[j] == ts[j]
  {
    ExitAllSpec(ts, open, price, feePct);
  }

  /** Exiting keeps every trade's kind and size. */
  lemma ExitAllKeepsShape(ts: seq<SimTrade>, ids: seq<nat>, price: real, feePct: real)
    ensures forall j :: 0 <= j < |ts| ==>
      ExitAll(ts, ids, price, feePct)[j].actionType == ts[j].actionType && ExitAll(ts, ids, price, feePct)[j].size == ts[j].size
    ensures forall j :: 0 <= j < |ts| && j !in ids ==> ExitAll(ts, ids, price, feePct)[j] == ts[j]
  {
    ExitAllSpec(ts, ids, price, feePct);
  }

  lemma ExitAllNone(ts: seq<SimTrade>, price: real, feePct: real)
    ensures ExitAll(ts, [], price, feePct) == ts
  {
  }

  class PaperTrader {
    const initialBalance: real
    const feePct: real
    const baseSlippagePct: real
    const latencyMs: real

    var balance: real
    var trades: seq<SimTrade>
    var openPositions: seq<nat>
    var closedTrades: seq<nat>

    ghost predicate Valid()
      reads this
    {
      WellFormed(trades, openPositions, closedTrades)
    }

    /** The ledger balances while no trade has been exited twice. */
    ghost predicate Ledgered()
      reads this
    {
      Valid() && Balanced(initialBalance, balance, trades, closedTrades)
    }

    /** An empty ledger (the defaults are 100, 0.05, 0.02 and 100). */
    constructor(initialBalance: real, feePct: real, baseSlippagePct: real, latencyMs: real)
      ensures Ledgered()
      ensures this.initialBalance == initialBalance && this.feePct == feePct
      ensures this.baseSlippagePct == baseSlippagePct && this.latencyMs == latencyMs
      ensures balance == initialBalance && trades == [] && openPositions == [] && closedTrades == []
    {
      this.initialBalance := initialBalance;
      this.feePct := feePct;
      this.baseSlippagePct := baseSlippagePct;
      this.latencyMs := latencyMs;
      balance := initialBalance;
      trades := [];
      openPositions := [];
      closedTrades := [];
    }

    /** The trade that executing `action` on `m` opens, given the slippage draw. */
    function Opening(action: Action, m: MarketState, draw: real): SimTrade
      requires m.liquidityScore != 0.0
    {
      OpenTrade(action, m, SlippagePct(baseSlippagePct, action.size, m.liquidityScore, draw), feePct)
    }

    /**
     * The ledger is the given one after opening `t` as its next trade: the
     * trade appended, its entry fee paid, a buy's position opened, and
     * nothing closed.
     */
    ghost predicate OpenedFrom(trades0: seq<SimTrade>, balance0: real, open0: seq<nat>, closed0: seq<nat>, t: SimTrade)
      reads this
    {
      && trades == trades0 + [t]
      && balance == balance0 - t.feesPaid
      && openPositions == open0 + (if t.actionType == Buy then [|trades0|] else [])
      && closedTrades == closed0
    }

    /**
     * Executes an action against a snapshot with the given random slippage
     * draw: records the trade, charges its entry fee, and opens a position
     * if it is a buy. Returns the trade and its identifier.
     */
    method SimulateExecution(action: Action, m: MarketState, draw: real) returns (t: SimTrade, id: nat)
      requires Valid() && m.liquidityScore != 0.0
      modifies this
      ensures t == OpenTrade(action, m, SlippagePct(baseSlippagePct, action.size, m.liquidityScore, draw), feePct)
      ensures id == |old(trades)| && trades == old(trades) + [t]
      ensures balance == old(balance) - t.feesPaid
      ensures openPositions == old(openPositions) + (if action.actionType == Buy then [id] else [])
      ensures closedTrades == old(closedTrades)
      ensures OpenedFrom(old(trades), old(balance), old(openPositions), old(closedTrades), t)
      ensures Valid()
      ensures old(Ledgered()) ==> Ledgered()
    {
      var slippage := SlippagePct(baseSlippagePct, action.size, m.liquidityScore, draw);
      t := OpenTrade(action, m, slippage, feePct);
      id := |trades|;
      OpenKeepsLedger(trades, openPositions, closedTrades, t, action.actionType == Buy, initialBalance, balance);
      balance := balance - t.feesPaid;
      trades := trades + [t];
      if action.actionType == Buy {
        openPositions := openPositions + [id];
      }
    }

    /**
     * Exits the trade `id` at a price: records the exit on the trade, adds
     * its P&L to the balance, removes it from the open positions if it is
     * there, and appends it to the closed trades. The ledger stays balanced
     * when the trade had not been exited before.
     */
    method RecordExit(id: nat, exitPrice: real) returns (e: SimTrade)
      requires Valid() && id < |trades|
      modifies this
      ensures e == Exited(old(trades[id]), exitPrice, feePct)
      ensures trades == old(trades)[id := e]
      ensures balance == old(balance) + e.pnl
      ensures openPositions == RemoveFirst(old(openPositions), id)
      ensures closedTrades == old(closedTrades) + [id]
      ensures Valid()
      ensures old(Ledgered()) && !old(trades[id].isClosed) ==> Ledgered()
    {
      ExitKeepsLedger(trades, openPositions, closedTrades, id, exitPrice, feePct, initialBalance, balance);
      e := Exited(trades[id], exitPrice, feePct);
      trades := trades[id := e];
      balance := balance + e.pnl;
      openPositions := RemoveFirst(openPositions, id);
      closedTrades := closedTrades + [id];
    }

    /**
     * Exits every open position at the snapshot's price, in the order they
     * were opened, and returns the exited trades. No position is left open.
     */
    method CloseAllPositions(m: MarketState) returns (closed: seq<SimTrade>)
      requires Valid()
      modifies this
      ensures openPositions == []
      ensures |closed| == |old(openPositions)|
      ensures forall k :: 0 <= k < |closed| ==>
        closed[k] == Exited(old(trades)[old(openPositions)[k]], m.price, feePct)
      ensures trades == ExitAll(old(trades), old(openPositions), m.price, feePct)
      ensures closedTrades == old(closedTrades) + old(openPositions)
      ensures balance == old(balance) + PnlSum(closed)
      ensures Valid()
      ensures old(Ledgered()) ==> Ledgered()
    {
      var ids := openPositions;
      ghost var ledgered := Ledgered();
      ghost var start := trades;
      ghost var closed0 := closedTrades;
      ghost var balance0 := balance;
      ExitAllNone(start, m.price, feePct);
      assert ids[..0] == [] && closed0 + [] == closed0;
      closed := [];
      var i := 0;
      while i < |ids|
        invariant Closing(ids, i, closed, start, closed0, balance0, m.price, ledgered)
        decreases |ids| - i
      {
        closed := ExitNext(ids, i, m.price, closed, start, closed0, balance0, ledgered);
        i := i + 1;
      }
      assert ids[..i] == ids;
    }

    /** The state after the first i of the positions `ids` were closed at the price. */
    ghost predicate Closing(ids: seq<nat>, i: nat, closed: seq<SimTrade>, start: seq<SimTrade>,
                            closed0: seq<nat>, balance0: real, price: real, ledgered: bool)
      reads this
    {
      && i <= |ids| && |closed| == i && InRange(ids, |start|)
      && Valid()
      && openPositions == ids[i..]
      && trades == ExitAll(start, ids[..i], price, feePct)
      && (forall k :: 0 <= k < i ==> closed[k] == Exited(start[ids[k]], price, feePct))
      && closedTrades == closed0 + ids[..i]
      && balance == balance0 + PnlSum(closed)
      && (ledgered ==> Ledgered())
    }

    /** One step of closing all positions: exits position i at the price. */
    method ExitNext(ids: seq<nat>, i: nat, price: real, closed: seq<SimTrade>, ghost start: seq<SimTrade>,
                    ghost closed0: seq<nat>, ghost balance0: real, ghost ledgered: bool)
      returns (closed': seq<SimTrade>)
      requires i < |ids| && Closing(ids, i, closed, start, closed0, balance0, price, ledgered)
      modifies this
      ensures Closing(ids, i + 1, closed', start, closed0, balance0, price, ledgered)
    {
      var id := ids[i];
      assert id !in ids[..i];
      assert id in openPositions;
      ExitAllStep(start, ids[..i], id, price, feePct);
      var e := RecordExit(id, price);
      CloseStep(ids, i, closed, e);
      closed' := closed + [e];
    }

    /**
     * The performance summary. Winners (positive P&L) and losers split the
     * closed trades, the win rate is a percentage, and before any exit the
     * reported fees are all the entry fees paid. There is no summary when a
     * trade has been closed and the initial balance is zero: the source's
     * percentages divide by it and raise.
     */
    function GetSummary(): (r: Option<Summary>)
      reads this
      requires Valid()
      ensures r.None? <==> closedTrades != [] && initialBalance == 0.0
      ensures r.Some? ==> var s := r.value;
        && s.totalTrades == |closedTrades| && s.winningTrades + s.losingTrades == s.totalTrades
        && s.winningTrades == Wins(trades, closedTrades)
        && 0.0 <= s.winRate <= 100.0
        && s.currentBalance == balance
        && (closedTrades == [] ==> s.totalFees == TotalFees(trades) && s.openPositions.None? && s.totalPnl == 0.0)
        && (closedTrades != [] ==> s.totalPnl == ClosedPnl(trades, closedTrades))
        && (closedTrades != [] ==> s.totalFees == ClosedFees(trades, closedTrades))
        && (closedTrades != [] ==> s.openPositions == Some(|openPositions|))
        && s.avgWin >= 0.0 && s.avgLoss <= 0.0
        && (closedTrades == [] ==> s.totalPnlPct == 0.0 && s.avgPnl == 0.0 && s.avgWin == 0.0 && s.avgLoss == 0.0 && s.returnPct == 0.0)
        && (closedTrades != [] ==> Averages(s, initialBalance, balance, WinPnl(trades, closedTrades), LossPnl(trades, closedTrades)))
    {
      if closedTrades == [] then
        Some(Summary(0, 0, 0, 0.0, 0.0, 0.0, 0.0, 0.0, 0.0, TotalFees(trades), balance, 0.0, None))
      else if initialBalance == 0.0 then
        None
      else
        var wins := Wins(trades, closedTrades);
        Some(ClosedSummary(|closedTrades|, wins, Losses(trades, closedTrades), ClosedPnl(trades, closedTrades),
          WinPnl(trades, closedTrades), LossPnl(trades, closedTrades), ClosedFees(trades, closedTrades),
          initialBalance, balance, |openPositions|))
    }
  }

  /**
   * The means and percentages of a summary: the mean P&L times the number of
   * trades is the total P&L; the P&L share and the return, times the initial
   * balance, are a hundred times the P&L and the balance's change; the mean
   * win (loss) times the number of winners (losers) is their P&L, and is zero
   * when there is none.
   */
  predicate Averages(s: Summary, initialBalance: real, balance: real, winPnl: real, lossPnl: real)
  {
    && s.avgPnl * s.totalTrades as real == s.totalPnl
    && s.totalPnlPct * initialBalance == s.totalPnl * 100.0
    && s.returnPct * initialBalance == (balance - initialBalance) * 100.0
    && (s.winningTrades > 0 ==> s.avgWin * s.winningTrades as real == winPnl)
    && (s.winningTrades == 0 ==> s.avgWin == 0.0)
    && (s.losingTrades > 0 ==> s.avgLoss * s.losingTrades as real == lossPnl)
    && (s.losingTrades == 0 ==> s.avgLoss == 0.0)
  }

  /**
   * The summary once trades have closed: the win rate, the P&L as a share of
   * the initial balance, the mean P&L per trade, per winner and per loser
   * (zero when there is none), and the return on the initial balance.
   */
  function ClosedSummary(n: nat, wins: nat, losses: nat, totalPnl: real, winPnl: real, lossPnl: real,
                         totalFees: real, initialBalance: real, balance: real, openPositions: nat): (s: Summary)
    requires 0 < n && wins + losses == n && initialBalance != 0.0
    ensures s.totalTrades == n && s.winningTrades == wins && s.losingTrades == losses
    ensures 0.0 <= s.winRate <= 100.0
    ensures s.totalPnl == totalPnl && s.totalFees == totalFees && s.currentBalance == balance
    ensures s.openPositions == Some(openPositions)
    ensures Averages(s, initialBalance, balance, winPnl, lossPnl)
    ensures winPnl >= 0.0 ==> s.avgWin >= 0.0
    ensures lossPnl <= 0.0 ==> s.avgLoss <= 0.0
  {
    WinRateBounds(wins, n);
    ScaledQuotient(totalPnl, initialBalance, 100.0);
    ScaledQuotient(balance - initialBalance, initialBalance, 100.0);
    Summary(n, wins, losses,
      wins as real / n as real * 100.0,
      totalPnl,
      totalPnl / initialBalance * 100.0,
      totalPnl / n as real,
      if wins > 0 then winPnl / wins as real else 0.0,
      if losses > 0 then lossPnl / losses as real else 0.0,
      totalFees,
      balance,
      (balance - initialBalance) / initialBalance * 100.0,
      Some(openPositions))
  }

  /** The P&L of a list of trade records. */
  function PnlSum(ts: seq<SimTrade>): real
  {
    if ts == [] then 0.0 else PnlSum(ts[..|ts| - 1]) + ts[|ts| - 1].pnl
  }

  /** The sequence facts one step of closing all positions needs. */
  lemma CloseStep(ids: seq<nat>, i: nat, closed: seq<SimTrade>, e: SimTrade)
    requires i < |ids|
    ensures ids[i..][1..] == ids[i + 1..] && ids[..i + 1] == ids[..i] + [ids[i]]
    ensures PnlSum(closed + [e]) == PnlSum(closed) + e.pnl
  {
    assert (closed + [e])[..|closed|] == closed;
  }

  lemma WinRateBounds(wins: nat, n: nat)
    requires 0 < n && wins <= n
    ensures 0.0 <= wins as real / n as real * 100.0 <= 100.0
  {
    DivideMonotone(wins as real, n as real, n as real);
  }

  /**
   * On a balanced ledger the reported return is the realised P&L less all
   * entry fees, relative to the initial balance.
   */
  lemma LedgerReturn(p: PaperTrader)
    requires p.Ledgered() && p.closedTrades != [] && p.initialBalance != 0.0
    ensures p.GetSummary().Some?
    ensures p.GetSummary().value.returnPct == (p.GetSummary().value.totalPnl - TotalFees(p.trades)) / p.initialBalance * 100.0
  {
  }

  /** The realised P&L is what the winners made plus what the losers lost. */
  lemma SummaryPartition(p: PaperTrader)
    requires p.Valid() && p.closedTrades != [] && p.initialBalance != 0.0
    ensures p.GetSummary().Some?
    ensures p.GetSummary().value.totalPnl == WinPnl(p.trades, p.closedTrades) + LossPnl(p.trades, p.closedTrades)
  {
    PnlPartition(p.trades, p.closedTrades);
  }
}
