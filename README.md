# Hyper-accumulation bot: the decision and paper-execution pipeline in Dafny

This project models the decision pipeline of a Solana trading bot and proves
properties of it. Every trading cycle does the same steps:

1. take a market snapshot;
2. run the rule-based logic gate;
3. let the decision engines vote through the ensemble and apply the
   minimum-confidence check;
4. size the winning action with the leverage engine;
5. execute it, either on the paper trader's ledger, as a simulated Jito bundle
   or by time slices (TWAP).

Three drivers run this cycle: the backtest over historical bars, the market
simulator, and the live bot.

Once its random draws, snapshots and quotes are given, every piece is
sequential and deterministic, so the model takes all three as parameters.

The modules follow the source files, one module per file:

| module | file | what it holds |
|---|---|---|
| `Types` | `types.dfy` | the enumerations, the snapshot, action, decision, vote and filter-result records, and their validity predicates |
| `Gate` | `logic_gate.dfy` | the five gate rules, as a function of the thresholds and the snapshot |
| `Ensemble` | `hyper_ensemble.dfy` | vote collection and aggregation; the coordinator as a class over its ordered engine list |
| `Onflow` | `onflow_engine.dfy` | the EWMA state as a class, and the Kelly-like allocation |
| `Mdp` | `mdp_decision.dfy` | state discretisation; the Q-table as a class field of type `map`, with epsilon-greedy selection and the Q-learning update |
| `Leverage` | `leverage_engine.dfy` | position sizing and the margin stub |
| `Paper` | `paper_trader.dfy` | the paper-trading ledger as a class: open, exit, close-all and summary |
| `Twap` | `twap_executor.dfy` | the slice loop over a sequence of quote answers |
| `Jito` | `jito_warp.dfy` | the bundle's latency, slippage and fee arithmetic |
| `Backtest` | `backtest.dfy` | the replay loop over bars |
| `Simulator` | `market_simulator.dfy` | the simulator's counters, its cycles and its simulation loop |
| `Bot` | `live_bot.dfy` | the live bot's cycle, loop and stop |

Code that mutates state is modelled as classes and methods with loop
invariants. Each method is proved against a specification function whose own
properties are proved as lemmas.

The paper trader's central invariant is the ledger: the balance always equals
the initial balance, minus the entry fees of every trade, plus the realised
P&L of every closed trade. It holds as long as no trade is exited twice.

Three details of the ensemble and the gate are modelled exactly as the code
has them:

- `run_and_assert` returns nothing when the consensus is below the threshold.
- The aggregated action always has size 1.0.
- The reason lists are those that the code builds.

## Model

| member | source | states |
|---|---|---|
| Types.ActionIndex | src/core/types.py:12-17 | every action kind has a position in the declaration order BUY, SELL, HOLD, CLOSE |
| Types.ActionTypesEnumerated | src/core/types.py:12-17 | there are exactly four action kinds, all listed once |
| Types.RegimeIndex | src/core/types.py:20-26 | every regime has a position in the fixed order that the discretisation uses |
| Types.RegimesEnumerated | src/core/types.py:20-26 | there are exactly five regimes, all listed once |
| Types.Snapshot | src/core/types.py:36-58 | a snapshot built from the required fields takes the declared defaults; it is valid iff price, bid and ask are positive and volume is non-negative (there is no ask >= bid constraint) |
| Types.NewAction | src/core/types.py:61-72 | constructing an action succeeds iff size >= 0 and confidence is in [0,1]; the result is valid, with leverage 1, no price and empty metadata |
| Types.PendingDecision | src/core/types.py:78-93 | a decision's status defaults to PENDING; it is valid iff its action is valid and its consensus is in [0,1] |
| Gate.Check | src/core/logic_gate.py:44-105 | each rule is reported iff its own condition holds (MEV strictly above the limit, latency above, volume below, EMA deviation above and only with both EMAs present, spread above); reasons come in rule order, at most five; allowed iff there are no reasons; risk = min(sum of weights, 1), a valid filter result |
| Gate.ReasonsMembership | src/core/logic_gate.py:55-96 | a rule's reason is in the list exactly when the rule fired |
| Gate.ReasonsInOrder | src/core/logic_gate.py:55-96 | reasons appear in the order MEV, latency, volume, EMA, spread, so there are at most five |
| Gate.ReasonsWeight | src/core/logic_gate.py:56-99 | the risk accumulated rule by rule is the total weight of the reported reasons |
| Gate.TotalWeightNonNegative | src/core/logic_gate.py:63-99 | the accumulated risk is never negative, so the capped score lies in [0,1] |
| Gate.CheckIgnoresAction | src/core/logic_gate.py:44-105 | the verdict does not depend on the action argument |
| Gate.MevThresholdIsStrict | src/core/logic_gate.py:59-63 | an MEV score equal to the limit passes; one strictly above it blocks |
| Gate.ValidIsCheckable | src/core/logic_gate.py:80-91 | the gate's divisions are defined on a valid snapshot unless its EMA average is zero |
| Ensemble.VoteFrom | src/core/hyper_ensemble.py:62-82 | an engine yields one vote iff it answered with a confidence in [0,1]; the vote carries its name, kind, size 1 and confidence |
| Ensemble.CollectVotes | src/core/hyper_ensemble.py:59-84 | at most one vote per engine, and every vote is valid |
| Ensemble.CollectVotesCount | src/core/hyper_ensemble.py:61-82 | the number of votes is the number of engines that answered validly: failing engines are skipped, the rest still vote |
| Ensemble.AllFailNoVotes | src/core/hyper_ensemble.py:59-84 | when every engine fails there are no votes |
| Ensemble.AppearanceSpec | src/core/hyper_ensemble.py:157-164 | the tally's keys are exactly the voted kinds, each once, in order of first appearance |
| Ensemble.WeightBounds | src/core/hyper_ensemble.py:161-172 | a kind's weight lies between 0 and the total confidence and is at most its vote count; the count is at most the number of votes |
| Ensemble.WeightMap | src/core/hyper_ensemble.py:158-164 | the weight dictionary holds the voted kinds, each with its summed confidence |
| Ensemble.FirstMaxIndex | src/core/hyper_ensemble.py:167 | the chosen key has the maximal weight, and every earlier key has strictly less |
| Ensemble.SumOverAppearance | src/core/hyper_ensemble.py:170 | summing the weight dictionary gives the total confidence of the votes |
| Ensemble.ConsensusBounds | src/core/hyper_ensemble.py:170-179 | the agreement-boosted consensus lies in [0,1] |
| Ensemble.VoteLog | src/core/hyper_ensemble.py:189-195 | the audit record has one entry per engine name that voted |
| Ensemble.VoteLogKeepsLast | src/core/hyper_ensemble.py:189-195 | an engine's audit entry is its last vote |
| Ensemble.Aggregate | src/core/hyper_ensemble.py:128-203 | no votes give HOLD, size 0, consensus 0, BLOCKED and an empty record; otherwise APPROVED with the vote count as reason, size 1, action confidence = consensus, the chosen kind was voted for and has maximal weight, and the consensus is (winner weight / total) x (0.7 + 0.3 x winner count / votes), so the cap at 1 never binds; the record is the vote log; the decision is valid |
| Ensemble.TiesGoToFirstVoted | src/core/hyper_ensemble.py:166-167 | among kinds with equal top weight, the one voted for first wins |
| Ensemble.UnanimousConsensus | src/core/hyper_ensemble.py:161-179 | when all votes name one kind with positive total confidence, that kind wins with consensus exactly 1 |
| Ensemble.NoVotesNeverPass | src/core/hyper_ensemble.py:143-155 | whenever no vote survives collection, the decision is the blocked hold at confidence 0, so it never passes a positive threshold |
| Ensemble.TallyVotes | src/core/hyper_ensemble.py:157-164 | the tally loop computes the appearance-ordered keys, the weight dictionary and the counts |
| Ensemble.AggregateVotes | src/core/hyper_ensemble.py:128-203 | the aggregation computed with the tally loop is the specified aggregate |
| Ensemble.HyperEnsemble.constructor | src/core/hyper_ensemble.py:36-37 | the coordinator starts with the given engines |
| Ensemble.HyperEnsemble.AddEngine | src/core/hyper_ensemble.py:39-47 | registering appends, which keeps registration order (the voting order) |
| Ensemble.HyperEnsemble.RunSync | src/core/hyper_ensemble.py:49-84 | running the engines gives the aggregate of the collected votes |
| Ensemble.HyperEnsemble.RunAndAssert | src/core/hyper_ensemble.py:205-229 | the result is None iff consensus < threshold; otherwise it is the run's decision, unchanged |
| Onflow.Ewma | src/core/onflow_engine.py:59-85 | the first sample is taken as is; later ones give a convex combination that lies between the old value and the sample when alpha is in [0,1] |
| Onflow.Clip | src/core/onflow_engine.py:130 | numpy's clip: within [lo, hi] when lo <= hi, the value itself when already inside, and hi when the bounds cross |
| Onflow.ClipMonotone | src/core/onflow_engine.py:130 | clipping is monotone |
| Onflow.EffectiveVolatility | src/core/onflow_engine.py:111-121 | the volatility used is always positive, so the division is safe and the else branch cannot be taken |
| Onflow.OnflowEngine.constructor | src/core/onflow_engine.py:21-46 | a fresh engine has no history and a trade count of 0 |
| Onflow.OnflowEngine.Update | src/core/onflow_engine.py:48-85 | the trade count goes up by exactly 1 and each average takes one EWMA step towards its sample (1 or 0 for the win rate); the engine stays valid, so the win rate stays in [0,1] |
| Onflow.OnflowEngine.SuggestAllocation | src/core/onflow_engine.py:87-132 | with no history the result is exactly the minimum; otherwise it is clipped to [min, max]; the engine is not changed |
| Onflow.OnflowEngine.GetState | src/core/onflow_engine.py:134-141 | the monitoring record echoes the count and the three averages |
| Onflow.KellyMonotone | src/core/onflow_engine.py:116-127 | the Kelly term is nondecreasing in the average return and non-positive for a non-positive return |
| Onflow.AllocationMonotoneInReturn | src/core/onflow_engine.py:105-130 | with the rest of the state equal and a non-negative Kelly fraction, a larger average return never gives a smaller allocation |
| Onflow.LosingRecordGetsMinimum | src/core/onflow_engine.py:98-130 | a non-positive average return gives exactly the minimum allocation |
| Mdp.VolatilityBin | src/core/mdp_decision.py:65-71 | the bins split at 0.02 and 0.05 with strict comparisons |
| Mdp.LiquidityBin | src/core/mdp_decision.py:73-79 | the bins split at 0.4 and 0.7 with strict comparisons |
| Mdp.Encode | src/core/mdp_decision.py:81-85 | regime x 9 + volatility bin x 3 + liquidity bin is below 45, and each part can be read back |
| Mdp.EncodeInjective | src/core/mdp_decision.py:81-85 | the encoding is injective on the triple |
| Mdp.Discretize | src/core/mdp_decision.py:50-85 | a snapshot's state is below 45 and encodes its regime index and both bins |
| Mdp.SameStateIffSameBins | src/core/mdp_decision.py:62-85 | two snapshots share a state iff their regime and both bins agree |
| Mdp.WithRow | src/core/mdp_decision.py:87-95 | a zero row over the four kinds is added only for a new key; existing rows are untouched and no key is lost |
| Mdp.WithRowIdempotent | src/core/mdp_decision.py:87-95 | initialising a state twice is the same as once |
| Mdp.MaxValue | src/core/mdp_decision.py:124-127 | the row maximum bounds every value and is one of them |
| Mdp.Greedy | src/core/mdp_decision.py:122-124 | the greedy kind has the maximal Q value, and every kind before it in the enumeration has a strictly smaller one |
| Mdp.GreedyConfidence | src/core/mdp_decision.py:126-134 | a greedy choice's confidence lies in [0.5, 0.9], and is 0.5 when the maximum does not exceed the mean |
| Mdp.QStepMovesTowardsTarget | src/core/mdp_decision.py:171 | with a rate in (0,1] the new value lies between the old value and the target, moving strictly towards it |
| Mdp.DecayedEpsilon | src/core/mdp_decision.py:174-179 | the decayed epsilon never falls below the floor, and never rises for a decay in [0,1] |
| Mdp.MdpDecision.constructor | src/core/mdp_decision.py:20-48 | a fresh layer has an empty table and no episodes |
| Mdp.MdpDecision.InitState | src/core/mdp_decision.py:87-95 | the table becomes the table with a row for the state |
| Mdp.MdpDecision.SelectAction | src/core/mdp_decision.py:97-136 | the state's row is initialised; exploring below epsilon gives the random kind at 0.3, otherwise the greedy kind and its confidence |
| Mdp.MdpDecision.Update | src/core/mdp_decision.py:138-179 | both states are initialised and only Q(s,a) changes, by lr x (target - Q); episodes and epsilon change only when done |
| Mdp.MdpDecision.GetState | src/core/mdp_decision.py:181-187 | the monitoring record reports the episodes, epsilon and the table size |
| Mdp.UpdateKeys | src/core/mdp_decision.py:156-160 | an update keeps every key and adds at most the two states it touches |
| Mdp.UpdateEntries | src/core/mdp_decision.py:159-171 | every entry other than Q(s,a) keeps its value |
| Mdp.TerminalUpdateTowardsReward | src/core/mdp_decision.py:165-171 | a terminal update moves Q towards the reward; a positive reward from 0 increases it |
| Mdp.TableSizeBounded | src/core/mdp_decision.py:81-95 | the table never holds more than 45 rows |
| Leverage.EffectiveBalance | src/execution/leverage_engine.py:55 | a missing or zero balance argument falls back to the configured balance |
| Leverage.AllocationPct | src/execution/leverage_engine.py:57-70 | the allocation never exceeds the maximum position percentage and is non-negative for non-negative inputs |
| Leverage.SizedLeverage | src/execution/leverage_engine.py:75-82 | for confidence in [0,1] and a maximum >= 1, leverage lies in [1, max]; in a volatile market it is floored at 1 |
| Leverage.SizePosition | src/execution/leverage_engine.py:38-91 | kind and confidence are unchanged; size = effective balance x allocation; leverage as sized; price = market price; the allocation is recorded in the metadata |
| Leverage.SizeWithinLimit | src/execution/leverage_engine.py:59-73 | the position size never exceeds balance x maximum position percentage |
| Leverage.SizedActionValid | src/execution/leverage_engine.py:77-91 | sizing a valid action in a valid market keeps it valid |
| Leverage.VolatileMarketCut | src/execution/leverage_engine.py:59-82 | above 0.05 volatility the allocation is cut by 0.7 and leverage by 0.6, floored at 1 |
| Leverage.RequestMargin | src/execution/leverage_engine.py:93-124 | margin is always approved, and collateral defaults to size / leverage |
| Paper.SlippageBounds | src/simulation/paper_trader.py:82-87 | because the size factor is capped at 1, the slippage lies between 0 and base x (1 / liquidity) x draw |
| Paper.EntryPriceSide | src/simulation/paper_trader.py:89-93 | a buy enters at or above the market price and anything else at or below it |
| Paper.OpenTrade | src/simulation/paper_trader.py:95-115 | a new trade records kind, size, leverage and entry price, with fees = size x entry x fee% / 100, not yet exited |
| Paper.Exited | src/simulation/paper_trader.py:142-157 | an exit records the price and fee, with pnl = (exit value - entry value) x leverage - exit fee, and closes the trade |
| Paper.ExitAtEntry | src/simulation/paper_trader.py:142-148 | exiting at the entry price loses exactly the exit fee |
| Paper.ProfitNeedsRise | src/simulation/paper_trader.py:146-149 | a profit needs the exit price above the entry; the percentage is positive exactly for a profit on a positive entry value |
| Paper.RemoveFirst | src/simulation/paper_trader.py:163-164 | removal drops one occurrence when present and leaves the list alone otherwise |
| Paper.RemoveFirstDistinct | src/simulation/paper_trader.py:163-164 | removing from a list without repeats leaves none of the removed element |
| Paper.Wins | src/simulation/paper_trader.py:215 | the winners are at most the closed trades |
| Paper.Losses | src/simulation/paper_trader.py:216 | the losers are the rest of the closed trades |
| Paper.WinPnl | src/simulation/paper_trader.py:229 | the winners' P&L is non-negative, and positive exactly when there is a winner |
| Paper.LossPnl | src/simulation/paper_trader.py:230 | the losers' P&L is never positive |
| Paper.PnlPartition | src/simulation/paper_trader.py:215-218 | winners and losers split the realised P&L |
| Paper.OpenKeepsLedger | src/simulation/paper_trader.py:99-121 | recording a new trade keeps the ledger's shape, and the balance stays explained by fees and P&L |
| Paper.ExitKeepsLedger | src/simulation/paper_trader.py:159-165 | exiting a trade not yet closed keeps the ledger balanced |
| Paper.ExitAll | src/simulation/paper_trader.py:182-190 | exiting a list of trades keeps the number of trades |
| Paper.ExitAllSpec | src/simulation/paper_trader.py:182-190 | exactly the named trades are exited at the price; the others are untouched |
| Paper.ExitAllKeepsExited | src/simulation/paper_trader.py:182-190 | closing the open positions leaves the already-exited trades as they were |
| Paper.PaperTrader.constructor | src/simulation/paper_trader.py:40-64 | a fresh ledger: the balance is the initial balance, the lists are empty, and the ledger is balanced |
| Paper.PaperTrader.SimulateExecution | src/simulation/paper_trader.py:66-123 | the balance drops by exactly the fee; one trade is appended; it becomes an open position iff it is a buy; closed trades are unchanged; the ledger stays balanced |
| Paper.PaperTrader.RecordExit | src/simulation/paper_trader.py:125-167 | the trade is exited, pnl is added to the balance, it leaves the open positions and joins the closed trades |
| Paper.PaperTrader.CloseAllPositions | src/simulation/paper_trader.py:169-190 | no open positions remain; one exited trade is returned per open position, each exited at the market price; the balance grows by their P&L |
| Paper.PaperTrader.ExitNext | src/simulation/paper_trader.py:183-189 | one step of the close-all loop extends the closing bookkeeping by one position |
| Paper.PaperTrader.GetSummary | src/simulation/paper_trader.py:192-235 | no summary exactly when a trade was closed and the initial balance is 0 (the division at line 227 fails); otherwise winning + losing = closed trades, win rate in [0,100], total P&L and fees over the closed trades; with closed trades the means and percentages hold (`Averages`): mean P&L x trades = total P&L, P&L share and return x initial balance = 100 x P&L and 100 x the balance's change, mean win (loss) x winners (losers) = their P&L, or 0 with none; with no closed trades the fees are the entry fees of all trades and every mean and percentage is 0 |
| Paper.ClosedSummary | src/simulation/paper_trader.py:215-235 | the summary of closed trades: counts as given, win rate in [0,100], the means and percentages of `Averages`, the mean win non-negative and the mean loss non-positive |
| Paper.RemoveFirstAppended | src/simulation/paper_trader.py:163-164 | removing a trade id just appended, and absent before, restores the open positions |
| Paper.ExitAllKeepsShape | src/simulation/paper_trader.py:182-190 | closing positions keeps every trade's kind and size and leaves the unnamed trades untouched |
| Paper.WinRateBounds | src/simulation/paper_trader.py:225 | a share of winners as a percentage lies in [0,100] |
| Paper.LedgerReturn | src/simulation/paper_trader.py:227-233 | on a balanced ledger with a nonzero initial balance there is a summary, and its return is (realised P&L - all entry fees) / initial balance x 100 |
| Paper.SummaryPartition | src/simulation/paper_trader.py:215-230 | the summary's total P&L is the winners' plus the losers' P&L |
| Twap.Slice | src/execution/twap_executor.py:64-110 | a slice is an error iff the quote failed, rejected iff the slippage (missing counts as 0) exceeds the tolerance strictly, and filled otherwise, with a cost |
| Twap.Reports | src/execution/twap_executor.py:63-114 | one report per quote answer |
| Twap.ReportsSpec | src/execution/twap_executor.py:63-110 | report i is slice i + 1's outcome on answer i |
| Twap.FilledCount | src/execution/twap_executor.py:128 | the filled slices are at most all slices |
| Twap.TwapOutcome | src/execution/twap_executor.py:42-131 | exactly num_slices reports; filled + rejected = num_slices; the request is echoed |
| Twap.SlicesNumbered | src/execution/twap_executor.py:63-129 | every slice requests size / num_slices, and slices are numbered 1..num_slices in order |
| Twap.SuccessIffFilled | src/execution/twap_executor.py:117-128 | the order succeeds iff some slice filled |
| Twap.FillBounds | src/execution/twap_executor.py:89-124 | for a non-negative order the filled size lies between 0 and the requested size, and the fill rate lies in [0,1] |
| Twap.AccumulatedIsProduct | src/execution/twap_executor.py:90 | adding the slice size k times is k x slice size |
| Twap.AllOverTolerance | src/execution/twap_executor.py:74-120 | if every quote exceeds the tolerance, nothing fills, the order fails and the average price is the market price |
| Twap.ExecuteSlice | src/execution/twap_executor.py:65-110 | one slice's report is the slice outcome |
| Twap.RunSlices | src/execution/twap_executor.py:63-114 | the loop produces the specified reports; rejected = slices - filled; the filled size is the slice size added once per filled slice; the cost is the sum over filled slices |
| Twap.ExecuteTwap | src/execution/twap_executor.py:42-131 | executing gives the specified TWAP outcome |
| Twap.ExecuteAction | src/execution/twap_executor.py:133-148 | executing an action is executing it by time slices |
| Jito.Latency | src/execution/jito_warp.py:56-58 | the latency is at least 50 ms, and equals base + jitter when that is already at least 50 |
| Jito.SlippageNonNegative | src/execution/jito_warp.py:61-64 | slippage is non-negative for a non-negative size |
| Jito.FillPriceSide | src/execution/jito_warp.py:66-70 | a buy fills at or above the market price, anything else at or below |
| Jito.FeesProportional | src/execution/jito_warp.py:72-76 | total fees = tip lamports / 1e9 x price + 0.000005 x price, both non-negative |
| Jito.ExecuteBundle | src/execution/jito_warp.py:41-102 | included iff the draw is below 0.95; latency and tip are always reported; an included one echoes kind, size, leverage and requested price, with the slippage, the side-dependent fill price, the network fee and total fees = tip + network fee |
| Jito.IncludedFillSide | src/execution/jito_warp.py:66-102 | an included buy fills at or above the requested price and anything else at or below it |
| Jito.ExecuteAction | src/execution/jito_warp.py:104-119 | executing an action is submitting it as a bundle |
| Backtest.MarketStateFromBar | src/simulation/backtest.py:49-85 | price = close, else price, else 100; bid = low and ask = high with defaults price x 0.999 and price x 1.001; the other fields are copied or defaulted |
| Backtest.CloseOnlyBar | src/simulation/backtest.py:64-85 | a bar with only a positive close gives a valid snapshot with bid below and ask above the price |
| Backtest.CloseOnlyBarPasses | src/simulation/backtest.py:64-85 | such a bar's snapshot passes the default gate |
| Backtest.Screen | src/simulation/backtest.py:113-144 | a bar is gate-blocked iff the gate refuses its snapshot; a bar that trades carries the ensemble's aggregate decision, which is not a hold |
| Backtest.Screens | src/simulation/backtest.py:102-144 | one screening per bar |
| Backtest.ScreensAt | src/simulation/backtest.py:102-144 | entry i is bar i's screening |
| Backtest.Reported | src/simulation/backtest.py:144-164 | the entries are at most the bars |
| Backtest.ReportedSpec | src/simulation/backtest.py:144-164 | entries come in bar order, and a bar has one exactly when it was not sized to a hold |
| Backtest.ProgressMeaning | src/simulation/backtest.py:100-164 | after the last bar, the results describe the non-hold bars, every trade is exited at the next bar's price when there is one, and a trade on the last bar is still open |
| Backtest.TradeBarsSpec | src/simulation/backtest.py:144-145 | the trading bars come in bar order, and a bar is one exactly when it was screened as a trade |
| Backtest.ExecutedOf | src/simulation/backtest.py:157-164 | the executed entries are executed entries of the result list |
| Backtest.PairedStep | src/simulation/backtest.py:143-164 | one bar extends the pairing of executed entries with trades |
| Backtest.PairedTrade | src/simulation/backtest.py:144-164 | a trading bar appends its executed entry and its trade, paired by bar, kind and size |
| Backtest.PairedNoTrade | src/simulation/backtest.py:116-144 | a blocked, low-confidence or hold bar adds no executed entry and no trade, so the pairing is kept |
| Backtest.PairedKept | src/simulation/backtest.py:167-170 | the close-out keeps that pairing, since it keeps every trade's kind and size |
| Backtest.PairedKinds | src/simulation/backtest.py:137-164 | after the last bar, the trading bars are exactly the bars screened as trades, every trade has the kind of its bar's ensemble decision, and the k-th executed entry has the k-th trade's bar, kind and size |
| Backtest.ReplayedFrom | src/simulation/backtest.py:100-170 | the bookkeeping after the last bar and the close-out is the replay's outcome (`Replayed`): the results, trades, pairing, exits and open last-bar non-buys stated under `RunBacktest` |
| Backtest.CloseAllKeepsNonBuys | src/simulation/backtest.py:167-170 | the close-out leaves a trade that is not a buy as it was |
| Backtest.TradesExitedKept | src/simulation/backtest.py:167-170 | the final close-out keeps the exits already recorded |
| Backtest.Backtest.constructor | src/simulation/backtest.py:25-47 | the replay keeps the given components and threshold |
| Backtest.Backtest.RunBacktest | src/simulation/backtest.py:87-181 | num_bars = the number of bars; one result per non-hold bar, in bar order, each describing its bar's screening; the trades are opened, in order, exactly at the bars screened as trades, each of its bar's decision kind; the k-th executed entry is the k-th trade's bar, kind and size; each trade is exited at the next bar's price; a non-buy trade on the last bar stays open; with bars, no position stays open; the ledger stays balanced; the summary is the trader's (none when it would divide by a zero initial balance) |
| Backtest.Backtest.CloseOut | src/simulation/backtest.py:166-170 | after the last bar every open position is closed at its price, keeping the earlier exits, the pairing of entries with trades, and the last bar's non-buy trades open; the ledger stays balanced |
| Backtest.Backtest.ReplayBars | src/simulation/backtest.py:100-164 | the loop over the bars keeps the replay bookkeeping |
| Backtest.Backtest.AdvanceBar | src/simulation/backtest.py:102-164 | one iteration extends the bookkeeping by one bar |
| Backtest.Backtest.ReplayBar | src/simulation/backtest.py:103-164 | one bar yields an entry unless it holds, and trades iff it was screened as a trade; a non-trading bar leaves the trader untouched; a trading bar's entry carries the action sized against the trader's balance, whose trade is opened with that bar's draw and exited at the next price |
| Backtest.Backtest.OpenAndExit | src/simulation/backtest.py:144-155 | the trade of the sized action is appended and its fee paid; with a next price it is recorded exited there, its P&L realised and its id closed, with no position left open; without one it is merely opened |
| Simulator.ResolveMinConfidence | src/simulation/market_simulator.py:57-58 | a configured threshold wins (even 0); otherwise a nonzero argument; otherwise 0.75 |
| Simulator.ZeroThreshold | src/simulation/market_simulator.py:58 | a zero argument falls back to 0.75, but a configured zero is kept |
| Simulator.DefaultSizing | src/simulation/market_simulator.py:59-92 | the default sizer takes the configured position limit (0.35) and initial balance (100) |
| Simulator.ApprovalRate | src/simulation/market_simulator.py:248 | 0 with no iterations; otherwise a percentage in [0,100], 100 when all were approved and 0 when none were |
| Simulator.Judge | src/simulation/market_simulator.py:127-156 | gate-blocked iff the gate refuses, with its reasons; blocked for confidence only below the threshold; approved with the aggregate decision at or above it |
| Simulator.ApprovedHadVotes | src/simulation/market_simulator.py:142-156 | at a positive threshold, an approved verdict had votes and is a valid APPROVED decision; a gate block always has reasons |
| Simulator.MarketSimulator.constructor | src/simulation/market_simulator.py:28-102 | defaults: gate, ensemble with onflow and mdp registered, sizer, trader at the configured balance; counters at 0 |
| Simulator.MarketSimulator.RunIteration | src/simulation/market_simulator.py:104-200 | iteration + 1 and exactly one of blocked / approved; a gate block returns before the ensemble, sizer or trader; a paper trade happens iff trades are executed and the sized action is not a hold |
| Simulator.MarketSimulator.JudgeSnapshot | src/simulation/market_simulator.py:127-154 | the gate and then the ensemble give the verdict |
| Simulator.MarketSimulator.ExecuteApproved | src/simulation/market_simulator.py:158-200 | an approved decision is sized against the trader's balance and traded or only reported |
| Simulator.MarketSimulator.RunCycle | src/simulation/market_simulator.py:202-220 | an override is in force for the iteration, and the previous flag is restored; the counters and verdict are those of the iteration; a paper trade opens exactly the sized action's trade on the ledger, and otherwise the trader is untouched |
| Simulator.MarketSimulator.GetSummary | src/simulation/market_simulator.py:222-249 | none exactly when the trader has no summary; otherwise the final balance, P&L, trade counts, win rate and return are the trader's summary's, drawdown is 0, and the counters and approval rate are the simulator's |
| Simulator.MarketSimulator.RunIterations | src/simulation/market_simulator.py:268-273 | the loop keeps the counters, the numbering and each report's screening |
| Simulator.MarketSimulator.RunSimulation | src/simulation/market_simulator.py:251-303 | exactly `iterations` numbered reports, each as judged; then every open position is closed and the summary is the trader's (none when it would divide by a zero initial balance) |
| Bot.MdpChoice | src/core/mdp_decision.py:112-136 | the exploring MDP answers the random kind at 0.3 below epsilon, otherwise a greedy kind with confidence in [0.5, 0.9] |
| Bot.Answers | src/live_bot.py:58-66 | the onflow engine votes BUY at its allocation, then the MDP engine answers |
| Bot.EnginesAlwaysVote | src/live_bot.py:58-66 | when both engines answer within [0,1], both vote |
| Bot.LiveBot.constructor | src/live_bot.py:34-95 | the default components; a paper trader exists exactly in simulation mode; threshold 0.75 unless configured; counters at 0, not running |
| Bot.LiveBot.RunCycle | src/live_bot.py:97-188 | cycle + 1; blocked + 1 exactly on a gate or confidence block; a gate block leaves the MDP untouched, and otherwise the MDP gains the snapshot's row with exploration and episodes unchanged; a hold touches neither trader nor trade count; a trade counts once, on paper in simulation mode and as a bundle live; a paper trade opens exactly the sized action's trade on the ledger, at the reported price; blocked + trades <= cycles |
| Bot.LiveBot.Consult | src/live_bot.py:114-138 | the gate first; only if it passes, the two engines in order and the ensemble's threshold, after which the MDP has the snapshot's row and nothing else of it changed |
| Bot.LiveBot.Ask | src/live_bot.py:58-66 | the answers are the onflow buy at its allocation and the MDP's exploring choice on the table as it was; the MDP's table gains the snapshot's row, its exploration rate and episode count are unchanged, and it stays valid |
| Bot.LiveBot.Respond | src/live_bot.py:120-188 | a blocked verdict is counted and reported; an approved one is acted on, and a paper trade opens exactly the sized action's trade on the ledger |
| Bot.LiveBot.Act | src/live_bot.py:140-188 | sizing uses the trader's balance in simulation and the configured balance live; a hold is reported with no trade; a paper trade appends the sized action's trade, pays its fee, opens a buy's position and reports its entry price |
| Bot.LiveBot.RunLoop | src/live_bot.py:190-224 | cycles stop at a nonzero bound or after a requested stop; if the snapshots run out first, one more cycle is counted and its fetch fails, ending the loop; no stop came before the last cycle; the cycle count grows by the cycles run plus the failed one; the bot is not running afterwards |
| Bot.LiveBot.CycleAndWait | src/live_bot.py:208-218 | one cycle, after which the bot keeps running unless a stop was requested |
| Bot.LiveBot.Stop | src/live_bot.py:248-250 | the bot is no longer running, and nothing else changes |

## Left out

- Asynchronous scheduling is not modelled: `run_async`, `gather` and the sleeps between cycles, slices and bundles. Engines run in registration order, which is the order the synchronous run uses.
- The reasons and statuses that `run_and_assert` writes onto a decision it then drops are not modelled: no caller can observe them.
- `size_position` is a function returning the updated action. The in-place mutation of the caller's action, and its aliasing with the decision, are not modelled.
- The `else` branch of the onflow Kelly computation is modelled as written; `Onflow.EffectiveVolatility` proves the volatility is always positive, so it is never taken.
- Writing metrics and reports to files, creating directories, and printing are left out.
- Timestamps, the trading symbol, the bundle hash and free-text messages are left out.
- Gate reasons, decision reasons and slice error texts are enumeration tags, not strings.
- Random draws are parameters: the paper-trading slippage multiplier, the MDP exploration coin and its random kind, the Jito jitter and inclusion draw.
- Snapshots and quotes are parameters. The network fetchers and quote clients are not part of this model.
- In the paper trader, trades are identified by their position in the trade list. Python's list membership by value equality is not modelled.
- Quantities are `real`; IEEE-754 rounding is not modelled.
- The configuration field `risk_per_trade_pct` is never read by the code, so it is not modelled.
- The test files use a different API variant from the code, so they are not modelled.
- Twap.TwapOutcome: `num_slices` is a positive natural number. A zero or negative count, which would divide by zero or produce no slices, is excluded.
- A regime string outside the five known regimes is not modelled: the code raises on it.
- Backtest.Backtest.RunBacktest: requires every bar to have a bid and EMA average for which the gate's divisions are defined (`Replayable`), and a non-zero liquidity score on each bar screened as a trade (`LiquidWhereTraded`). The code would raise on the others. The same requirements are carried by `Backtest.Backtest.ReplayBars`, `Backtest.Backtest.AdvanceBar` and `Backtest.Backtest.ReplayBar`.
- The backtest's constructor takes all components. Their `None` defaults are not modelled.
- Paper.PaperTrader.GetSummary: the source raises on a zero initial balance once a trade is closed; the model returns `None` instead. The backtest and the simulator then carry `None` as their summary, where the source raises and returns no report.
- The simulator's default engines are not modelled. Their answers are inputs, like those of any injected ensemble.
- Simulator.MarketSimulator.RunIteration: requires a non-zero liquidity score whenever trades are executed. This is stronger than the code, which only divides by it when a trade actually happens. The same requirement is carried by `Simulator.MarketSimulator.ExecuteApproved`, `Simulator.MarketSimulator.RunCycle`, and `Simulator.MarketSimulator.RunIterations` and `Simulator.MarketSimulator.RunSimulation` through `Simulable`.
- Bot.LiveBot.RunCycle: requires a non-zero liquidity score on every snapshot. This is stronger than the code, which only divides by it when an approved, non-hold action is executed. The same requirement is carried by `Bot.LiveBot.Respond`, `Bot.LiveBot.Act`, `Bot.LiveBot.RunLoop` and `Bot.LiveBot.CycleAndWait`.
- Any mode other than simulation is treated as live, as the code's `else` branch does.
- The paper-trade report's constant `"pnl": 0` field and the metrics path are not modelled.
- Exceptions inside a cycle are not modelled, except for the snapshot source running out, which ends the live loop. This also leaves out the simulator's `run_cycle` not restoring its flag on an exception.
- Bot.LiveBot.RunLoop: the failed fetch is reported as `fetchFailed`; the source lets the exception propagate to the caller after the loop has stopped.
- The dashboard, the network adapters, the mock quote client, the protocol declarations and the command-line tools are not part of this model.
