// Simulated bundle submission: a latency with a floor, a size- and
// liquidity-driven slippage, a tip and network fee priced in the market's
// quote currency, and a bundle that is included or not. The two random draws
// (the latency jitter and the inclusion draw) are parameters.

module Jito {
  import opened Types

  datatype JitoConfig = JitoConfig(
    baseLatencyMs: real,
    latencyVarianceMs: real,
    jitoTipLamports: real,
    slippageFactor: real)

  const DefaultJitoConfig := JitoConfig(150.0, 50.0, 10000.0, 0.001)

  /** The probability with which a bundle is included in a block. */
  const InclusionRate: real := 0.95

  /** The floor on the simulated latency, in milliseconds. */
  const MinLatencyMs: real := 50.0

  /** The network fee, in the base currency (5000 lamports). */
  const NetworkFee: real := 0.000005

  datatype BundleReport =
    | NotIncluded(latencyMs: real, jitoTipUsd: real)
    | Included(
        actionType: ActionType,
        size: real,
        leverage: real,
        requestedPrice: real,
        fillPrice: real,
        slippagePct: real,
        latencyMs: real,
        jitoTipUsd: real,
        networkFeeUsd: real,
        totalFeesUsd: real)

  /** The base latency plus the jitter draw, but never below the floor. */
  function Latency(cfg: JitoConfig, jitter: real): (l: real)
    ensures l >= MinLatencyMs
    ensures cfg.baseLatencyMs + jitter >= MinLatencyMs ==> l == cfg.baseLatencyMs + jitter
  {
    Max(MinLatencyMs, cfg.baseLatencyMs + jitter)
  }

  /** The slippage percentage: the factor times the size relative to 10000, over the liquidity, as a percentage. */
  function BundleSlippagePct(cfg: JitoConfig, size: real, liquidityScore: real): real
    requires liquidityScore != 0.0
  {
    cfg.slippageFactor * (size / 10000.0) * (1.0 / liquidityScore) * 100.0
  }

  /** With a non-negative factor and size and a positive liquidity, slippage is not negative. */
  lemma SlippageNonNegative(cfg: JitoConfig, size: real, liquidityScore: real)
    requires cfg.slippageFactor >= 0.0 && size >= 0.0 && liquidityScore > 0.0
    ensures BundleSlippagePct(cfg, size, liquidityScore) >= 0.0
  {
    var impact := size / 10000.0;
    var inverse := 1.0 / liquidityScore;
    MultiplyMonotone(0.0, cfg.slippageFactor, impact);
    MultiplyMonotone(0.0, cfg.slippageFactor * impact, inverse);
  }

  /** A buy fills above the market price by the slippage, anything else below it. */
  function FillPrice(t: ActionType, price: real, slippagePct: real): real
  {
    if t == Buy then price * (1.0 + slippagePct / 100.0) else price * (1.0 - slippagePct / 100.0)
  }

  /** With non-negative slippage and price, a buy fills at or above the market price, anything else at or below. */
  lemma FillPriceSide(t: ActionType, price: real, slippagePct: real)
    requires price >= 0.0 && slippagePct >= 0.0
    ensures t == Buy ==> FillPrice(t, price, slippagePct) >= price
    ensures t != Buy ==> FillPrice(t, price, slippagePct) <= price
  {
    MultiplyMonotone(0.0, slippagePct / 100.0, price);
    assert price * (1.0 + slippagePct / 100.0) == price + slippagePct / 100.0 * price;
    assert price * (1.0 - slippagePct / 100.0) == price - slippagePct / 100.0 * price;
  }

  /** The validator tip, converted from lamports at the market price. */
  function TipUsd(cfg: JitoConfig, price: real): real
  {
    cfg.jitoTipLamports / 1000000000.0 * price
  }

  function NetworkFeeUsd(price: real): real
  {
    NetworkFee * price
  }

  /** Both fees are proportional to the price, and not negative for a non-negative tip and price. */
  lemma FeesProportional(cfg: JitoConfig, price: real)
    ensures TipUsd(cfg, price) + NetworkFeeUsd(price) == (cfg.jitoTipLamports / 1000000000.0 + NetworkFee) * price
    ensures cfg.jitoTipLamports >= 0.0 && price >= 0.0 ==> TipUsd(cfg, price) >= 0.0 && NetworkFeeUsd(price) >= 0.0
  {
    if cfg.jitoTipLamports >= 0.0 && price >= 0.0 {
      MultiplyMonotone(0.0, cfg.jitoTipLamports / 1000000000.0, price);
    }
  }

  /**
   * Submits a bundle for the action. The bundle is included exactly when the
   * inclusion draw is below the inclusion rate; a bundle that is not
   * included reports only its latency and tip. An included one reports the
   * action's kind, size and leverage, the market price as requested, the
   * fill price, the slippage and the fees.
   */
  function ExecuteBundle(cfg: JitoConfig, action: Action, m: MarketState, jitter: real, inclusionDraw: real): (r: BundleReport)
    requires m.liquidityScore != 0.0
    ensures r.Included? <==> inclusionDraw < InclusionRate
    ensures r.latencyMs == Latency(cfg, jitter) && r.jitoTipUsd == TipUsd(cfg, m.price)
    ensures r.Included? ==> (r.actionType == action.actionType && r.size == action.size
                             && r.leverage == action.leverage && r.requestedPrice == m.price)
    ensures r.Included? ==> (r.slippagePct == BundleSlippagePct(cfg, action.size, m.liquidityScore)
                             && r.fillPrice == FillPrice(action.actionType, m.price, r.slippagePct))
    ensures r.Included? ==> (r.networkFeeUsd == NetworkFeeUsd(m.price)
                             && r.totalFeesUsd == r.jitoTipUsd + r.networkFeeUsd)
  {
    var latency := Latency(cfg, jitter);
    var slippage := BundleSlippagePct(cfg, action.size, m.liquidityScore);
    var fill := FillPrice(action.actionType, m.price, slippage);
    var tip := TipUsd(cfg, m.price);
    var network := NetworkFeeUsd(m.price);
    if !(inclusionDraw < InclusionRate) then
      NotIncluded(latency, tip)
    else
      Included(action.actionType, action.size, action.leverage, m.price, fill, slippage, latency, tip, network, tip + network)
  }

  /**
   * For a valid action on a valid snapshot, an included buy never fills below
   * the market price and any other included kind never above it.
   */
  lemma IncludedFillSide(cfg: JitoConfig, action: Action, m: MarketState, jitter: real, inclusionDraw: real)
    requires ValidAction(action) && ValidMarketState(m) && m.liquidityScore > 0.0 && cfg.slippageFactor >= 0.0
    requires inclusionDraw < InclusionRate
    ensures var r := ExecuteBundle(cfg, action, m, jitter, inclusionDraw);
      (action.actionType == Buy ==> r.fillPrice >= m.price) && (action.actionType != Buy ==> r.fillPrice <= m.price)
  {
    SlippageNonNegative(cfg, action.size, m.liquidityScore);
    FillPriceSide(action.actionType, m.price, BundleSlippagePct(cfg, action.size, m.liquidityScore));
  }

  /** Executing an action is submitting it as a bundle. */
  function ExecuteAction(cfg: JitoConfig, action: Action, m: MarketState, jitter: real, inclusionDraw: real): (r: BundleReport)
    requires m.liquidityScore != 0.0
    ensures r == ExecuteBundle(cfg, action, m, jitter, inclusionDraw)
  {
    ExecuteBundle(cfg, action, m, jitter, inclusionDraw)
  }
}
