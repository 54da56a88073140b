// Position sizing: turns an approved action into a sized one, with the
// allocation fraction driven by confidence, liquidity and volatility, and a
// leverage that grows with confidence and shrinks in volatile markets.

module Leverage {
  import opened Types

  datatype LeverageConfig = LeverageConfig(
    maxLeverage: real,
    maxPositionPct: real,
    minPositionPct: real,
    riskPerTradePct: real,
    accountBalance: real)

  const DefaultLeverageConfig := LeverageConfig(5.0, 0.35, 0.01, 0.02, 100.0)

  /** Volatility above which allocation and leverage are cut. */
  const HighVolatility: real := 0.05

  const AllocationPctKey: string := "allocation_pct"
  const AccountBalanceKey: string := "account_balance"

  /** The balance sized against: the argument unless it is missing or zero, else the configured one. */
  function EffectiveBalance(cfg: LeverageConfig, accountBalance: Option<real>): (b: real)
    ensures accountBalance.None? || accountBalance.value == 0.0 ==> b == cfg.accountBalance
    ensures accountBalance.Some? && accountBalance.value != 0.0 ==> b == accountBalance.value
  {
    if accountBalance.Some? && accountBalance.value != 0.0 then accountBalance.value else cfg.accountBalance
  }

  /**
   * The fraction of the balance to commit: confidence times the maximum,
   * raised to the minimum, scaled by liquidity, cut by 30% in volatile
   * markets, and capped at the maximum.
   */
  function AllocationPct(cfg: LeverageConfig, confidence: real, m: MarketState): (p: real)
    ensures p <= cfg.maxPositionPct
    ensures (0.0 <= confidence && 0.0 <= cfg.minPositionPct && 0.0 <= m.liquidityScore
      && 0.0 <= cfg.maxPositionPct) ==> 0.0 <= p
  {
    var base := Max(cfg.minPositionPct, confidence * cfg.maxPositionPct);
    var liquid := base * m.liquidityScore;
    var damped := if m.volatility > HighVolatility then liquid * 0.7 else liquid;
    NonNegativeProduct(base, m.liquidityScore);
    Min(damped, cfg.maxPositionPct)
  }

  lemma ScaledRange(c: real, span: real)
    ensures 0.0 <= c <= 1.0 && span >= 0.0 ==> 0.0 <= c * span <= span
  {
    if 0.0 <= c <= 1.0 && span >= 0.0 {
      MultiplyMonotone(c, 1.0, span);
      NonNegativeProduct(c, span);
    }
  }

  lemma NonNegativeProduct(a: real, b: real)
    ensures a >= 0.0 && b >= 0.0 ==> a * b >= 0.0
  {
  }

  /**
   * Leverage grows linearly with confidence from 1 to the maximum, and in
   * volatile markets is cut to 60%, but never below 1.
   */
  function SizedLeverage(cfg: LeverageConfig, confidence: real, volatility: real): (l: real)
    ensures 0.0 <= confidence <= 1.0 && cfg.maxLeverage >= 1.0 ==> 1.0 <= l <= cfg.maxLeverage
    ensures volatility > HighVolatility ==> l >= 1.0
    ensures l <= Max(1.0, cfg.maxLeverage)
  {
    var base := Min(1.0 + confidence * (cfg.maxLeverage - 1.0), cfg.maxLeverage);
    ScaledRange(confidence, cfg.maxLeverage - 1.0);
    if volatility > HighVolatility then Max(1.0, base * 0.6) else base
  }

  /**
   * The sized action: same kind and confidence, size = balance × allocation,
   * the computed leverage, the snapshot's price, and the allocation and
   * balance recorded in the metadata.
   */
  function SizePosition(cfg: LeverageConfig, action: Action, m: MarketState, accountBalance: Option<real>): (r: Action)
    ensures r.actionType == action.actionType && r.confidence == action.confidence
    ensures r.size == EffectiveBalance(cfg, accountBalance) * AllocationPct(cfg, action.confidence, m)
    ensures r.leverage == SizedLeverage(cfg, action.confidence, m.volatility)
    ensures r.price == Some(m.price)
    ensures r.metadata == action.metadata[AllocationPctKey := AllocationPct(cfg, action.confidence, m)]
      [AccountBalanceKey := EffectiveBalance(cfg, accountBalance)]
  {
    var balance := EffectiveBalance(cfg, accountBalance);
    var allocation := AllocationPct(cfg, action.confidence, m);
    action.(size := balance * allocation,
            leverage := SizedLeverage(cfg, action.confidence, m.volatility),
            price := Some(m.price),
            metadata := action.metadata[AllocationPctKey := allocation][AccountBalanceKey := balance])
  }

  /**
   * The size never exceeds the balance times the maximum position fraction,
   * and is non-negative, for a non-negative balance.
   */
  lemma SizeWithinLimit(cfg: LeverageConfig, action: Action, m: MarketState, accountBalance: Option<real>)
    requires EffectiveBalance(cfg, accountBalance) >= 0.0
    requires ValidAction(action) && ValidMarketState(m)
    requires 0.0 <= cfg.minPositionPct && 0.0 <= cfg.maxPositionPct
    ensures var r := SizePosition(cfg, action, m, accountBalance);
      0.0 <= r.size <= EffectiveBalance(cfg, accountBalance) * cfg.maxPositionPct
  {
    var balance := EffectiveBalance(cfg, accountBalance);
    var allocation := AllocationPct(cfg, action.confidence, m);
    MultiplyMonotone(allocation, cfg.maxPositionPct, balance);
    NonNegativeProduct(allocation, balance);
    assert allocation * balance == balance * allocation;
    assert cfg.maxPositionPct * balance == balance * cfg.maxPositionPct;
  }

  /**
   * Sizing a valid action with a sensible configuration (leverage cap within
   * the action's [1,5] range) and a non-negative balance yields a valid action.
   */
  lemma SizedActionValid(cfg: LeverageConfig, action: Action, m: MarketState, accountBalance: Option<real>)
    requires EffectiveBalance(cfg, accountBalance) >= 0.0
    requires ValidAction(action) && ValidMarketState(m)
    requires 0.0 <= cfg.minPositionPct && 0.0 <= cfg.maxPositionPct && 1.0 <= cfg.maxLeverage <= 5.0
    ensures ValidAction(SizePosition(cfg, action, m, accountBalance))
  {
    SizeWithinLimit(cfg, action, m, accountBalance);
  }

  /** In a volatile market the allocation is 70% of the calm-market one, before the cap. */
  lemma VolatileMarketCut(cfg: LeverageConfig, confidence: real, calm: MarketState, volatile: MarketState)
    requires calm.liquidityScore == volatile.liquidityScore
    requires calm.volatility <= HighVolatility < volatile.volatility
    requires 0.0 <= confidence && 0.0 <= cfg.minPositionPct && 0.0 <= calm.liquidityScore
    requires AllocationPct(cfg, confidence, calm) < cfg.maxPositionPct
    ensures AllocationPct(cfg, confidence, volatile) == AllocationPct(cfg, confidence, calm) * 0.7
    ensures SizedLeverage(cfg, confidence, volatile.volatility)
      == Max(1.0, SizedLeverage(cfg, confidence, calm.volatility) * 0.6)
  {
    var base := Max(cfg.minPositionPct, confidence * cfg.maxPositionPct);
    NonNegativeProduct(base, calm.liquidityScore);
  }

  /** The answer of the margin provider. */
  datatype MarginResponse = MarginResponse(
    approved: bool,
    size: real,
    leverage: real,
    collateralRequired: real,
    interestRate: real)

  /**
   * The margin request: always approved at a 0.0001 rate, echoing size and
   * leverage; without explicit collateral, the collateral is size / leverage,
   * which the leverage multiplies back to the size.
   */
  function RequestMargin(size: real, leverage: real, collateral: Option<real>): (r: MarginResponse)
    requires collateral.Some? || leverage != 0.0
    ensures r.approved && r.size == size && r.leverage == leverage && r.interestRate == 0.0001
    ensures collateral.Some? ==> r.collateralRequired == collateral.value
    ensures collateral.None? ==> r.collateralRequired * leverage == size
  {
    var c := if collateral.Some? then collateral.value else size / leverage;
    MarginResponse(true, size, leverage, c, 0.0001)
  }
}
