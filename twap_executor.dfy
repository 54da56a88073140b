// Time-weighted execution: an order is cut into equal slices, each priced by
// the quote source and filled only when the quoted slippage is within
// tolerance. The quote source is the sequence of its answers, one per slice.

module Twap {
  import opened Types

  datatype TwapConfig = TwapConfig(numSlices: nat, sliceIntervalSec: real, slippageTolerancePct: real)

  const DefaultTwapConfig := TwapConfig(5, 2.0, 1.0)

  /** A quote; each field may be missing from the answer. */
  datatype Quote = Quote(price: Option<real>, slippagePct: Option<real>, fees: Option<real>)

  /** The quote source's answer for one slice: a quote, or a raised error. */
  datatype QuoteResult = Quoted(quote: Quote) | QuoteError

  datatype SliceStatus = Filled | Rejected | Error

  /** One slice's report; fields the source leaves out of a report are None. */
  datatype SliceReport = SliceReport(
    slice: nat,
    status: SliceStatus,
    size: real,
    fillPrice: Option<real>,
    slippagePct: Option<real>,
    fees: Option<real>,
    cost: Option<real>)

  datatype TwapReport = TwapReport(
    success: bool,
    actionType: ActionType,
    requestedSize: real,
    filledSize: real,
    fillRate: real,
    avgFillPrice: real,
    totalCost: real,
    numSlices: nat,
    filledSlices: nat,
    rejectedSlices: nat,
    sliceReports: seq<SliceReport>)

  /**
   * The report of slice number `n`: an error when the quote failed; rejected
   * when the quoted slippage (0 if missing) exceeds the tolerance; otherwise
   * filled at the quoted price (the market price if missing) with the quoted
   * fees (0 if missing).
   */
  function Slice(n: nat, q: QuoteResult, sliceSize: real, tolerance: real, marketPrice: real): (s: SliceReport)
    ensures s.slice == n && s.size == sliceSize
    ensures s.status == Error <==> q.QuoteError?
    ensures s.status == Rejected <==> q.Quoted? && GetOr(q.quote.slippagePct, 0.0) > tolerance
    ensures s.status == Filled ==> s.cost.Some?
  {
    match q
    case QuoteError => SliceReport(n, Error, sliceSize, None, None, None, None)
    case Quoted(quote) =>
      var slippage := GetOr(quote.slippagePct, 0.0);
      if slippage > tolerance then
        SliceReport(n, Rejected, sliceSize, None, Some(slippage), None, None)
      else
        var price := GetOr(quote.price, marketPrice);
        var fees := GetOr(quote.fees, 0.0);
        SliceReport(n, Filled, sliceSize, Some(price), Some(slippage), Some(fees), Some(SliceCost(sliceSize, price, fees)))
  }

  /** What a filled slice costs: its value at the fill price plus the fees. */
  function SliceCost(sliceSize: real, fillPrice: real, fees: real): real
  {
    sliceSize * fillPrice + fees
  }

  /** The reports of the slices, numbered from 1, one per answer of the quote source. */
  function Reports(quotes: seq<QuoteResult>, sliceSize: real, tolerance: real, marketPrice: real): (rs: seq<SliceReport>)
    ensures |rs| == |quotes|
  {
    if quotes == [] then []
    else
      Reports(quotes[..|quotes| - 1], sliceSize, tolerance, marketPrice)
        + [Slice(|quotes|, quotes[|quotes| - 1], sliceSize, tolerance, marketPrice)]
  }

  /** Report i is slice i + 1's outcome on answer i. */
  lemma {:induction false} ReportsSpec(quotes: seq<QuoteResult>, sliceSize: real, tolerance: real, marketPrice: real)
    ensures var rs := Reports(quotes, sliceSize, tolerance, marketPrice);
      forall i :: 0 <= i < |rs| ==> rs[i] == Slice(i + 1, quotes[i], sliceSize, tolerance, marketPrice)
    decreases |quotes|
  {
    if quotes != [] {
      var front := quotes[..|quotes| - 1];
      ReportsSpec(front, sliceSize, tolerance, marketPrice);
      assert forall i :: 0 <= i < |front| ==> front[i] == quotes[i];
    }
  }

  /** How many slices filled. */
  function FilledCount(rs: seq<SliceReport>): (n: nat)
    ensures n <= |rs|
  {
    if rs == [] then 0
    else FilledCount(rs[..|rs| - 1]) + (if rs[|rs| - 1].status == Filled then 1 else 0)
  }

  /** No slice filled exactly when the count of filled slices is zero. */
  lemma {:induction false} NoneFilled(rs: seq<SliceReport>)
    ensures FilledCount(rs) == 0 <==> forall i :: 0 <= i < |rs| ==> rs[i].status != Filled
    decreases |rs|
  {
    if rs != [] {
      var front := rs[..|rs| - 1];
      NoneFilled(front);
      assert forall i :: 0 <= i < |front| ==> front[i] == rs[i];
    }
  }

  /** The cost of the filled slices. */
  function CostSum(rs: seq<SliceReport>): real
  {
    if rs == [] then 0.0
    else CostSum(rs[..|rs| - 1]) + (if rs[|rs| - 1].status == Filled then GetOr(rs[|rs| - 1].cost, 0.0) else 0.0)
  }

  /**
   * The execution report: the slice size is the order size over the slice
   * count; the filled size is the filled slices' total size; every slice
   * that did not fill is counted as rejected; the average fill price is the
   * total cost over the filled size, or the market price when nothing
   * filled; the order succeeds when not every slice was rejected.
   */
  function TwapOutcome(cfg: TwapConfig, action: Action, m: MarketState, quotes: seq<QuoteResult>): (r: TwapReport)
    requires cfg.numSlices > 0 && |quotes| == cfg.numSlices
    ensures r.numSlices == cfg.numSlices && |r.sliceReports| == cfg.numSlices
    ensures r.filledSlices + r.rejectedSlices == r.numSlices
    ensures r.requestedSize == action.size && r.actionType == action.actionType
  {
    var sliceSize := action.size / cfg.numSlices as real;
    var reports := Reports(quotes, sliceSize, cfg.slippageTolerancePct, m.price);
    var filledSlices := FilledCount(reports);
    var rejected := cfg.numSlices - filledSlices;
    var filled := Accumulated(filledSlices, sliceSize);
    var cost := CostSum(reports);
    TwapReport(
      rejected < cfg.numSlices,
      action.actionType,
      action.size,
      filled,
      if action.size > 0.0 then filled / action.size else 0.0,
      if filled > 0.0 then cost / filled else m.price,
      cost,
      cfg.numSlices,
      cfg.numSlices - rejected,
      rejected,
      reports)
  }

  /**
   * Every slice asks for the same share of the order, and the reports are
   * numbered 1 to the slice count in order.
   */
  lemma SlicesNumbered(cfg: TwapConfig, action: Action, m: MarketState, quotes: seq<QuoteResult>)
    requires cfg.numSlices > 0 && |quotes| == cfg.numSlices
    ensures var r := TwapOutcome(cfg, action, m, quotes);
      forall i :: 0 <= i < |r.sliceReports| ==>
        r.sliceReports[i].slice == i + 1 && r.sliceReports[i].size == action.size / cfg.numSlices as real
  {
    ReportsSpec(quotes, action.size / cfg.numSlices as real, cfg.slippageTolerancePct, m.price);
  }

  /** The order succeeds exactly when some slice filled. */
  lemma SuccessIffFilled(cfg: TwapConfig, action: Action, m: MarketState, quotes: seq<QuoteResult>)
    requires cfg.numSlices > 0 && |quotes| == cfg.numSlices
    ensures var r := TwapOutcome(cfg, action, m, quotes);
      r.success <==> exists i :: 0 <= i < |r.sliceReports| && r.sliceReports[i].status == Filled
  {
    NoneFilled(TwapOutcome(cfg, action, m, quotes).sliceReports);
  }

  /**
   * For a non-negative order size, the filled size is between 0 and the
   * order size and the fill rate is in [0,1].
   */
  lemma FillBounds(cfg: TwapConfig, action: Action, m: MarketState, quotes: seq<QuoteResult>)
    requires cfg.numSlices > 0 && |quotes| == cfg.numSlices && action.size >= 0.0
    ensures var r := TwapOutcome(cfg, action, m, quotes);
      0.0 <= r.filledSize <= action.size && 0.0 <= r.fillRate <= 1.0
  {
    var reports := Reports(quotes, action.size / cfg.numSlices as real, cfg.slippageTolerancePct, m.price);
    FilledPartBounds(FilledCount(reports), cfg.numSlices, action.size);
  }

  lemma FilledPartBounds(k: nat, n: nat, size: real)
    requires 0 < n && k <= n && size >= 0.0
    ensures 0.0 <= Accumulated(k, size / n as real) <= size
    ensures 0.0 <= (if size > 0.0 then Accumulated(k, size / n as real) / size else 0.0) <= 1.0
  {
    AccumulatedIsProduct(k, size / n as real);
    ShareBounds(k, n, size);
    RateBounds(Accumulated(k, size / n as real), size);
  }

  /** k of n equal shares of a non-negative size are between nothing and all of it. */
  lemma ShareBounds(k: nat, n: nat, size: real)
    requires 0 < n && k <= n && size >= 0.0
    ensures 0.0 <= k as real * (size / n as real) <= size
  {
    var share := size / n as real;
    MultiplyMonotone(k as real, n as real, share);
    MultiplyMonotone(0.0, k as real, share);
    assert n as real * share == size;
  }

  lemma RateBounds(part: real, whole: real)
    requires 0.0 <= part <= whole
    ensures 0.0 <= (if whole > 0.0 then part / whole else 0.0) <= 1.0
  {
    if whole > 0.0 {
      DivideMonotone(part, whole, whole);
      DivideMonotone(0.0, part, whole);
    }
  }

  /** The size of `k` filled slices, accumulated one slice at a time. */
  function Accumulated(k: nat, share: real): real
  {
    if k == 0 then 0.0 else Accumulated(k - 1, share) + share
  }

  /** Accumulating `k` slices is multiplying the slice size by `k`. */
  lemma {:induction false} AccumulatedIsProduct(k: nat, share: real)
    ensures Accumulated(k, share) == k as real * share
  {
    if k > 0 {
      AccumulatedIsProduct(k - 1, share);
      assert k as real * share == (k - 1) as real * share + share;
    }
  }

  /**
   * When every quote comes back over the tolerance, nothing fills, the order
   * fails, and the average fill price is the market price.
   */
  lemma AllOverTolerance(cfg: TwapConfig, action: Action, m: MarketState, quotes: seq<QuoteResult>)
    requires cfg.numSlices > 0 && |quotes| == cfg.numSlices
    requires forall i :: 0 <= i < |quotes| ==>
      quotes[i].Quoted? && GetOr(quotes[i].quote.slippagePct, 0.0) > cfg.slippageTolerancePct
    ensures var r := TwapOutcome(cfg, action, m, quotes);
      r.filledSlices == 0 && r.rejectedSlices == cfg.numSlices && r.filledSize == 0.0
      && !r.success && r.avgFillPrice == m.price
  {
    var reports := TwapOutcome(cfg, action, m, quotes).sliceReports;
    ReportsSpec(quotes, action.size / cfg.numSlices as real, cfg.slippageTolerancePct, m.price);
    NoneFilled(reports);
    assert forall i :: 0 <= i < |reports| ==> reports[i].status == Rejected;
  }

  /**
   * One slice: an error report when the quote failed; a rejection when the
   * quoted slippage exceeds the tolerance; otherwise a fill at the quoted
   * price, costing the slice's value plus the quoted fees.
   */
  method ExecuteSlice(n: nat, q: QuoteResult, sliceSize: real, tolerance: real, marketPrice: real)
    returns (report: SliceReport)
    ensures report == Slice(n, q, sliceSize, tolerance, marketPrice)
  {
    match q {
      case QuoteError =>
        report := SliceReport(n, Error, sliceSize, None, None, None, None);
      case Quoted(quote) =>
        var slippage := GetOr(quote.slippagePct, 0.0);
        if slippage > tolerance {
          report := SliceReport(n, Rejected, sliceSize, None, Some(slippage), None, None);
        } else {
          var fillPrice := GetOr(quote.price, marketPrice);
          var fees := GetOr(quote.fees, 0.0);
          var sliceCost := SliceCost(sliceSize, fillPrice, fees);
          report := SliceReport(n, Filled, sliceSize, Some(fillPrice), Some(slippage), Some(fees), Some(sliceCost));
        }
    }
  }

  /**
   * The slice loop: requests a quote per slice, rejects a slice whose
   * slippage exceeds the tolerance, records an error slice when the quote
   * fails, and otherwise fills the slice, accumulating size and cost.
   */
  method RunSlices(quotes: seq<QuoteResult>, sliceSize: real, tolerance: real, marketPrice: real)
    returns (reports: seq<SliceReport>, totalFilled: real, totalCost: real, rejected: nat)
    ensures reports == Reports(quotes, sliceSize, tolerance, marketPrice)
    ensures rejected == |quotes| - FilledCount(reports)
    ensures totalFilled == Accumulated(FilledCount(reports), sliceSize)
    ensures totalCost == CostSum(reports)
  {
    reports := [];
    totalFilled := 0.0;
    totalCost := 0.0;
    rejected := 0;
    for i := 0 to |quotes|
      invariant reports == Reports(quotes[..i], sliceSize, tolerance, marketPrice)
      invariant rejected + FilledCount(reports) == i
      invariant totalFilled == Accumulated(FilledCount(reports), sliceSize)
      invariant totalCost == CostSum(reports)
    {
      var report := ExecuteSlice(i + 1, quotes[i], sliceSize, tolerance, marketPrice);
      ReportsStep(quotes, i, sliceSize, tolerance, marketPrice);
      TallyStep(reports, report);
      AccumulatedStep(FilledCount(reports), sliceSize);
      var filled := report.status == Filled;
      totalFilled := if filled then totalFilled + sliceSize else totalFilled;
      totalCost := if filled then totalCost + GetOr(report.cost, 0.0) else totalCost;
      rejected := if filled then rejected else rejected + 1;
      reports := reports + [report];
    }
    assert quotes[..|quotes|] == quotes;
  }

  /** The first i + 1 reports extend the first i by slice i + 1's outcome. */
  lemma ReportsStep(quotes: seq<QuoteResult>, i: nat, sliceSize: real, tolerance: real, marketPrice: real)
    requires i < |quotes|
    ensures Reports(quotes[..i + 1], sliceSize, tolerance, marketPrice)
      == Reports(quotes[..i], sliceSize, tolerance, marketPrice) + [Slice(i + 1, quotes[i], sliceSize, tolerance, marketPrice)]
  {
    assert quotes[..i + 1][..i] == quotes[..i];
  }

  /** One more report adds one to the filled count and its cost to the total when it filled. */
  lemma TallyStep(rs: seq<SliceReport>, r: SliceReport)
    ensures FilledCount(rs + [r]) == FilledCount(rs) + (if r.status == Filled then 1 else 0)
    ensures CostSum(rs + [r]) == CostSum(rs) + (if r.status == Filled then GetOr(r.cost, 0.0) else 0.0)
  {
    assert (rs + [r])[..|rs|] == rs;
  }

  lemma AccumulatedStep(k: nat, share: real)
    ensures Accumulated(k + 1, share) == Accumulated(k, share) + share
  {
  }

  /**
   * Executes an order by time slices: each slice is a share of the order
   * size; the report summarises the slice loop.
   */
  method ExecuteTwap(cfg: TwapConfig, action: Action, m: MarketState, quotes: seq<QuoteResult>) returns (r: TwapReport)
    requires cfg.numSlices > 0 && |quotes| == cfg.numSlices
    ensures r == TwapOutcome(cfg, action, m, quotes)
  {
    var sliceSize := action.size / cfg.numSlices as real;
    var reports, totalFilled, totalCost, rejected :=
      RunSlices(quotes, sliceSize, cfg.slippageTolerancePct, m.price);
    var avgFillPrice := if totalFilled > 0.0 then totalCost / totalFilled else m.price;
    r := TwapReport(
      rejected < cfg.numSlices,
      action.actionType,
      action.size,
      totalFilled,
      if action.size > 0.0 then totalFilled / action.size else 0.0,
      avgFillPrice,
      totalCost,
      cfg.numSlices,
      cfg.numSlices - rejected,
      rejected,
      reports);
  }

  /** Executing an action is executing it by time slices. */
  method ExecuteAction(cfg: TwapConfig, action: Action, m: MarketState, quotes: seq<QuoteResult>) returns (r: TwapReport)
    requires cfg.numSlices > 0 && |quotes| == cfg.numSlices
    ensures r == TwapOutcome(cfg, action, m, quotes)
  {
    r := ExecuteTwap(cfg, action, m, quotes);
  }
}
