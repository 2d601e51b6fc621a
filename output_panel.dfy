/**
 * The cost composition behind the output panel: for one book and one set of
 * input parameters, the four engine results are computed in a fixed dataflow
 * at the mid price and combined into a net cost. Also the two display
 * conversions whose arithmetic matters (maker/taker percentages and latency
 * in milliseconds); the string formatting itself is not modelled.
 */
module OutputPanel {
  import opened Wrappers
  import opened OrderBook
  import opened RealArith
  import opened TradingModels

  /** The values of the input panel, volatility already converted from percent to a fraction. */
  datatype TradeParams = TradeParams(
    exchange: string,
    spotAsset: string,
    orderType: string,
    quantity: real,
    volatility: real,
    feeTier: string)

  /** The five numbers the panel shows for a tick. */
  datatype Metrics = Metrics(
    makerShare: real,
    slippage: real,
    fees: real,
    marketImpact: real,
    netCost: real)

  /**
   * The net cost of line 166: the notional grossed up by the slippage, plus
   * the fee and the impact. No component that is a cost lowers it below the
   * notional.
   */
  function NetCost(notional: real, slippage: real, fees: real, impact: real): (c: real)
    ensures notional >= 0.0 && slippage >= 0.0 && fees >= 0.0 && impact >= 0.0 ==> c >= notional
    ensures slippage == 0.0 ==> c == notional + fees + impact
  {
    var grossed := notional * (1.0 + slippage);
    assert grossed == notional + notional * slippage;
    assert notional >= 0.0 && slippage >= 0.0 ==> grossed >= notional by {
      if notional >= 0.0 && slippage >= 0.0 {
        MulNonneg(notional, slippage);
      }
    }
    grossed + fees + impact
  }

  /**
   * `update_metrics`: the maker share first, then slippage, then the fee at
   * the mid price with that maker share, then the impact at the mid price,
   * and the net cost from those.
   */
  function ComputeMetrics(book: Option<Book>, params: TradeParams, midPrice: real, exp: real -> PositiveReal): (m: Metrics)
    ensures 0.0 <= m.makerShare <= MaxMakerShare
    ensures m.slippage >= 0.0
    ensures m.netCost == NetCost(params.quantity * midPrice, m.slippage, m.fees, m.marketImpact)
  {
    var makerShare := MakerTaker(book, exp);
    var slippage := Slippage(book, params.quantity, params.orderType);
    var fees := Fees(params.exchange, params.feeTier, params.quantity, midPrice, makerShare);
    var impact := MarketImpact(book, params.quantity, params.volatility, midPrice);
    Metrics(makerShare, slippage, fees, impact, NetCost(params.quantity * midPrice, slippage, fees, impact))
  }

  /**
   * With a non-negative quantity, mid price and volatility no component is a
   * credit, so the net cost is never below the notional at the mid price.
   */
  lemma NetCostAtLeastNotional(book: Option<Book>, params: TradeParams, midPrice: real, exp: real -> PositiveReal)
    requires params.quantity >= 0.0 && midPrice >= 0.0 && params.volatility >= 0.0
    ensures var m := ComputeMetrics(book, params, midPrice, exp);
      && m.fees >= 0.0 && m.marketImpact >= 0.0
      && m.netCost >= params.quantity * midPrice
  {
    var m := ComputeMetrics(book, params, midPrice, exp);
    MetricsDataflow(book, params, midPrice, exp);
    FeesNonnegative(params.exchange, params.feeTier, params.quantity, midPrice, m.makerShare);
    MulNonneg(params.quantity, midPrice);
  }

  /**
   * The fee is charged on the mid-price notional with the maker share
   * predicted for the same book, the impact is taken at the mid price with
   * the input volatility, and the net cost combines the mid-price notional
   * with those.
   */
  lemma MetricsDataflow(book: Option<Book>, params: TradeParams, midPrice: real, exp: real -> PositiveReal)
    ensures var m := ComputeMetrics(book, params, midPrice, exp);
      && m.fees == Fees(params.exchange, params.feeTier, params.quantity, midPrice, m.makerShare)
      && m.makerShare == MakerTaker(book, exp)
      && m.marketImpact == MarketImpact(book, params.quantity, params.volatility, midPrice)
      && m.slippage == Slippage(book, params.quantity, params.orderType)
      && m.netCost == NetCost(params.quantity * midPrice, m.slippage, m.fees, m.marketImpact)
  {
  }

  /** A limit order has no slippage: the net cost is the plain notional plus fee plus impact. */
  lemma NetCostNonMarket(book: Option<Book>, params: TradeParams, midPrice: real, exp: real -> PositiveReal)
    requires params.orderType != "market"
    ensures var m := ComputeMetrics(book, params, midPrice, exp);
      m.slippage == 0.0 && m.netCost == params.quantity * midPrice + m.fees + m.marketImpact
  {
    MetricsDataflow(book, params, midPrice, exp);
  }

  /**
   * Without a book: no maker share, no slippage, the fee at the taker rate
   * and the 0.5% impact fallback, all on the mid-price notional.
   */
  lemma MetricsWithoutBook(params: TradeParams, midPrice: real, exp: real -> PositiveReal)
    ensures var m, notional := ComputeMetrics(None, params, midPrice, exp), params.quantity * midPrice;
      && m.makerShare == 0.0 && m.slippage == 0.0
      && m.fees == notional * RatesFor(params.exchange, params.feeTier).taker
      && m.marketImpact == notional * FallbackImpactRate
      && m.netCost == notional + notional * RatesFor(params.exchange, params.feeTier).taker + notional * FallbackImpactRate
  {
    var rate := RatesFor(params.exchange, params.feeTier);
    assert BlendedRate(rate, 0.0) == rate.taker;
  }

  /** The maker and taker shares as the two percentages of the "maker% / taker%" label. */
  function MakerTakerPercentages(makerShare: real): (r: (real, real))
    ensures r.0 + r.1 == 100.0
    ensures r.0 / 100.0 == makerShare
    ensures 0.0 <= makerShare <= MaxMakerShare ==> 0.0 <= r.0 <= 80.0 && 20.0 <= r.1 <= 100.0
  {
    (makerShare * 100.0, (1.0 - makerShare) * 100.0)
  }

  /** The latency label: the average decode time in seconds shown in milliseconds. */
  function LatencyMillis(seconds: real): (ms: real)
    ensures ms / 1000.0 == seconds
    ensures seconds >= 0.0 <==> ms >= 0.0
  {
    seconds * 1000.0
  }
}
