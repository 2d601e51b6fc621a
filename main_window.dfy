/**
 * The simulator window as a state machine: the feed client (absent, running
 * or stopped), the latest order book received, the status label and the
 * number of update ticks queued on the UI timer. Start, stop, the feed's
 * callback and the tick are its transitions; every widget call is left out,
 * and what a tick would display is returned instead.
 */
module MainWindow {
  import opened Wrappers
  import opened OrderBook
  import opened TradingModels
  import opened OutputPanel
  import opened WebSocketClient
  import opened BoundedWindow

  /** The feed endpoint; the asset symbol is appended. */
  const FeedUriPrefix: string := "wss://ws.gomarket-cpp.goquant.io/ws/l2-orderbook/okx/"

  /** What one tick puts on the output panel. */
  datatype Panel = Panel(price: real, metrics: Metrics, latencyMs: real)

  /**
   * The mid price of line 162: the best ask and best bid parsed and averaged.
   * None when a side is missing or empty or a best price does not parse.
   */
  function MidPrice(book: Option<Book>): (r: Option<real>)
    ensures r.Some? <==> Quoted(book)
    ensures r.Some? ==> r.value == MidOf(book)
  {
    if book.None? then None
    else match (book.value.asks, book.value.bids)
      case (Some(asks), Some(bids)) =>
        if |asks| == 0 || |bids| == 0 || asks[0].price.None? || bids[0].price.None? then None
        else Some((asks[0].price.value + bids[0].price.value) / 2.0)
      case _ => None
  }

  /**
   * What a running tick shows for the stored book: nothing without a book or
   * a mid price, otherwise the price, the metrics at that mid and the
   * average decode time in milliseconds.
   */
  function TickView(book: Option<Book>, params: TradeParams, exp: real -> PositiveReal, latency: real): (r: Option<Panel>)
    ensures r.Some? <==> Quoted(book)
    ensures r.Some? ==>
      && r.value.price == MidOf(book)
      && r.value.metrics == ComputeMetrics(book, params, MidOf(book), exp)
      && r.value.latencyMs == LatencyMillis(latency)
  {
    match MidPrice(book)
    case None => None
    case Some(mid) => Some(Panel(mid, ComputeMetrics(book, params, mid, exp), LatencyMillis(latency)))
  }

  /**
   * The mid a tick passes to the cost composition is the one slippage
   * measures the fill against: for a market order the book can fill, the
   * slippage shown is the fill price's excess over the shown price, relative
   * to it, floored at zero.
   */
  lemma TickSlippageAgainstShownPrice(book: Option<Book>, params: TradeParams, exp: real -> PositiveReal)
    requires Quoted(book)
    requires params.orderType == "market"
    requires LevelsParse(book.value.asks.value)
    requires SumSizes(book.value.asks.value).value >= params.quantity
    requires params.quantity != 0.0 && MidOf(book) != 0.0
    ensures WalkAsks(book.value.asks.value, 0, params.quantity, 0.0).Complete?
    ensures var asks, k := book.value.asks.value, WalkAsks(book.value.asks.value, 0, params.quantity, 0.0).last;
      var mid := MidPrice(book).value;
      && LevelsParse(asks[..k])
      && ComputeMetrics(book, params, mid, exp).slippage
        == Max0((FillCost(asks, k, params.quantity) / params.quantity - mid) / mid)
  {
    SlippageDeepBook(book, params.quantity);
    MetricsDataflow(book, params, MidOf(book), exp);
  }

  class TradeSimulatorWindow {
    var client: FeedClient?
    var orderbook: Option<Book>
    var status: string
    /** update_loop callbacks queued with root.after and not yet run. */
    var pendingTicks: nat

    ghost predicate Valid()
      reads this, client
    {
      client != null ==> client.Valid()
    }

    /** No client, no book, status "Disconnected", nothing queued. */
    constructor()
      ensures client == null && orderbook == None && status == "Disconnected" && pendingTicks == 0
      ensures Valid()
    {
      client := null;
      orderbook := None;
      status := "Disconnected";
      pendingTicks := 0;
    }

    /**
     * `update_loop`: without a running client it does nothing and is not
     * rescheduled, so the tick chain ends after a stop. A running tick shows
     * the view of the stored book and queues the next tick, whether or not a
     * book could be shown.
     */
    method UpdateLoop(params: TradeParams, exp: real -> PositiveReal) returns (shown: Option<Panel>)
      requires Valid()
      modifies this
      ensures client == old(client) && orderbook == old(orderbook) && status == old(status)
      ensures Valid()
      ensures client != null && client.running ==>
        && pendingTicks == old(pendingTicks) + 1
        && shown == TickView(orderbook, params, exp, client.AverageProcessingTime())
      ensures !(client != null && client.running) ==> pendingTicks == old(pendingTicks) && shown == None
    {
      if client == null || !client.running {
        return None;
      }
      shown := TickView(orderbook, params, exp, client.AverageProcessingTime());
      pendingTicks := pendingTicks + 1;
    }

    /** A queued tick runs: it leaves the queue and may queue its successor. */
    method TimerFires(params: TradeParams, exp: real -> PositiveReal) returns (shown: Option<Panel>)
      requires Valid()
      requires pendingTicks > 0
      modifies this
      ensures client == old(client) && orderbook == old(orderbook) && status == old(status)
      ensures Valid()
      ensures client != null && client.running ==>
        && pendingTicks == old(pendingTicks)
        && shown == TickView(orderbook, params, exp, client.AverageProcessingTime())
      ensures !(client != null && client.running) ==> pendingTicks == old(pendingTicks) - 1 && shown == None
    {
      pendingTicks := pendingTicks - 1;
      shown := UpdateLoop(params, exp);
    }

    /**
     * `start_simulation`: status "Connecting...", a new client for the
     * asset's feed, started, then an immediate tick. The stored book is kept,
     * so a book from an earlier run is shown at once.
     */
    method StartSimulation(asset: string, params: TradeParams, exp: real -> PositiveReal) returns (shown: Option<Panel>)
      modifies this
      ensures Valid()
      ensures client != null && fresh(client)
      ensures client.uri == FeedUriPrefix + asset && client.running && client.processingTimes == []
      ensures status == "Connecting..." && orderbook == old(orderbook)
      ensures pendingTicks == old(pendingTicks) + 1
      ensures shown == TickView(orderbook, params, exp, 0.0)
    {
      status := "Connecting...";
      var feed := new FeedClient(FeedUriPrefix + asset);
      feed.Start();
      client := feed;
      shown := UpdateLoop(params, exp);
    }

    /** `stop_simulation`: stops and drops the client, status "Disconnected"; the book is kept. */
    method StopSimulation()
      modifies this, client
      ensures client == null && status == "Disconnected"
      ensures old(client) != null ==> !old(client).running
      ensures orderbook == old(orderbook) && pendingTicks == old(pendingTicks)
      ensures Valid()
    {
      if client != null {
        client.Stop();
        client := null;
      }
      status := "Disconnected";
    }

    /** `process_orderbook_data`: the message replaces the stored book wholesale; status "Connected". */
    method ProcessOrderbookData(data: Option<Book>)
      requires Valid()
      modifies this
      ensures orderbook == data && status == "Connected"
      ensures client == old(client) && pendingTicks == old(pendingTicks)
      ensures Valid()
    {
      orderbook := data;
      status := "Connected";
    }

    /**
     * The feed's receive loop with this window's callback: the last message
     * delivered becomes the stored book and the status turns "Connected";
     * with nothing delivered the window is unchanged.
     */
    method FeedReceives(frames: seq<Frame>) returns (reconnect: bool)
      requires Valid() && client != null
      modifies this, client
      ensures Valid() && client == old(client)
      ensures client.running == old(client.running)
      ensures client.processingTimes == if old(client.running)
        then LastN(old(client.processingTimes) + Samples(frames), MaxSamples)
        else old(client.processingTimes)
      ensures var messages := if old(client.running) then Delivered(frames) else [];
        && (messages == [] ==> orderbook == old(orderbook) && status == old(status))
        && (messages != [] ==> orderbook == messages[|messages| - 1] && status == "Connected")
      ensures pendingTicks == old(pendingTicks)
      ensures reconnect <==> client.running && ConnectionClosed in frames
    {
      var feed := client;
      var delivered;
      delivered, reconnect := feed.ReceiveLoop(frames);
      var i := 0;
      while i < |delivered|
        invariant 0 <= i <= |delivered|
        invariant client == feed && pendingTicks == old(pendingTicks)
        invariant feed.Valid() && feed.running == old(feed.running)
        invariant feed.processingTimes == if old(feed.running)
          then LastN(old(feed.processingTimes) + Samples(frames), MaxSamples)
          else old(feed.processingTimes)
        invariant i == 0 ==> orderbook == old(orderbook) && status == old(status)
        invariant i > 0 ==> orderbook == delivered[i - 1] && status == "Connected"
      {
        ProcessOrderbookData(delivered[i]);
        i := i + 1;
      }
    }
  }
}
