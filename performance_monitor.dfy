/**
 * The performance monitor: three bounded series (processing times, UI update
 * durations, network latencies), each keeping the last `windowSize` values,
 * and the summary read from them. Clock readings are parameters; the lock
 * around each operation is not modelled, so each operation is atomic here.
 */
module PerformanceMonitor {
  import opened Wrappers
  import opened BoundedWindow

  /** The default capacity of each series. */
  const DefaultWindowSize: nat := 1000

  /** The summary `get_metrics` returns. */
  datatype PerfMetrics = PerfMetrics(
    avgProcessingTime: real,
    maxProcessingTime: real,
    avgUiLatency: real,
    avgNetworkLatency: real,
    messagesPerSecond: real)

  /**
   * The summary of three series, with `first` and `second` the two clock
   * readings taken, in that order, for the rate: the count is divided by
   * first - second, so equal readings raise ZeroDivisionError.
   */
  function Summarize(processing: seq<real>, ui: seq<real>, network: seq<real>, first: real, second: real)
    : (r: Result<PerfMetrics, string>)
    ensures r.Failure? <==> first == second
    ensures r.Success? ==>
      && r.value.avgProcessingTime == Mean(processing)
      && r.value.maxProcessingTime == Max(processing)
      && r.value.avgUiLatency == Mean(ui)
      && r.value.avgNetworkLatency == Mean(network)
      && r.value.messagesPerSecond * (first - second) == |processing| as real
  {
    if first == second then Failure("ZeroDivisionError: float division by zero")
    else Success(PerfMetrics(
      Mean(processing), Max(processing), Mean(ui), Mean(network),
      (|processing| as real) / (first - second)))
  }

  /**
   * With a clock that never runs backwards (second >= first) the rate is
   * never positive: the summary either raises or reports a rate <= 0.
   */
  lemma MessagesPerSecondNeverPositive(processing: seq<real>, ui: seq<real>, network: seq<real>, first: real, second: real)
    requires first <= second
    ensures Summarize(processing, ui, network, first, second).Success? ==>
      Summarize(processing, ui, network, first, second).value.messagesPerSecond <= 0.0
  {
    if first != second {
      var rate := Summarize(processing, ui, network, first, second).value.messagesPerSecond;
      assert -rate * (second - first) == |processing| as real;
      assert -rate >= 0.0 by {
        RealArith.NonnegFactor(-rate, second - first);
      }
    }
  }

  /** A reported maximum processing time is never below the reported average. */
  lemma MaxAtLeastMean(processing: seq<real>, ui: seq<real>, network: seq<real>, first: real, second: real)
    requires Summarize(processing, ui, network, first, second).Success?
    ensures var m := Summarize(processing, ui, network, first, second).value;
      m.avgProcessingTime <= m.maxProcessingTime
  {
    if processing != [] {
      MeanAtMostMax(processing);
    }
  }

  class Monitor {
    const windowSize: nat
    var processingTimes: seq<real>
    var uiUpdateTimes: seq<real>
    var networkLatencies: seq<real>

    ghost predicate Valid()
      reads this
    {
      && |processingTimes| <= windowSize
      && |uiUpdateTimes| <= windowSize
      && |networkLatencies| <= windowSize
    }

    /** Three empty series of capacity `windowSize`, 1000 unless given. */
    constructor(windowSize: nat := DefaultWindowSize)
      ensures this.windowSize == windowSize
      ensures processingTimes == [] && uiUpdateTimes == [] && networkLatencies == []
      ensures Valid()
    {
      this.windowSize := windowSize;
      processingTimes := [];
      uiUpdateTimes := [];
      networkLatencies := [];
    }

    /** `record_processing_time`: the time from `startTime` to the clock reading `now`. */
    method RecordProcessingTime(startTime: real, now: real)
      requires Valid()
      modifies this
      ensures Valid()
      ensures processingTimes == LastN(old(processingTimes) + [now - startTime], windowSize)
      ensures uiUpdateTimes == old(uiUpdateTimes) && networkLatencies == old(networkLatencies)
    {
      processingTimes := Append(processingTimes, now - startTime);
    }

    /** `record_ui_update`: a duration measured by the caller. */
    method RecordUiUpdate(duration: real)
      requires Valid()
      modifies this
      ensures Valid()
      ensures uiUpdateTimes == LastN(old(uiUpdateTimes) + [duration], windowSize)
      ensures processingTimes == old(processingTimes) && networkLatencies == old(networkLatencies)
    {
      uiUpdateTimes := Append(uiUpdateTimes, duration);
    }

    /** `record_network_latency`: the time from the server's timestamp to the clock reading `now`. */
    method RecordNetworkLatency(serverTime: real, now: real)
      requires Valid()
      modifies this
      ensures Valid()
      ensures networkLatencies == LastN(old(networkLatencies) + [now - serverTime], windowSize)
      ensures processingTimes == old(processingTimes) && uiUpdateTimes == old(uiUpdateTimes)
    {
      networkLatencies := Append(networkLatencies, now - serverTime);
    }

    /**
     * deque.append with a maximum length: the value goes on the right and,
     * when the deque was full, the leftmost value falls off.
     */
    method Append(series: seq<real>, x: real) returns (r: seq<real>)
      requires |series| <= windowSize
      ensures r == LastN(series + [x], windowSize)
      ensures |r| <= windowSize
      ensures |series| < windowSize ==> r == series + [x]
    {
      r := series + [x];
      if |r| > windowSize {
        r := r[1..];
      }
    }

    /** `get_metrics`, with the two clock readings of its rate as parameters. */
    method GetMetrics(first: real, second: real) returns (r: Result<PerfMetrics, string>)
      ensures r == Summarize(processingTimes, uiUpdateTimes, networkLatencies, first, second)
    {
      r := Summarize(processingTimes, uiUpdateTimes, networkLatencies, first, second);
    }
  }
}
