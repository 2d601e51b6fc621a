/**
 * The order-book feed client: a `running` flag set by start and cleared by
 * stop, the list of the last 100 per-message processing times with their
 * average, and the receive loop, which turns each frame read from the socket
 * into a delivered message, a skipped one, or the end of the connection.
 *
 * The socket, the event loop and the thread are not modelled: the frames a
 * connection yields are a parameter of the receive loop, each successfully
 * handled frame carries the time its decoding and callback took, and the
 * callback is the caller's, so the loop returns the messages it handed to it.
 */
module WebSocketClient {
  import opened Wrappers
  import opened OrderBook
  import opened BoundedWindow

  /** How many processing times the client keeps. */
  const MaxSamples: nat := 100

  /** One outcome of `recv` followed by decoding and the callback. */
  datatype Frame =
    | Handled(message: Option<Book>, elapsed: real)  // decoded, passed to the callback, which returned
    | Malformed                                     // json.loads raised: nothing delivered, nothing timed
    | HandlerFailed(message: Option<Book>)           // decoded and passed to the callback, which raised
    | ConnectionClosed                              // the server closed the socket: the loop ends

  /** The processing times the frames add, in arrival order, up to the first close. */
  function Samples(frames: seq<Frame>): (r: seq<real>)
    ensures |r| <= |frames|
  {
    if frames == [] then []
    else match frames[0]
      case ConnectionClosed => []
      case Handled(_, elapsed) => [elapsed] + Samples(frames[1..])
      case _ => Samples(frames[1..])
  }

  /** The messages handed to the callback, in arrival order, up to the first close. */
  function Delivered(frames: seq<Frame>): (r: seq<Option<Book>>)
    ensures |r| <= |frames|
  {
    if frames == [] then []
    else match frames[0]
      case ConnectionClosed => []
      case Handled(message, _) => [message] + Delivered(frames[1..])
      case HandlerFailed(message) => [message] + Delivered(frames[1..])
      case Malformed => Delivered(frames[1..])
  }

  /** A handled frame is timed, a failed callback is not: a delivered message yields at most one sample. */
  lemma {:induction false} SamplesAtMostDelivered(frames: seq<Frame>)
    ensures |Samples(frames)| <= |Delivered(frames)|
    ensures (forall i :: 0 <= i < |frames| ==> !frames[i].HandlerFailed?) ==> |Samples(frames)| == |Delivered(frames)|
  {
    if frames != [] && !frames[0].ConnectionClosed? {
      SamplesAtMostDelivered(frames[1..]);
      assert forall i :: 0 <= i < |frames[1..]| ==> frames[1..][i] == frames[i + 1];
    }
  }

  /** Frames after the first close are never read. */
  lemma {:induction false} CloseEndsLoop(frames: seq<Frame>, rest: seq<Frame>)
    requires ConnectionClosed in frames
    ensures Samples(frames + rest) == Samples(frames)
    ensures Delivered(frames + rest) == Delivered(frames)
  {
    if !frames[0].ConnectionClosed? {
      assert (frames + rest)[1..] == frames[1..] + rest;
      CloseEndsLoop(frames[1..], rest);
    }
  }

  /** Reading one frame that is not a close: its sample and its message, then the rest. */
  lemma UnfoldAt(frames: seq<Frame>, i: nat)
    requires i < |frames| && !frames[i].ConnectionClosed?
    ensures Samples(frames[i..]) == (if frames[i].Handled? then [frames[i].elapsed] else []) + Samples(frames[i + 1..])
    ensures Delivered(frames[i..]) == (if frames[i].Malformed? then [] else [frames[i].message]) + Delivered(frames[i + 1..])
  {
    assert frames[i..][1..] == frames[i + 1..];
  }

  /** Where the loop stops, nothing is left to sample or deliver, and it stopped at a close exactly when there is one. */
  lemma EndOfLoop(frames: seq<Frame>, i: nat)
    requires i <= |frames|
    requires i == |frames| || frames[i].ConnectionClosed?
    requires forall j :: 0 <= j < i ==> !frames[j].ConnectionClosed?
    ensures Samples(frames[i..]) == [] && Delivered(frames[i..]) == []
    ensures ConnectionClosed in frames <==> i < |frames|
  {
    if i < |frames| {
      assert frames[i..][0] == frames[i];
    }
  }

  /** Handling frame i moves the samples window along by that frame's sample. */
  lemma WindowAdvances(before: seq<real>, after: seq<real>, frames: seq<Frame>, i: nat)
    requires i < |frames| && !frames[i].ConnectionClosed?
    requires frames[i].Handled? ==> after == LastN(before + [frames[i].elapsed], MaxSamples)
    requires !frames[i].Handled? ==> after == before
    ensures LastN(after + Samples(frames[i + 1..]), MaxSamples) == LastN(before + Samples(frames[i..]), MaxSamples)
  {
    UnfoldAt(frames, i);
    var rest := Samples(frames[i + 1..]);
    if frames[i].Handled? {
      assert before + ([frames[i].elapsed] + rest) == (before + [frames[i].elapsed]) + rest;
      LastNAbsorb(before + [frames[i].elapsed], rest, MaxSamples);
    } else {
      assert [] + rest == rest;
    }
  }

  /** Handling frame i moves its message, if any, from the frames still to read to those delivered. */
  lemma DeliveredAdvances(before: seq<Option<Book>>, after: seq<Option<Book>>, frames: seq<Frame>, i: nat)
    requires i < |frames| && !frames[i].ConnectionClosed?
    requires !frames[i].Malformed? ==> after == before + [frames[i].message]
    requires frames[i].Malformed? ==> after == before
    ensures after + Delivered(frames[i + 1..]) == before + Delivered(frames[i..])
  {
    UnfoldAt(frames, i);
    var tail := Delivered(frames[i + 1..]);
    if !frames[i].Malformed? {
      assert (before + [frames[i].message]) + tail == before + ([frames[i].message] + tail);
    } else {
      assert [] + tail == tail;
    }
  }

  class FeedClient {
    const uri: string
    var running: bool
    var processingTimes: seq<real>

    ghost predicate Valid()
      reads this
    {
      |processingTimes| <= MaxSamples
    }

    /** A stopped client with no samples. */
    constructor(uri: string)
      ensures this.uri == uri && !running && processingTimes == []
      ensures Valid()
    {
      this.uri := uri;
      running := false;
      processingTimes := [];
    }

    /** `start`: sets the flag; a client already running is left as it is. */
    method Start()
      modifies this
      ensures running
      ensures processingTimes == old(processingTimes)
    {
      if running {
        return;
      }
      running := true;
    }

    /** `stop`: clears the flag; the samples are kept. */
    method Stop()
      modifies this
      ensures !running
      ensures processingTimes == old(processingTimes)
    {
      running := false;
    }

    /** `average_processing_time`: 0 with no samples, their mean otherwise. */
    function AverageProcessingTime(): (r: real)
      reads this
      ensures processingTimes == [] ==> r == 0.0
      ensures processingTimes != [] ==> r * (|processingTimes| as real) == Sum(processingTimes)
    {
      Mean(processingTimes)
    }

    /** Appends a sample and drops the oldest when more than 100 are held. */
    method RecordSample(elapsed: real)
      requires Valid()
      modifies this
      ensures Valid()
      ensures processingTimes == LastN(old(processingTimes) + [elapsed], MaxSamples)
      ensures running == old(running)
    {
      processingTimes := processingTimes + [elapsed];
      if |processingTimes| > MaxSamples {
        processingTimes := processingTimes[1..];
      }
    }

    /**
     * The body of the receive loop for a frame that is not a close: a decoded
     * message goes to the callback, and its processing time is recorded only
     * when the callback returned.
     */
    method HandleFrame(frame: Frame) returns (message: Option<Option<Book>>)
      requires Valid() && !frame.ConnectionClosed?
      modifies this
      ensures Valid() && running == old(running)
      ensures message == if frame.Malformed? then None else Some(frame.message)
      ensures frame.Handled? ==> processingTimes == LastN(old(processingTimes) + [frame.elapsed], MaxSamples)
      ensures !frame.Handled? ==> processingTimes == old(processingTimes)
    {
      match frame {
        case Malformed =>
          message := None;
        case HandlerFailed(data) =>
          message := Some(data);
        case Handled(data, elapsed) =>
          message := Some(data);
          RecordSample(elapsed);
      }
    }

    /**
     * One connection's receive loop. While the client runs, every frame up to
     * the first close is handled in order; the samples window ends up as if
     * all the new samples had been appended to the old ones and the last 100
     * kept. A reconnect is requested when the connection closed while running.
     * A client that is not running reads nothing.
     */
    method ReceiveLoop(frames: seq<Frame>) returns (delivered: seq<Option<Book>>, reconnect: bool)
      requires Valid()
      modifies this
      ensures Valid()
      ensures running == old(running)
      ensures running ==> processingTimes == LastN(old(processingTimes) + Samples(frames), MaxSamples)
      ensures running ==> delivered == Delivered(frames)
      ensures !running ==> processingTimes == old(processingTimes) && delivered == []
      ensures reconnect <==> running && ConnectionClosed in frames
    {
      delivered := [];
      // `while self.running`: the flag is only cleared by stop on another
      // thread, so within one run of the loop it is either false from the
      // start or true throughout.
      if !running {
        return delivered, false;
      }
      var i := 0;
      while i < |frames| && !frames[i].ConnectionClosed?
        invariant 0 <= i <= |frames|
        invariant Valid() && running
        invariant forall j :: 0 <= j < i ==> !frames[j].ConnectionClosed?
        invariant LastN(processingTimes + Samples(frames[i..]), MaxSamples)
          == LastN(old(processingTimes) + Samples(frames), MaxSamples)
        invariant delivered + Delivered(frames[i..]) == Delivered(frames)
      {
        var before, handed := processingTimes, delivered;
        var message := HandleFrame(frames[i]);
        if message.Some? {
          delivered := delivered + [message.value];
        }
        WindowAdvances(before, processingTimes, frames, i);
        DeliveredAdvances(handed, delivered, frames, i);
        i := i + 1;
      }
      EndOfLoop(frames, i);
      assert processingTimes + [] == processingTimes;
      assert delivered + [] == delivered;
      assert processingTimes[0..] == processingTimes;
      reconnect := i < |frames|;
    }
  }
}
