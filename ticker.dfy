/** The module-level frame scheduler `Ticker`: a list of frame listeners, a
    flag that says whether the animation loop runs, and the timestamp of the
    previous frame. The platform's `requestAnimationFrame` is replaced by a
    count of frame requests that are queued and not yet served. */
module Frames {
  import opened Js

  /** Frame time used when the clock went backwards. */
  const NegativeFrameTime: real := 17.0
  /** Longest frame time a listener is ever told about. */
  const MaxFrameTime: real := 68.0
  /** Length of one frame at 60 frames per second, the unit of the second
      argument given to listeners. */
  const FrameLength: real := 16.6667

  /** The frame time handed to listeners for the difference between two
      raw timestamps: a negative difference becomes 17, one above 68 becomes
      68, and anything from 0 to 68 passes through unchanged. */
  function ClampFrameTime(delta: real): (r: real)
    ensures 0.0 <= r <= MaxFrameTime
    ensures 0.0 <= delta <= MaxFrameTime ==> r == delta
    ensures delta < 0.0 ==> r == NegativeFrameTime
    ensures delta > MaxFrameTime ==> r == MaxFrameTime
  {
    if delta < 0.0 then NegativeFrameTime
    else if delta > MaxFrameTime then MaxFrameTime
    else delta
  }

  /** One call `listener(frameTime, frameUnits)` made by a frame. */
  datatype FrameCall = FrameCall(listener: nat, frameTime: real, frameUnits: real)

  /** The frame time expressed in frames at 60 frames per second. */
  function FrameUnits(frameTime: real): real
  {
    frameTime / FrameLength
  }

  /** The calls a frame makes, as `forEach` makes them: exactly one call per
      listener, in registration order, and every call receives the same two
      arguments. */
  function FrameCalls(listeners: seq<nat>, frameTime: real): (calls: seq<FrameCall>)
    ensures |calls| == |listeners|
    ensures forall i :: 0 <= i < |listeners| ==>
              calls[i] == FrameCall(listeners[i], frameTime, frameTime / FrameLength)
  {
    if listeners == [] then []
    else FrameCalls(listeners[..|listeners| - 1], frameTime)
         + [FrameCall(listeners[|listeners| - 1], frameTime, FrameUnits(frameTime))]
  }

  /** The arguments of every frame call are bounded: the frame time lies in
      [0, 68] and the frame units are that time divided by 16.6667. */
  lemma FrameCallsBounded(listeners: seq<nat>, lastTimestamp: real, timestamp: real, i: nat)
    requires i < |listeners|
    ensures |FrameCalls(listeners, ClampFrameTime(timestamp - lastTimestamp))| == |listeners|
    ensures var c := FrameCalls(listeners, ClampFrameTime(timestamp - lastTimestamp))[i];
            c.listener == listeners[i] && 0.0 <= c.frameTime <= MaxFrameTime
            && c.frameUnits * FrameLength == c.frameTime
  {
  }

  /** The ticker's closure state. */
  class Ticker {
    var started: bool
    var lastTimestamp: real
    var listeners: seq<nat>
    /** Frame requests handed to the platform and not yet served. */
    var pendingFrames: nat

    /** Once started, the loop always has exactly one frame request in
        flight, and it is started exactly when some listener is registered. */
    ghost predicate Valid()
      reads this
    {
      (started <==> listeners != [])
      && pendingFrames == (if started then 1 else 0)
    }

    constructor ()
      ensures Valid()
      ensures !started && lastTimestamp == 0.0 && listeners == [] && pendingFrames == 0
    {
      started := false;
      lastTimestamp := 0.0;
      listeners := [];
      pendingFrames := 0;
    }

    /** Asks the platform for one more frame. */
    method QueueFrame()
      modifies this`pendingFrames
      ensures pendingFrames == old(pendingFrames) + 1
    {
      pendingFrames := pendingFrames + 1;
    }

    /** `Ticker.addListener`: a non-function is refused and nothing changes;
        a function is appended, and the first one starts the loop by
        queueing one frame. */
    method AddListener(callback: Handler) returns (thrown: Option<Thrown>)
      requires Valid()
      modifies this
      ensures Valid()
      ensures lastTimestamp == old(lastTimestamp)
      ensures callback.NotFunction? ==>
                thrown == Some(TickerNeedsFunction) && listeners == old(listeners)
                && started == old(started) && pendingFrames == old(pendingFrames)
      ensures callback.Fn? ==>
                thrown == None && listeners == old(listeners) + [callback.id] && started
                && pendingFrames == old(pendingFrames) + (if old(started) then 0 else 1)
    {
      if callback.NotFunction? {
        return Some(TickerNeedsFunction);
      }
      listeners := listeners + [callback.id];
      if !started {
        started := true;
        QueueFrame();
      }
      thrown := None;
    }

    /** `frameHandler`, run when the platform serves the queued frame request:
        remembers the raw timestamp, calls every listener with the clamped
        frame time, and queues the next frame. */
    method FrameHandler(timestamp: real) returns (calls: seq<FrameCall>)
      requires Valid() && pendingFrames > 0
      modifies this
      ensures Valid()
      ensures lastTimestamp == timestamp
      ensures listeners == old(listeners) && started == old(started)
      ensures pendingFrames == old(pendingFrames)
      ensures calls == FrameCalls(listeners, ClampFrameTime(timestamp - old(lastTimestamp)))
    {
      pendingFrames := pendingFrames - 1;
      var frameTime := timestamp - lastTimestamp;
      lastTimestamp := timestamp;
      if frameTime < 0.0 {
        frameTime := NegativeFrameTime;
      } else if frameTime > MaxFrameTime {
        frameTime := MaxFrameTime;
      }
      calls := [];
      var i := 0;
      while i < |listeners|
        invariant 0 <= i <= |listeners|
        invariant calls == FrameCalls(listeners[..i], frameTime)
      {
        assert listeners[..i + 1][..i] == listeners[..i];
        calls := calls + [FrameCall(listeners[i], frameTime, frameTime / FrameLength)];
        i := i + 1;
      }
      assert listeners[..i] == listeners;
      QueueFrame();
    }
  }
}
