/** The `Stage` drawing surface: a canvas, its logical and natural (buffer)
    sizes, the device scale factor, and the `_listeners` dictionary that maps
    event categories to lists of listeners and also holds the last pointer
    position. Listeners are known only by identity; calling one is recorded
    as a `Call`. */
module Stages {
  import opened Js
  import opened Pointer
  import Frames

  /** A value of the `_listeners` dictionary: a list of listeners, or the
      `{x, y}` object stored under "lastPointerPos". */
  datatype Slot = Handlers(handlers: seq<Handler>) | Position(pos: Point)

  /** The argument passed to stage listeners. */
  datatype Payload = Undefined | PointerPayload(event: PointerEventValue)

  /** One call `listener.call(stage, arg)`. */
  datatype Call = Call(listener: nat, stage: Stage, arg: Payload)

  /** What a run of listener calls did: the calls made, in order, and what
      was thrown after them, if anything. */
  datatype Run = Run(calls: seq<Call>, thrown: Option<Thrown>)

  /** Running `a` and then, unless `a` threw, `b`. */
  function Then(a: Run, b: Run): Run
  {
    if a.thrown.Some? then a else Run(a.calls + b.calls, b.thrown)
  }

  lemma ThenAssociative(a: Run, b: Run, c: Run)
    ensures Then(Then(a, b), c) == Then(a, Then(b, c))
  {
    if a.thrown.None? && b.thrown.None? {
      assert (a.calls + b.calls) + c.calls == a.calls + (b.calls + c.calls);
    }
  }

  lemma ThenDone(a: Run)
    ensures Then(a, Run([], None)) == a
  {
    if a.thrown.None? {
      assert a.calls + [] == a.calls;
    }
  }

  /** `handlers.forEach(listener => listener.call(stage, arg))`: calls the
      listeners in order; calling a non-function throws a TypeError, which
      ends the loop. */
  function Deliver(handlers: seq<Handler>, stage: Stage, arg: Payload): (r: Run)
    ensures |r.calls| <= |handlers|
    ensures r.thrown == None || r.thrown == Some(TypeError)
    decreases |handlers|
  {
    if handlers == [] then Run([], None)
    else match handlers[0]
      case Fn(id) => Then(Run([Call(id, stage, arg)], None), Deliver(handlers[1..], stage, arg))
      case NotFunction => Run([], Some(TypeError))
  }

  /** The calls a list of function listeners receives: each one once, in
      order, with the same stage and argument. */
  function ListenerCalls(handlers: seq<Handler>, stage: Stage, arg: Payload): seq<Call>
    requires forall i :: 0 <= i < |handlers| ==> handlers[i].Fn?
  {
    seq(|handlers|, i requires 0 <= i < |handlers| => Call(handlers[i].id, stage, arg))
  }

  /** Delivery calls the listeners before the first non-function exactly once
      each and in order, and throws a TypeError exactly when some listener is
      not a function. */
  lemma {:induction false} DeliverPrefix(handlers: seq<Handler>, stage: Stage, arg: Payload, k: nat)
    requires k <= |handlers|
    requires forall i :: 0 <= i < k ==> handlers[i].Fn?
    requires k < |handlers| ==> handlers[k].NotFunction?
    ensures Deliver(handlers, stage, arg).calls == ListenerCalls(handlers[..k], stage, arg)
    ensures Deliver(handlers, stage, arg).thrown == if k < |handlers| then Some(TypeError) else None
  {
    if k == 0 {
      assert handlers[..k] == [];
    } else {
      DeliverPrefix(handlers[1..], stage, arg, k - 1);
      assert handlers[1..][..k - 1] == handlers[1..k];
      assert ListenerCalls(handlers[..k], stage, arg)
             == [Call(handlers[0].id, stage, arg)] + ListenerCalls(handlers[1..k], stage, arg);
    }
  }

  /** Delivery to listeners that are all functions calls each exactly once,
      in order, and throws nothing. */
  lemma DeliverAllFunctions(handlers: seq<Handler>, stage: Stage, arg: Payload)
    requires forall i :: 0 <= i < |handlers| ==> handlers[i].Fn?
    ensures Deliver(handlers, stage, arg) == Run(ListenerCalls(handlers, stage, arg), None)
  {
    DeliverPrefix(handlers, stage, arg, |handlers|);
    assert handlers[..|handlers|] == handlers;
  }

  /** The categories that hold a list of listeners. */
  const HandlerCategories: set<string> := {"resize", "pointerstart", "pointermove", "pointerend"}

  /** The key under which the last pointer position is kept. */
  const LastPointerPos: string := "lastPointerPos"

  /** Property names every object inherits from `Object.prototype`; looking
      one of them up in `_listeners` yields a function or an object rather
      than undefined. */
  const InheritedKeys: set<string> := {
    "constructor", "hasOwnProperty", "isPrototypeOf", "propertyIsEnumerable",
    "toLocaleString", "toString", "valueOf", "__proto__",
    "__defineGetter__", "__defineSetter__", "__lookupGetter__", "__lookupSetter__"
  }

  /** The shape of `_listeners` after construction, kept by every operation. */
  predicate ListenersShape(m: map<string, Slot>)
  {
    m.Keys == HandlerCategories + {LastPointerPos}
    && (forall c :: c in HandlerCategories ==> m[c].Handlers?)
    && m[LastPointerPos].Position?
  }

  /** The `_listeners` object a new stage starts with. */
  function InitialListeners(): (m: map<string, Slot>)
    ensures ListenersShape(m)
    ensures forall c :: c in HandlerCategories ==> m[c].handlers == []
    ensures m[LastPointerPos].pos == Point(0.0, 0.0)
  {
    map["resize" := Handlers([]), "pointerstart" := Handlers([]), "pointermove" := Handlers([]),
        "pointerend" := Handlers([]), LastPointerPos := Position(Point(0.0, 0.0))]
  }

  /** `dispatchEvent(event, val)`: an own list of listeners is delivered to;
      the position object and inherited properties are truthy but have no
      `forEach`, so using them throws a TypeError; an absent category throws
      "Invalid Event". */
  function DispatchRun(listeners: map<string, Slot>, stage: Stage, event: string, arg: Payload): (r: Run)
    ensures r.thrown == Some(InvalidEvent) <==> event !in listeners && event !in InheritedKeys
    ensures event in listeners && listeners[event].Handlers? ==>
              r == Deliver(listeners[event].handlers, stage, arg)
    ensures !(event in listeners && listeners[event].Handlers?) ==> r.calls == []
  {
    if event in listeners then
      match listeners[event]
      case Handlers(hs) => Deliver(hs, stage, arg)
      case Position(_) => Run([], Some(TypeError))
    else if event in InheritedKeys then Run([], Some(TypeError))
    else Run([], Some(InvalidEvent))
  }

  /** On a well-formed dictionary, dispatching a listener category never
      fails with "Invalid Event", dispatching "lastPointerPos" throws a
      TypeError, and dispatching any other name throws "Invalid Event" unless
      it is inherited from `Object.prototype`. */
  lemma DispatchOnShape(listeners: map<string, Slot>, stage: Stage, event: string, arg: Payload)
    requires ListenersShape(listeners)
    ensures event in HandlerCategories ==>
              DispatchRun(listeners, stage, event, arg) == Deliver(listeners[event].handlers, stage, arg)
    ensures event == LastPointerPos ==> DispatchRun(listeners, stage, event, arg) == Run([], Some(TypeError))
    ensures event !in HandlerCategories && event != LastPointerPos ==>
              DispatchRun(listeners, stage, event, arg)
              == Run([], Some(if event in InheritedKeys then TypeError else InvalidEvent))
  {
  }

  /** The scale factor a stage is created with: 1 when high-DPI correction is
      disabled, and otherwise the device pixel ratio over the backing store
      ratio, each taken as 1 when undefined or 0. */
  function ScaleFactor(disableHighDPI: bool, devicePixelRatio: Option<real>, backingStorePixelRatio: Option<real>): (dpr: real)
    ensures dpr != 0.0
    ensures disableHighDPI ==> dpr == 1.0
    ensures !disableHighDPI ==> dpr * OrOne(backingStorePixelRatio) == OrOne(devicePixelRatio)
  {
    if disableHighDPI then 1.0 else OrOne(devicePixelRatio) / OrOne(backingStorePixelRatio)
  }

  /** The canvas element: its pixel buffer size and its inline style size
      (none until the stage sets one). */
  class Canvas {
    var width: real
    var height: real
    var styleWidth: Option<real>
    var styleHeight: Option<real>

    constructor (width: real, height: real)
      ensures this.width == width && this.height == height
      ensures styleWidth == None && styleHeight == None
    {
      this.width := width;
      this.height := height;
      styleWidth := None;
      styleHeight := None;
    }

    /** Sets the pixel buffer's size and pins the on-screen (CSS) size. */
    method SetSize(bufferWidth: real, bufferHeight: real, cssWidth: real, cssHeight: real)
      modifies this
      ensures width == bufferWidth && height == bufferHeight
      ensures styleWidth == Some(cssWidth) && styleHeight == Some(cssHeight)
    {
      width := bufferWidth;
      height := bufferHeight;
      styleWidth := Some(cssWidth);
      styleHeight := Some(cssHeight);
    }
  }

  /** The globals of the stage code: the `Stage.stages` registry, the
      `Stage.disableHighDPI` switch and the time of the last touch event. */
  class StageGlobals {
    var stages: seq<Stage>
    var disableHighDPI: bool
    var lastTouchTimestamp: real

    /** Every stage is registered once and is well formed. */
    ghost predicate Valid()
      reads this, stages
    {
      (forall i, j :: 0 <= i < j < |stages| ==> stages[i] != stages[j])
      && (forall i :: 0 <= i < |stages| ==> stages[i].Valid())
    }

    constructor ()
      ensures Valid()
      ensures stages == [] && !disableHighDPI && lastTouchTimestamp == 0.0
    {
      stages := [];
      disableHighDPI := false;
      lastTouchTimestamp := 0.0;
    }

    /** `Stage.stages.push(stage)` for a well-formed stage not yet
        registered. */
    method Register(stage: Stage)
      requires Valid() && stage.Valid() && stage !in stages
      modifies this`stages
      ensures Valid() && stages == old(stages) + [stage]
    {
      stages := stages + [stage];
    }
  }

  class Stage {
    const canvas: Canvas
    /** The device scale factor, fixed at construction. */
    const dpr: real
    var width: real
    var height: real
    var naturalWidth: real
    var naturalHeight: real
    /** `_listeners`. */
    var listeners: map<string, Slot>

    /** The natural size is the logical size times the scale factor, and the
        listener dictionary keeps its shape. */
    ghost predicate Valid()
      reads this
    {
      dpr != 0.0
      && naturalWidth == width * dpr && naturalHeight == height * dpr
      && ListenersShape(listeners)
    }

    /** `new Stage(canvas)`: takes the logical size from the canvas, computes
        the scale factor and the natural size, enlarges the buffer (and pins
        the style size) only when the width changes, and registers the new
        stage. */
    constructor (globals: StageGlobals, canvas: Canvas, devicePixelRatio: Option<real>, backingStorePixelRatio: Option<real>)
      requires globals.Valid()
      modifies globals, canvas
      ensures Valid() && globals.Valid()
      ensures this.canvas == canvas
      ensures dpr == ScaleFactor(old(globals.disableHighDPI), devicePixelRatio, backingStorePixelRatio)
      ensures width == old(canvas.width) && height == old(canvas.height)
      ensures width != naturalWidth ==>
                canvas.width == naturalWidth && canvas.height == naturalHeight
                && canvas.styleWidth == Some(width) && canvas.styleHeight == Some(height)
      ensures width == naturalWidth ==>
                canvas.width == old(canvas.width) && canvas.height == old(canvas.height)
                && canvas.styleWidth == old(canvas.styleWidth) && canvas.styleHeight == old(canvas.styleHeight)
      ensures listeners == InitialListeners()
      ensures globals.stages == old(globals.stages) + [this]
      ensures globals.disableHighDPI == old(globals.disableHighDPI)
      ensures globals.lastTouchTimestamp == old(globals.lastTouchTimestamp)
    {
      var ratio := ScaleFactor(globals.disableHighDPI, devicePixelRatio, backingStorePixelRatio);
      this.canvas := canvas;
      dpr := ratio;
      width := canvas.width;
      height := canvas.height;
      naturalWidth := canvas.width * ratio;
      naturalHeight := canvas.height * ratio;
      listeners := InitialListeners();
      new;
      if width != naturalWidth {
        canvas.SetSize(naturalWidth, naturalHeight, width, height);
      }
      globals.Register(this);
    }

    /** `addEventListener(event, handler)`: "ticker" registers with the
        ticker; a listener category gets the handler appended, whatever value
        it is; any other name changes nothing and throws "Invalid Event". A
        failure inside the ticker is also reported as "Invalid Event". */
    method AddEventListener(ticker: Frames.Ticker, event: string, handler: Handler) returns (thrown: Option<Thrown>)
      requires Valid() && ticker.Valid()
      modifies this, ticker
      ensures Valid() && ticker.Valid()
      ensures width == old(width) && height == old(height)
      ensures naturalWidth == old(naturalWidth) && naturalHeight == old(naturalHeight)
      ensures event == "ticker" ==>
                listeners == old(listeners)
                && thrown == (if handler.Fn? then None else Some(InvalidEvent))
                && ticker.listeners == old(ticker.listeners) + (if handler.Fn? then [handler.id] else [])
                && ticker.started == (old(ticker.started) || handler.Fn?)
                && ticker.lastTimestamp == old(ticker.lastTimestamp)
      ensures event != "ticker" ==>
                unchanged(ticker)
                && (event in HandlerCategories ==>
                      thrown == None
                      && listeners == old(listeners)[event := Handlers(old(listeners)[event].handlers + [handler])])
                && (event !in HandlerCategories ==>
                      thrown == Some(InvalidEvent) && listeners == old(listeners))
    {
      if event == "ticker" {
        var failed := ticker.AddListener(handler);
        thrown := if failed.Some? then Some(InvalidEvent) else None;
      } else if event in listeners && listeners[event].Handlers? {
        listeners := listeners[event := Handlers(listeners[event].handlers + [handler])];
        thrown := None;
      } else {
        // `push` on undefined, on the position object or on an inherited
        // property throws a TypeError, which is caught and replaced.
        thrown := Some(InvalidEvent);
      }
    }

    /** `dispatchEvent(event, val)`. */
    method DispatchEvent(event: string, arg: Payload) returns (r: Run)
      ensures r == DispatchRun(listeners, this, event, arg)
    {
      if event in listeners && listeners[event].Handlers? {
        var handlers := listeners[event].handlers;
        r := Run([], None);
        var i := 0;
        while i < |handlers| && r.thrown.None?
          invariant 0 <= i <= |handlers|
          invariant Then(r, Deliver(handlers[i..], this, arg)) == Deliver(handlers, this, arg)
        {
          assert handlers[i..][1..] == handlers[i + 1..];
          var step := match handlers[i]
            case Fn(id) => Run([Call(id, this, arg)], None)
            case NotFunction => Run([], Some(TypeError));
          ThenAssociative(r, step, Deliver(handlers[i + 1..], this, arg));
          r := Then(r, step);
          i := i + 1;
        }
        ThenDone(r);
      } else if event in listeners || event in InheritedKeys {
        // The value found is truthy but has no `forEach`.
        r := Run([], Some(TypeError));
      } else {
        r := Run([], Some(InvalidEvent));
      }
    }

    /** `resize(w, h)`: sets the logical size, the natural size and the
        buffer and style sizes, keeps the scale factor, and dispatches one
        "resize" event without a value. */
    method Resize(w: real, h: real) returns (r: Run)
      requires Valid()
      modifies this, canvas
      ensures Valid()
      ensures width == w && height == h
      ensures naturalWidth == w * dpr && naturalHeight == h * dpr
      ensures canvas.width == naturalWidth && canvas.height == naturalHeight
      ensures canvas.styleWidth == Some(w) && canvas.styleHeight == Some(h)
      ensures listeners == old(listeners)
      ensures r == Deliver(listeners["resize"].handlers, this, Undefined)
    {
      width := w;
      height := h;
      naturalWidth := w * dpr;
      naturalHeight := h * dpr;
      canvas.SetSize(naturalWidth, naturalHeight, w, h);
      r := DispatchEvent("resize", Undefined);
    }

    /** `pointerEvent(type, x, y)`: builds the event with its inclusive
        on-canvas flag and dispatches it under "pointer" + type. */
    method PointerEvent(kind: PointerType, x: real, y: real) returns (r: Run)
      requires Valid()
      ensures r == Deliver(listeners[Category(kind)].handlers, this,
                           PointerPayload(MakePointerEvent(kind, x, y, width, height)))
    {
      var event := PointerEventValue(kind, x, y, x >= 0.0 && x <= width && y >= 0.0 && y <= height);
      r := DispatchEvent("pointer" + TypeName(kind), PointerPayload(event));
    }
  }

  /** Every call a delivery makes passes the same stage and argument, and
      calls one of the listeners. */
  lemma {:induction false} DeliverCallsCarry(handlers: seq<Handler>, stage: Stage, arg: Payload)
    ensures forall c :: c in Deliver(handlers, stage, arg).calls ==>
              c.stage == stage && c.arg == arg && Fn(c.listener) in handlers
    decreases |handlers|
  {
    if handlers != [] && handlers[0].Fn? {
      DeliverCallsCarry(handlers[1..], stage, arg);
    }
  }

  /** A "resize" dispatch on a well-formed stage calls only resize
      listeners, each time with no value and the stage as context. */
  lemma ResizeCallsCarryNoValue(stage: Stage, listeners: map<string, Slot>)
    requires ListenersShape(listeners)
    ensures forall c :: c in DispatchRun(listeners, stage, "resize", Undefined).calls ==>
              c.arg == Undefined && c.stage == stage && Fn(c.listener) in listeners["resize"].handlers
  {
    DeliverCallsCarry(listeners["resize"].handlers, stage, Undefined);
  }
}
