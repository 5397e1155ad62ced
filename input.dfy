/** The document-wide input handlers `Stage.mouseHandler` and
    `Stage.touchHandler`, which turn raw mouse and touch events into pointer
    events on every registered stage. The clock (`Date.now()`) and each
    canvas's bounding box (`getBoundingClientRect()`) are parameters. */
module Input {
  import opened Js
  import opened Pointer
  import opened Stages

  /** Mouse events this close (in milliseconds) after a touch event are
      ignored. */
  const TouchMouseGap: real := 500.0

  /** What the handlers read of one stage: the stage itself, its listener
      dictionary, scale factor, logical size, its canvas's buffer size and
      the canvas's bounding box. */
  datatype View = View(stage: Stage, listeners: map<string, Slot>, dpr: real,
                       width: real, height: real,
                       bufferWidth: real, bufferHeight: real, box: Rect)

  /** A view the handlers can work with: a nonzero scale factor, a box of
      nonzero size and a well-formed listener dictionary. */
  predicate ViewOk(v: View)
  {
    v.dpr != 0.0 && v.box.width != 0.0 && v.box.height != 0.0 && ListenersShape(v.listeners)
  }

  /** Every stage's canvas has a bounding box of nonzero size. */
  predicate LaidOut(stages: seq<Stage>, layout: map<Canvas, Rect>)
  {
    forall i :: 0 <= i < |stages| ==>
      stages[i].canvas in layout && layout[stages[i].canvas].width != 0.0
      && layout[stages[i].canvas].height != 0.0
  }

  /** What the handlers read of a stage whose canvas `layout` places. */
  function ViewOf(s: Stage, layout: map<Canvas, Rect>): View
    requires s.canvas in layout
    reads s, s.canvas
  {
    View(s, s.listeners, s.dpr, s.width, s.height, s.canvas.width, s.canvas.height, layout[s.canvas])
  }

  /** The views of the registered stages, in registration order. */
  function Views(stages: seq<Stage>, layout: map<Canvas, Rect>): seq<View>
    requires forall i :: 0 <= i < |stages| ==> stages[i].canvas in layout
    reads stages, set s | s in stages :: s.canvas
  {
    seq(|stages|, i requires 0 <= i < |stages| reads stages, set s | s in stages :: s.canvas =>
      ViewOf(stages[i], layout))
  }

  /** Every view in a sequence is usable. */
  predicate ViewsAreOk(vs: seq<View>)
  {
    forall i :: 0 <= i < |vs| ==> ViewOk(vs[i])
  }

  /** The views of well-formed, laid-out stages are usable. */
  lemma ViewsOk(stages: seq<Stage>, layout: map<Canvas, Rect>)
    requires LaidOut(stages, layout)
    requires forall i :: 0 <= i < |stages| ==> stages[i].Valid()
    ensures forall i :: 0 <= i < |stages| ==> ViewOk(Views(stages, layout)[i])
  {
  }

  /** The pointer event a stage builds for a position in buffer pixels. */
  function EventAt(v: View, kind: PointerType, pos: Point): (e: PointerEventValue)
    requires ViewOk(v)
    ensures e.kind == kind && e.x * v.dpr == pos.x && e.y * v.dpr == pos.y
    ensures e.onCanvas <==> 0.0 <= e.x <= v.width && 0.0 <= e.y <= v.height
  {
    MakePointerEvent(kind, pos.x / v.dpr, pos.y / v.dpr, v.width, v.height)
  }

  /** `stage.pointerEvent(kind, pos.x / stage.dpr, pos.y / stage.dpr)`. */
  function PointerAt(v: View, kind: PointerType, pos: Point): Run
    requires ViewOk(v)
  {
    Deliver(v.listeners[Category(kind)].handlers, v.stage, PointerPayload(EventAt(v, kind, pos)))
  }

  /** A pointer event on a stage: the only thing thrown is a `TypeError`, and
      every call goes to a listener of the kind's category, with the stage as
      context and the event for `pos`. */
  lemma PointerAtCalls(v: View, kind: PointerType, pos: Point)
    requires ViewOk(v)
    ensures PointerAt(v, kind, pos).thrown != Some(InvalidEvent)
            && PointerAt(v, kind, pos).thrown != Some(TickerNeedsFunction)
    ensures forall c :: c in PointerAt(v, kind, pos).calls ==>
              c.stage == v.stage && c.arg == PointerPayload(EventAt(v, kind, pos))
              && Fn(c.listener) in v.listeners[Category(kind)].handlers
  {
    DeliverCallsCarry(v.listeners[Category(kind)].handlers, v.stage, PointerPayload(EventAt(v, kind, pos)));
  }

  /** The position of a window point on a stage's canvas, in buffer pixels:
      its offset from the box's corner, scaled from the box's size to the
      buffer's. */
  function CanvasPos(v: View, client: Point): (p: Point)
    requires ViewOk(v)
  {
    WindowToCanvas(v.bufferWidth, v.bufferHeight, v.box, client.x, client.y)
  }

  // ---------------------------------------------------------------- mouse

  /** The pointer events of one mouse event, stage after stage, stopping at
      the first throw. */
  function MouseAll(vs: seq<View>, kind: PointerType, client: Point): Run
    requires forall i :: 0 <= i < |vs| ==> ViewOk(vs[i])
  {
    if vs == [] then Run([], None)
    else Then(PointerAt(vs[0], kind, CanvasPos(vs[0], client)), MouseAll(vs[1..], kind, client))
  }

  /** What `mouseHandler` does: nothing within 500 ms of the last touch, and
      otherwise one pointer event per stage. */
  function MouseRun(lastTouchTimestamp: real, now: real, vs: seq<View>, eventType: string, client: Point): Run
    requires forall i :: 0 <= i < |vs| ==> ViewOk(vs[i])
  {
    if now - lastTouchTimestamp < TouchMouseGap then Run([], None)
    else MouseAll(vs, MouseType(eventType), client)
  }

  /** One mouse event on every stage: the only thing thrown is a
      `TypeError`, never "Invalid Event", and every call receives a pointer
      event of the given kind. */
  lemma {:induction false} MouseAllCalls(vs: seq<View>, kind: PointerType, client: Point)
    requires forall i :: 0 <= i < |vs| ==> ViewOk(vs[i])
    ensures MouseAll(vs, kind, client).thrown != Some(InvalidEvent)
            && MouseAll(vs, kind, client).thrown != Some(TickerNeedsFunction)
    ensures forall c :: c in MouseAll(vs, kind, client).calls ==>
              c.arg.PointerPayload? && c.arg.event.kind == kind
  {
    if vs != [] {
      PointerAtCalls(vs[0], kind, CanvasPos(vs[0], client));
      MouseAllCalls(vs[1..], kind, client);
    }
  }

  /** `mouseHandler` within 500 ms of the last touch makes no call and throws
      nothing; otherwise the only thing thrown is a `TypeError`, and every
      call receives a pointer event of the kind the event type is classified
      as. */
  lemma MouseRunCalls(lastTouchTimestamp: real, now: real, vs: seq<View>, eventType: string, client: Point)
    requires forall i :: 0 <= i < |vs| ==> ViewOk(vs[i])
    ensures var r := MouseRun(lastTouchTimestamp, now, vs, eventType, client);
            now - lastTouchTimestamp < TouchMouseGap ==> r.calls == [] && r.thrown == None
    ensures var r := MouseRun(lastTouchTimestamp, now, vs, eventType, client);
            r.thrown != Some(InvalidEvent) && r.thrown != Some(TickerNeedsFunction)
    ensures forall c :: c in MouseRun(lastTouchTimestamp, now, vs, eventType, client).calls ==>
              c.arg.PointerPayload? && c.arg.event.kind == MouseType(eventType)
  {
    if now - lastTouchTimestamp >= TouchMouseGap {
      MouseAllCalls(vs, MouseType(eventType), client);
    }
  }

  /** The listeners of a stage for a pointer category are all functions. */
  predicate Callable(v: View, kind: PointerType)
    requires ListenersShape(v.listeners)
  {
    forall i :: 0 <= i < |v.listeners[Category(kind)].handlers| ==>
      v.listeners[Category(kind)].handlers[i].Fn?
  }

  /** The calls one stage's pointer listeners of a kind receive for a
      position in buffer pixels when they are all functions: each listener
      once, in registration order, with the stage as context and the same
      event. */
  function StageCalls(v: View, kind: PointerType, pos: Point): seq<Call>
    requires ViewOk(v) && Callable(v, kind)
  {
    ListenerCalls(v.listeners[Category(kind)].handlers, v.stage, PointerPayload(EventAt(v, kind, pos)))
  }

  /** Blocks of calls, one after another. */
  function Flatten(blocks: seq<seq<Call>>): seq<Call>
  {
    if blocks == [] then [] else blocks[0] + Flatten(blocks[1..])
  }

  /** When no pointer listener is a non-function, a mouse event reaches every
      stage in registration order, and each stage's listeners receive exactly
      one event: the mouse position mapped onto that stage's canvas and
      divided by its scale factor. */
  lemma {:induction false} MouseReachesEveryStage(vs: seq<View>, kind: PointerType, client: Point)
    requires forall i :: 0 <= i < |vs| ==> ViewOk(vs[i]) && Callable(vs[i], kind)
    ensures MouseAll(vs, kind, client).thrown == None
    ensures MouseAll(vs, kind, client).calls
            == Flatten(seq(|vs|, i requires 0 <= i < |vs| => StageCalls(vs[i], kind, CanvasPos(vs[i], client))))
  {
    var blocks := seq(|vs|, i requires 0 <= i < |vs| => StageCalls(vs[i], kind, CanvasPos(vs[i], client)));
    if vs != [] {
      var v, p := vs[0], CanvasPos(vs[0], client);
      DeliverAllFunctions(v.listeners[Category(kind)].handlers, v.stage, PointerPayload(EventAt(v, kind, p)));
      assert PointerAt(v, kind, p) == Run(StageCalls(v, kind, p), None);
      MouseReachesEveryStage(vs[1..], kind, client);
      var rest := seq(|vs[1..]|, i requires 0 <= i < |vs[1..]| => StageCalls(vs[1..][i], kind, CanvasPos(vs[1..][i], client)));
      assert blocks[1..] == rest;
      assert blocks[0] == StageCalls(v, kind, p);
    }
  }

  /** Handling the `i`th stage moves it from the remaining work to the
      partial result. */
  lemma MouseAllStep(r: Run, vs: seq<View>, i: nat, kind: PointerType, client: Point)
    requires forall j :: 0 <= j < |vs| ==> ViewOk(vs[j])
    requires i < |vs|
    ensures Then(r, MouseAll(vs[i..], kind, client))
            == Then(Then(r, PointerAt(vs[i], kind, CanvasPos(vs[i], client))), MouseAll(vs[i + 1..], kind, client))
  {
    assert vs[i..][1..] == vs[i + 1..];
    ThenAssociative(r, PointerAt(vs[i], kind, CanvasPos(vs[i], client)), MouseAll(vs[i + 1..], kind, client));
  }

  /** The body of `mouseHandler`'s loop for one stage. */
  method MouseStage(stage: Stage, kind: PointerType, client: Point, layout: map<Canvas, Rect>) returns (r: Run)
    requires stage.Valid() && stage.canvas in layout
    requires layout[stage.canvas].width != 0.0 && layout[stage.canvas].height != 0.0
    ensures ViewOk(ViewOf(stage, layout))
    ensures r == PointerAt(ViewOf(stage, layout), kind, CanvasPos(ViewOf(stage, layout), client))
  {
    var pos := WindowToCanvas(stage.canvas.width, stage.canvas.height, layout[stage.canvas], client.x, client.y);
    r := stage.PointerEvent(kind, pos.x / stage.dpr, pos.y / stage.dpr);
  }

  /** `mouseHandler`'s loop over the registered stages, whose views are
      `vs`. */
  method MouseStages(globals: StageGlobals, kind: PointerType, client: Point, layout: map<Canvas, Rect>,
                     ghost vs: seq<View>) returns (r: Run)
    requires globals.Valid() && LaidOut(globals.stages, layout)
    requires vs == Views(globals.stages, layout)
    ensures ViewsAreOk(vs)
    ensures r == MouseAll(vs, kind, client)
  {
    var stages := globals.stages;
    ViewsOk(stages, layout);
    r := Run([], None);
    var i := 0;
    while i < |stages| && r.thrown.None?
      invariant 0 <= i <= |stages|
      invariant Then(r, MouseAll(vs[i..], kind, client)) == MouseAll(vs, kind, client)
    {
      var step := MouseStage(stages[i], kind, client, layout);
      assert vs[i] == ViewOf(stages[i], layout);
      MouseAllStep(r, vs, i, kind, client);
      r := Then(r, step);
      i := i + 1;
    }
    ThenDone(r);
  }

  /** `Stage.mouseHandler` for an event of the given type at window
      position `client`, at time `now`, with `layout` giving each canvas's
      bounding box. It changes nothing; the calls it makes are returned. */
  method MouseHandler(globals: StageGlobals, eventType: string, client: Point, now: real,
                      layout: map<Canvas, Rect>) returns (r: Run)
    requires globals.Valid() && LaidOut(globals.stages, layout)
    ensures r == MouseRun(globals.lastTouchTimestamp, now, Views(globals.stages, layout), eventType, client)
  {
    if now - globals.lastTouchTimestamp < TouchMouseGap {
      return Run([], None);
    }
    var kind := Start;
    if eventType == "mousemove" {
      kind := Move;
    } else if eventType == "mouseup" {
      kind := End;
    }
    r := MouseStages(globals, kind, client, layout, Views(globals.stages, layout));
  }

  // ---------------------------------------------------------------- touch

  /** What one stage's handling of some touches did, and the stage's last
      pointer position (in buffer pixels) afterwards. */
  datatype TouchOutcome = TouchOutcome(run: Run, last: Point)

  /** One changed touch on one stage: a start or move is mapped onto the
      canvas and becomes the new last position, a start is preceded by a move
      at the same place, and an end is reported at the last position. */
  function TouchOne(v: View, kind: PointerType, touch: Point, last: Point): TouchOutcome
    requires ViewOk(v)
  {
    if kind != End then
      var pos := CanvasPos(v, touch);
      TouchOutcome(if kind == Start then Then(PointerAt(v, Move, pos), PointerAt(v, Start, pos))
                   else PointerAt(v, kind, pos),
                   pos)
    else TouchOutcome(PointerAt(v, End, last), last)
  }

  /** The changed touches of one event on one stage, in order, stopping at the
      first throw. */
  function TouchStage(v: View, kind: PointerType, touches: seq<Point>, last: Point): TouchOutcome
    requires ViewOk(v)
    decreases |touches|
  {
    if touches == [] then TouchOutcome(Run([], None), last)
    else
      var o := TouchOne(v, kind, touches[0], last);
      if o.run.thrown.Some? then o
      else
        var rest := TouchStage(v, kind, touches[1..], o.last);
        TouchOutcome(Then(o.run, rest.run), rest.last)
  }

  /** The rest of a stage's touches after a partial run `r` that left the
      last position at `last`. */
  function ResumeTouches(r: Run, v: View, kind: PointerType, touches: seq<Point>, last: Point): TouchOutcome
    requires ViewOk(v)
  {
    if r.thrown.Some? then TouchOutcome(r, last)
    else
      var o := TouchStage(v, kind, touches, last);
      TouchOutcome(Then(r, o.run), o.last)
  }

  /** The last pointer position stored in a stage's dictionary. */
  function LastPos(v: View): Point
    requires ViewOk(v)
  {
    v.listeners[LastPointerPos].pos
  }

  /** What the touch handler did: its calls, and the new last positions of
      the stages it reached, in registration order. */
  datatype TouchResult = TouchResult(run: Run, lasts: seq<Point>)

  /** The changed touches of one event on every stage in turn, stopping at
      the first throw. */
  function TouchAll(vs: seq<View>, kind: PointerType, touches: seq<Point>): (t: TouchResult)
    requires forall i :: 0 <= i < |vs| ==> ViewOk(vs[i])
    ensures |t.lasts| <= |vs|
  {
    if vs == [] then TouchResult(Run([], None), [])
    else
      var o := TouchStage(vs[0], kind, touches, LastPos(vs[0]));
      if o.run.thrown.Some? then TouchResult(o.run, [o.last])
      else
        var rest := TouchAll(vs[1..], kind, touches);
        TouchResult(Then(o.run, rest.run), [o.last] + rest.lasts)
  }

  /** The remaining stages after a partial run `r` that produced `lasts`. */
  function ResumeStages(r: Run, lasts: seq<Point>, vs: seq<View>, kind: PointerType, touches: seq<Point>): TouchResult
    requires forall i :: 0 <= i < |vs| ==> ViewOk(vs[i])
  {
    if r.thrown.Some? then TouchResult(r, lasts)
    else
      var o := TouchAll(vs, kind, touches);
      TouchResult(Then(r, o.run), lasts + o.lasts)
  }

  /** A touch start is reported twice at the same place: first as a move,
      then as a start, and the place becomes the stage's last position. */
  lemma TouchStartEmitsMoveFirst(v: View, touch: Point, last: Point)
    requires ViewOk(v) && Callable(v, Move) && Callable(v, Start)
    ensures var p := CanvasPos(v, touch);
            TouchOne(v, Start, touch, last)
            == TouchOutcome(Run(StageCalls(v, Move, p) + StageCalls(v, Start, p), None), p)
  {
    var p := CanvasPos(v, touch);
    DeliverAllFunctions(v.listeners[Category(Move)].handlers, v.stage, PointerPayload(EventAt(v, Move, p)));
    DeliverAllFunctions(v.listeners[Category(Start)].handlers, v.stage, PointerPayload(EventAt(v, Start, p)));
  }

  /** After the starts or moves of one event have all been delivered, the
      stage's last position is that of the last touch, mapped onto its
      canvas. */
  lemma {:induction false} TouchStageLast(v: View, kind: PointerType, touches: seq<Point>, last: Point)
    requires ViewOk(v) && kind != End && touches != []
    requires TouchStage(v, kind, touches, last).run.thrown.None?
    ensures TouchStage(v, kind, touches, last).last == CanvasPos(v, touches[|touches| - 1])
    decreases |touches|
  {
    var o := TouchOne(v, kind, touches[0], last);
    if |touches| > 1 {
      TouchStageLast(v, kind, touches[1..], o.last);
    }
  }

  /** A touch end leaves the last position alone, and every listener call it
      makes receives an end event at that position, on the stage. */
  lemma {:induction false} TouchEndKeepsLast(v: View, touches: seq<Point>, last: Point)
    requires ViewOk(v)
    ensures TouchStage(v, End, touches, last).last == last
    ensures forall c :: c in TouchStage(v, End, touches, last).run.calls ==>
              c.stage == v.stage && c.arg == PointerPayload(EventAt(v, End, last))
    decreases |touches|
  {
    if touches != [] {
      DeliverCallsCarry(v.listeners[Category(End)].handlers, v.stage, PointerPayload(EventAt(v, End, last)));
      TouchEndKeepsLast(v, touches[1..], last);
    }
  }

  /** A touch end is reported where the preceding start or move left the
      pointer: at the last of its touches, mapped onto the canvas, whatever
      the positions of the ending touches. */
  lemma TouchEndAtLastMove(v: View, kind: PointerType, moves: seq<Point>, ends: seq<Point>, last: Point)
    requires ViewOk(v) && kind != End && moves != []
    requires TouchStage(v, kind, moves, last).run.thrown.None?
    ensures var p := TouchStage(v, kind, moves, last).last;
            forall c :: c in TouchStage(v, End, ends, p).run.calls ==>
              c.arg == PointerPayload(EventAt(v, End, CanvasPos(v, moves[|moves| - 1])))
  {
    TouchStageLast(v, kind, moves, last);
    TouchEndKeepsLast(v, ends, TouchStage(v, kind, moves, last).last);
  }

  /** When no listener throws, a touch event reaches the `i`th stage, and
      that stage's new last position is the one its own touches left. */
  lemma {:induction false} TouchAllReachesStage(vs: seq<View>, kind: PointerType, touches: seq<Point>, i: nat)
    requires forall j :: 0 <= j < |vs| ==> ViewOk(vs[j])
    requires TouchAll(vs, kind, touches).run.thrown.None? && i < |vs|
    ensures i < |TouchAll(vs, kind, touches).lasts|
    ensures TouchAll(vs, kind, touches).lasts[i] == TouchStage(vs[i], kind, touches, LastPos(vs[i])).last
  {
    var o := TouchStage(vs[0], kind, touches, LastPos(vs[0]));
    var rest := TouchAll(vs[1..], kind, touches);
    assert o.run.thrown.None?;
    if i > 0 {
      TouchAllReachesStage(vs[1..], kind, touches, i - 1);
      assert vs[1..][i - 1] == vs[i];
    }
  }

  /** When no listener throws, a touch event reaches every stage. */
  lemma {:induction false} TouchAllReachesEveryStage(vs: seq<View>, kind: PointerType, touches: seq<Point>)
    requires forall i :: 0 <= i < |vs| ==> ViewOk(vs[i])
    requires TouchAll(vs, kind, touches).run.thrown.None?
    ensures |TouchAll(vs, kind, touches).lasts| == |vs|
  {
    if vs != [] {
      TouchAllReachesEveryStage(vs[1..], kind, touches);
    }
  }

  /** The kinds of pointer event a touch of the given kind is reported as:
      a start is reported as a move and then as a start. */
  predicate Reported(kind: PointerType, reported: PointerType)
  {
    reported == kind || (kind == Start && reported == Move)
  }

  /** Where a touch is reported: its position mapped onto the canvas for a
      start or move, and the stage's last position for an end. */
  function TouchPos(v: View, kind: PointerType, touch: Point, last: Point): Point
    requires ViewOk(v)
  {
    if kind == End then last else CanvasPos(v, touch)
  }

  /** One changed touch on one stage: a start or move is mapped onto the
      canvas and becomes the new last position, while an end keeps it; the
      only thing thrown is a `TypeError`; every call receives a pointer event
      on the stage at the new last position, of the touch's kind or, for a
      start, a move. */
  lemma TouchOneReports(v: View, kind: PointerType, touch: Point, last: Point)
    requires ViewOk(v)
    ensures var o := TouchOne(v, kind, touch, last);
            o.last == TouchPos(v, kind, touch, last)
            && o.run.thrown != Some(InvalidEvent) && o.run.thrown != Some(TickerNeedsFunction)
    ensures var o := TouchOne(v, kind, touch, last);
            forall c :: c in o.run.calls ==>
              c.stage == v.stage && c.arg.PointerPayload? && Reported(kind, c.arg.event.kind)
              && c.arg.event == EventAt(v, c.arg.event.kind, o.last)
  {
    var o := TouchOne(v, kind, touch, last);
    PointerAtCalls(v, kind, o.last);
    if kind == Start {
      PointerAtCalls(v, Move, o.last);
    }
  }

  /** The changed touches of one event on one stage: the only thing thrown is
      a `TypeError`, and every call receives a pointer event on that stage of
      the touches' kind or, for a start, a move. */
  lemma {:induction false} TouchStageReports(v: View, kind: PointerType, touches: seq<Point>, last: Point)
    requires ViewOk(v)
    ensures TouchStage(v, kind, touches, last).run.thrown != Some(InvalidEvent)
            && TouchStage(v, kind, touches, last).run.thrown != Some(TickerNeedsFunction)
    ensures forall c :: c in TouchStage(v, kind, touches, last).run.calls ==>
              c.stage == v.stage && c.arg.PointerPayload? && Reported(kind, c.arg.event.kind)
    decreases |touches|
  {
    if touches != [] {
      var o := TouchOne(v, kind, touches[0], last);
      TouchOneReports(v, kind, touches[0], last);
      if o.run.thrown.None? {
        TouchStageReports(v, kind, touches[1..], o.last);
      }
    }
  }

  /** A touch event on every stage: the only thing thrown is a `TypeError`,
      and every call receives a pointer event of the touches' kind or, for a
      start, a move. */
  lemma {:induction false} TouchAllReports(vs: seq<View>, kind: PointerType, touches: seq<Point>)
    requires forall i :: 0 <= i < |vs| ==> ViewOk(vs[i])
    ensures TouchAll(vs, kind, touches).run.thrown != Some(InvalidEvent)
            && TouchAll(vs, kind, touches).run.thrown != Some(TickerNeedsFunction)
    ensures forall c :: c in TouchAll(vs, kind, touches).run.calls ==>
              c.arg.PointerPayload? && Reported(kind, c.arg.event.kind)
  {
    if vs != [] {
      var o := TouchStage(vs[0], kind, touches, LastPos(vs[0]));
      TouchStageReports(vs[0], kind, touches, LastPos(vs[0]));
      if o.run.thrown.None? {
        TouchAllReports(vs[1..], kind, touches);
      }
    }
  }

  /** A touch move is reported once, at its position mapped onto the canvas,
      which becomes the stage's last position. */
  lemma TouchMoveCalls(v: View, touch: Point, last: Point)
    requires ViewOk(v) && Callable(v, Move)
    ensures var p := CanvasPos(v, touch);
            TouchOne(v, Move, touch, last) == TouchOutcome(Run(StageCalls(v, Move, p), None), p)
  {
    var p := CanvasPos(v, touch);
    DeliverAllFunctions(v.listeners[Category(Move)].handlers, v.stage, PointerPayload(EventAt(v, Move, p)));
  }

  /** A touch end is reported once, at the stage's last position, whatever
      the touch's own position, and the last position is kept. */
  lemma TouchEndCalls(v: View, touch: Point, last: Point)
    requires ViewOk(v) && Callable(v, End)
    ensures TouchOne(v, End, touch, last) == TouchOutcome(Run(StageCalls(v, End, last), None), last)
  {
    DeliverAllFunctions(v.listeners[Category(End)].handlers, v.stage, PointerPayload(EventAt(v, End, last)));
  }

  /** The listeners a touch of the given kind reaches are all functions. */
  predicate TouchCallable(v: View, kind: PointerType)
    requires ListenersShape(v.listeners)
  {
    Callable(v, kind) && (kind == Start ==> Callable(v, Move))
  }

  /** The calls one touch reported at `pos` makes when its listeners are all
      functions: for a start, the move listeners and then the start
      listeners. */
  function TouchCalls(v: View, kind: PointerType, pos: Point): seq<Call>
    requires ViewOk(v) && TouchCallable(v, kind)
  {
    if kind == Start then StageCalls(v, Move, pos) + StageCalls(v, Start, pos)
    else StageCalls(v, kind, pos)
  }

  /** The calls the changed touches of one event make on one stage whose last
      position is `last`, touch after touch. */
  function StageTouchCalls(v: View, kind: PointerType, touches: seq<Point>, last: Point): seq<Call>
    requires ViewOk(v) && TouchCallable(v, kind)
  {
    Flatten(seq(|touches|, j requires 0 <= j < |touches| => TouchCalls(v, kind, TouchPos(v, kind, touches[j], last))))
  }

  /** One touch makes exactly the calls `TouchCalls` gives when its listeners
      are all functions. */
  lemma TouchOneCalls(v: View, kind: PointerType, touch: Point, last: Point)
    requires ViewOk(v) && TouchCallable(v, kind)
    ensures TouchOne(v, kind, touch, last).run == Run(TouchCalls(v, kind, TouchPos(v, kind, touch, last)), None)
  {
    match kind
    case Start => TouchStartEmitsMoveFirst(v, touch, last);
    case Move => TouchMoveCalls(v, touch, last);
    case End => TouchEndCalls(v, touch, last);
  }

  /** When no listener a touch reaches is a non-function, the changed touches
      of one event on one stage are all handled, in order, and each makes
      exactly its calls. */
  lemma {:induction false} TouchStageCalls(v: View, kind: PointerType, touches: seq<Point>, last: Point)
    requires ViewOk(v) && TouchCallable(v, kind)
    ensures TouchStage(v, kind, touches, last).run == Run(StageTouchCalls(v, kind, touches, last), None)
    decreases |touches|
  {
    var blocks := seq(|touches|, j requires 0 <= j < |touches| => TouchCalls(v, kind, TouchPos(v, kind, touches[j], last)));
    if touches != [] {
      var o := TouchOne(v, kind, touches[0], last);
      TouchOneCalls(v, kind, touches[0], last);
      TouchStageCalls(v, kind, touches[1..], o.last);
      var rest := seq(|touches[1..]|, j requires 0 <= j < |touches[1..]| =>
                        TouchCalls(v, kind, TouchPos(v, kind, touches[1..][j], o.last)));
      assert blocks[1..] == rest;
    }
  }

  /** When no listener a touch reaches is a non-function, a touch event
      reaches every stage in registration order, and on each stage every
      changed touch in order: the calls are those of the first stage's
      touches, then the second stage's, and so on. */
  lemma {:induction false} TouchReachesEveryStage(vs: seq<View>, kind: PointerType, touches: seq<Point>)
    requires forall i :: 0 <= i < |vs| ==> ViewOk(vs[i]) && TouchCallable(vs[i], kind)
    ensures TouchAll(vs, kind, touches).run
            == Run(Flatten(seq(|vs|, i requires 0 <= i < |vs| => StageTouchCalls(vs[i], kind, touches, LastPos(vs[i])))),
                   None)
  {
    var blocks := seq(|vs|, i requires 0 <= i < |vs| => StageTouchCalls(vs[i], kind, touches, LastPos(vs[i])));
    if vs != [] {
      TouchStageCalls(vs[0], kind, touches, LastPos(vs[0]));
      TouchReachesEveryStage(vs[1..], kind, touches);
      var rest := seq(|vs[1..]|, i requires 0 <= i < |vs[1..]| =>
                        StageTouchCalls(vs[1..][i], kind, touches, LastPos(vs[1..][i])));
      assert blocks[1..] == rest;
    }
  }

  /** A window point lands on the canvas in proportion to where it lies in
      the box: its offset from the box's corner scaled from the box's size to
      the buffer's, so the box's two corners land on the buffer's. */
  lemma CanvasPosScales(v: View, client: Point)
    requires ViewOk(v)
    ensures CanvasPos(v, client).x * v.box.width == (client.x - v.box.left) * v.bufferWidth
    ensures CanvasPos(v, client).y * v.box.height == (client.y - v.box.top) * v.bufferHeight
    ensures client == Point(v.box.left, v.box.top) ==> CanvasPos(v, client) == Point(0.0, 0.0)
    ensures client == Point(v.box.left + v.box.width, v.box.top + v.box.height)
            ==> CanvasPos(v, client) == Point(v.bufferWidth, v.bufferHeight)
  {
  }

  /** A stage agrees with a view taken of it earlier, except possibly for
      its last pointer position. */
  ghost predicate Matches(stage: Stage, v: View, layout: map<Canvas, Rect>)
    reads stage, stage.canvas
  {
    ViewOk(v) && stage.Valid() && stage.canvas in layout
    && v.stage == stage && v.dpr == stage.dpr
    && v.width == stage.width && v.height == stage.height
    && v.bufferWidth == stage.canvas.width && v.bufferHeight == stage.canvas.height
    && v.box == layout[stage.canvas]
    && stage.listeners == v.listeners[LastPointerPos := stage.listeners[LastPointerPos]]
  }

  /** A stage that matches a view dispatches pointer events as the view
      says. */
  lemma MatchesListeners(stage: Stage, v: View, layout: map<Canvas, Rect>, kind: PointerType)
    requires Matches(stage, v, layout)
    ensures stage.listeners[Category(kind)] == v.listeners[Category(kind)]
  {
  }

  /** A pointer event of the given kind at a position in buffer pixels on a
      stage that matches a view. */
  method PointerAtRun(stage: Stage, ghost v: View, kind: PointerType, pos: Point, layout: map<Canvas, Rect>)
    returns (r: Run)
    requires Matches(stage, v, layout)
    ensures r == PointerAt(v, kind, pos)
  {
    MatchesListeners(stage, v, layout, kind);
    r := stage.PointerEvent(kind, pos.x / stage.dpr, pos.y / stage.dpr);
  }

  /** One changed touch on one stage, as the inner loop of `touchHandler`
      handles it. */
  method TouchOneRun(stage: Stage, ghost v: View, kind: PointerType, touch: Point, layout: map<Canvas, Rect>)
    returns (step: Run)
    requires Matches(stage, v, layout)
    modifies stage
    ensures Matches(stage, v, layout)
    ensures stage.naturalWidth == old(stage.naturalWidth) && stage.naturalHeight == old(stage.naturalHeight)
    ensures var o := TouchOne(v, kind, touch, old(stage.listeners[LastPointerPos].pos));
            step == o.run && stage.listeners[LastPointerPos] == Position(o.last)
  {
    var pos: Point;
    step := Run([], None);
    if kind != End {
      pos := WindowToCanvas(stage.canvas.width, stage.canvas.height, layout[stage.canvas], touch.x, touch.y);
      stage.listeners := stage.listeners[LastPointerPos := Position(pos)];
      assert Matches(stage, v, layout);
      if kind == Start {
        step := PointerAtRun(stage, v, Move, pos, layout);
      }
    } else {
      pos := stage.listeners[LastPointerPos].pos;
    }
    if step.thrown.None? {
      var emitted := PointerAtRun(stage, v, kind, pos, layout);
      step := Then(step, emitted);
    }
  }

  /** Handling the `i`th stage moves it from the remaining work to the
      partial result. */
  lemma ResumeStagesStep(r: Run, lasts: seq<Point>, vs: seq<View>, i: nat, kind: PointerType, touches: seq<Point>)
    requires forall j :: 0 <= j < |vs| ==> ViewOk(vs[j])
    requires r.thrown.None? && i < |vs|
    ensures var o := TouchStage(vs[i], kind, touches, LastPos(vs[i]));
            ResumeStages(r, lasts, vs[i..], kind, touches)
            == ResumeStages(Then(r, o.run), lasts + [o.last], vs[i + 1..], kind, touches)
  {
    var o := TouchStage(vs[i], kind, touches, LastPos(vs[i]));
    assert vs[i..][1..] == vs[i + 1..];
    if o.run.thrown.None? {
      var rest := TouchAll(vs[i + 1..], kind, touches);
      ThenAssociative(r, o.run, rest.run);
      assert lasts + ([o.last] + rest.lasts) == (lasts + [o.last]) + rest.lasts;
    }
  }

  /** With no stage left, or after a throw, the partial result is the whole
      result. */
  lemma ResumeStagesDone(r: Run, lasts: seq<Point>, vs: seq<View>, kind: PointerType, touches: seq<Point>)
    requires forall i :: 0 <= i < |vs| ==> ViewOk(vs[i])
    requires vs == [] || r.thrown.Some?
    ensures ResumeStages(r, lasts, vs, kind, touches) == TouchResult(r, lasts)
  {
    if r.thrown.None? {
      ThenDone(r);
      assert lasts + [] == lasts;
    }
  }

  /** Handling the `i`th touch moves it from the remaining work to the
      partial result. */
  lemma ResumeTouchesStep(r: Run, v: View, kind: PointerType, touches: seq<Point>, i: nat, last: Point)
    requires ViewOk(v) && r.thrown.None? && i < |touches|
    ensures var o := TouchOne(v, kind, touches[i], last);
            ResumeTouches(r, v, kind, touches[i..], last)
            == ResumeTouches(Then(r, o.run), v, kind, touches[i + 1..], o.last)
  {
    var o := TouchOne(v, kind, touches[i], last);
    assert touches[i..][0] == touches[i] && touches[i..][1..] == touches[i + 1..];
    if o.run.thrown.None? {
      ThenAssociative(r, o.run, TouchStage(v, kind, touches[i + 1..], o.last).run);
    }
  }

  /** The body of `touchHandler`'s loop for one stage: every changed touch in
      order, overwriting the stage's last pointer position for each start or
      move. */
  method TouchStageRun(stage: Stage, kind: PointerType, touches: seq<Point>, layout: map<Canvas, Rect>)
    returns (r: Run)
    requires stage.Valid() && stage.canvas in layout
    requires layout[stage.canvas].width != 0.0 && layout[stage.canvas].height != 0.0
    modifies stage
    ensures stage.Valid()
    ensures stage.width == old(stage.width) && stage.height == old(stage.height)
    ensures stage.naturalWidth == old(stage.naturalWidth) && stage.naturalHeight == old(stage.naturalHeight)
    ensures var o := TouchStage(old(ViewOf(stage, layout)), kind, touches, old(stage.listeners[LastPointerPos].pos));
            r == o.run && stage.listeners == old(stage.listeners)[LastPointerPos := Position(o.last)]
  {
    ghost var v := ViewOf(stage, layout);
    ghost var start := stage.listeners[LastPointerPos].pos;
    r := Run([], None);
    var i := 0;
    while i < |touches| && r.thrown.None?
      invariant 0 <= i <= |touches|
      invariant Matches(stage, v, layout)
      invariant stage.naturalWidth == old(stage.naturalWidth) && stage.naturalHeight == old(stage.naturalHeight)
      invariant ResumeTouches(r, v, kind, touches[i..], stage.listeners[LastPointerPos].pos)
                == TouchStage(v, kind, touches, start)
    {
      ResumeTouchesStep(r, v, kind, touches, i, stage.listeners[LastPointerPos].pos);
      var step := TouchOneRun(stage, v, kind, touches[i], layout);
      r := Then(r, step);
      i := i + 1;
    }
    ThenDone(r);
  }

  /** A stage's listener dictionary after the touch handler: updated with
      its new last position when the handler reached it. */
  function Touched(listeners: map<string, Slot>, i: nat, lasts: seq<Point>): map<string, Slot>
  {
    if i < |lasts| then listeners[LastPointerPos := Position(lasts[i])] else listeners
  }

  /** `touchHandler`'s loop body for the `i`th registered stage. */
  method TouchRegisteredStage(globals: StageGlobals, i: nat, kind: PointerType, touches: seq<Point>,
                              layout: map<Canvas, Rect>) returns (step: Run)
    requires globals.Valid() && LaidOut(globals.stages, layout) && i < |globals.stages|
    modifies globals.stages[i]
    ensures globals.Valid()
    ensures var stage := globals.stages[i];
            stage.width == old(stage.width) && stage.height == old(stage.height)
            && stage.naturalWidth == old(stage.naturalWidth) && stage.naturalHeight == old(stage.naturalHeight)
    ensures var o := TouchStage(old(ViewOf(globals.stages[i], layout)), kind, touches,
                                old(globals.stages[i].listeners[LastPointerPos].pos));
            step == o.run
            && globals.stages[i].listeners == old(globals.stages[i].listeners)[LastPointerPos := Position(o.last)]
  {
    step := TouchStageRun(globals.stages[i], kind, touches, layout);
  }

  /** A stage's logical size and pixel-buffer size, which the touch handler
      leaves alone. */
  function Sizes(s: Stage): (real, real, real, real)
    reads s
  {
    (s.width, s.height, s.naturalWidth, s.naturalHeight)
  }

  /** What the stage loop knows before it reaches the `i`th stage: the
      views `vs` and the sizes `sizes` taken before the loop still describe
      every stage, except for the listener dictionaries of the stages already
      handled, which hold the last positions `lasts` over the dictionaries
      `orig` from before the loop. */
  ghost predicate StagesBefore(stages: seq<Stage>, i: nat, layout: map<Canvas, Rect>, vs: seq<View>,
                               sizes: seq<(real, real, real, real)>, orig: seq<map<string, Slot>>,
                               lasts: seq<Point>)
    reads stages, set s | s in stages :: s.canvas
  {
    i <= |stages| && |vs| == |sizes| == |orig| == |stages| && |lasts| == i
    && (forall j :: 0 <= j < |stages| ==> Sizes(stages[j]) == sizes[j])
    && (forall j :: 0 <= j < |stages| ==> stages[j].listeners == Touched(orig[j], j, lasts))
    && (forall j :: i <= j < |stages| ==> stages[j].canvas in layout && vs[j] == ViewOf(stages[j], layout))
  }

  /** The stage loop's body for the `i`th stage. */
  method TouchNextStage(globals: StageGlobals, i: nat, kind: PointerType, touches: seq<Point>,
                        layout: map<Canvas, Rect>, ghost vs: seq<View>, ghost sizes: seq<(real, real, real, real)>,
                        ghost orig: seq<map<string, Slot>>, ghost lasts: seq<Point>)
    returns (step: Run, ghost last: Point)
    requires globals.Valid() && LaidOut(globals.stages, layout) && i < |globals.stages|
    requires StagesBefore(globals.stages, i, layout, vs, sizes, orig, lasts)
    modifies globals.stages[i]
    ensures globals.Valid()
    ensures StagesBefore(globals.stages, i + 1, layout, vs, sizes, orig, lasts + [last])
    ensures ViewOk(vs[i])
    ensures var o := TouchStage(vs[i], kind, touches, LastPos(vs[i]));
            step == o.run && last == o.last
  {
    ViewsOk([globals.stages[i]], layout);
    assert ViewOk(ViewOf(globals.stages[i], layout));
    last := TouchStage(vs[i], kind, touches, LastPos(vs[i])).last;
    label BeforeStage:
    step := TouchRegisteredStage(globals, i, kind, touches, layout);
    forall j | 0 <= j < |globals.stages|
      ensures globals.stages[j].listeners == Touched(orig[j], j, lasts + [last])
      ensures Sizes(globals.stages[j]) == sizes[j]
    {
      if j != i {
        assert globals.stages[j] != globals.stages[i];
        assert globals.stages[j].listeners == old@BeforeStage(globals.stages[j].listeners);
      }
    }
  }

  /** `touchHandler`'s loop over the registered stages, stated over the
      views, sizes and listener dictionaries taken before the loop. */
  method TouchLoop(globals: StageGlobals, kind: PointerType, touches: seq<Point>, layout: map<Canvas, Rect>,
                   ghost vs: seq<View>, ghost sizes: seq<(real, real, real, real)>, ghost orig: seq<map<string, Slot>>)
    returns (r: Run, ghost lasts: seq<Point>)
    requires globals.Valid() && LaidOut(globals.stages, layout) && ViewsAreOk(vs)
    requires StagesBefore(globals.stages, 0, layout, vs, sizes, orig, [])
    modifies globals.stages
    ensures globals.Valid() && globals.stages == old(globals.stages)
    ensures StagesBefore(globals.stages, |lasts|, layout, vs, sizes, orig, lasts)
    ensures r == TouchAll(vs, kind, touches).run && lasts == TouchAll(vs, kind, touches).lasts
  {
    var stages := globals.stages;
    lasts := [];
    ghost var out := TouchAll(vs, kind, touches);
    r := Run([], None);
    var i := 0;
    while i < |stages| && r.thrown.None?
      invariant globals.stages == stages && globals.Valid()
      invariant StagesBefore(stages, i, layout, vs, sizes, orig, lasts)
      invariant ResumeStages(r, lasts, vs[i..], kind, touches) == out
    {
      var step;
      ghost var last;
      step, last := TouchNextStage(globals, i, kind, touches, layout, vs, sizes, orig, lasts);
      ResumeStagesStep(r, lasts, vs, i, kind, touches);
      lasts := lasts + [last];
      r := Then(r, step);
      i := i + 1;
    }
    ResumeStagesDone(r, lasts, vs[i..], kind, touches);
  }

  /** `touchHandler`'s loop over the registered stages, whose views before
      the loop are `vs`. */
  method TouchStages(globals: StageGlobals, kind: PointerType, touches: seq<Point>, layout: map<Canvas, Rect>,
                     ghost vs: seq<View>)
    returns (r: Run)
    requires globals.Valid() && LaidOut(globals.stages, layout)
    requires vs == Views(globals.stages, layout)
    modifies globals.stages
    ensures globals.Valid()
    ensures forall i :: 0 <= i < |globals.stages| ==> Sizes(globals.stages[i]) == old(Sizes(globals.stages[i]))
    ensures ViewsAreOk(vs)
    ensures r == TouchAll(vs, kind, touches).run
    ensures forall i :: 0 <= i < |globals.stages| ==>
              globals.stages[i].listeners == Touched(old(globals.stages[i].listeners), i, TouchAll(vs, kind, touches).lasts)
  {
    var stages := globals.stages;
    ViewsOk(stages, layout);
    ghost var orig := seq(|stages|, j requires 0 <= j < |stages| reads stages => stages[j].listeners);
    ghost var sizes := seq(|stages|, j requires 0 <= j < |stages| reads stages => Sizes(stages[j]));
    ghost var lasts;
    r, lasts := TouchLoop(globals, kind, touches, layout, vs, sizes, orig);
  }

  /** `Stage.touchHandler` for an event of the given type whose changed
      touches are at the window positions `touches`, at time `now`, with
      `layout` giving each canvas's bounding box: the touch time is recorded
      first, then every stage handles every changed touch. */
  method TouchHandler(globals: StageGlobals, eventType: string, touches: seq<Point>, now: real,
                      layout: map<Canvas, Rect>) returns (r: Run)
    requires globals.Valid() && LaidOut(globals.stages, layout)
    modifies globals, globals.stages
    ensures globals.Valid()
    ensures globals.stages == old(globals.stages) && globals.lastTouchTimestamp == now
    ensures globals.disableHighDPI == old(globals.disableHighDPI)
    ensures forall i :: 0 <= i < |globals.stages| ==> Sizes(globals.stages[i]) == old(Sizes(globals.stages[i]))
    ensures var out := TouchAll(old(Views(globals.stages, layout)), TouchType(eventType), touches);
            r == out.run
            && forall i :: 0 <= i < |globals.stages| ==>
                 globals.stages[i].listeners == Touched(old(globals.stages[i].listeners), i, out.lasts)
  {
    globals.lastTouchTimestamp := now;
    var kind := Start;
    if eventType == "touchmove" {
      kind := Move;
    } else if eventType == "touchend" {
      kind := End;
    }
    r := TouchStages(globals, kind, touches, layout, Views(globals.stages, layout));
  }
}
