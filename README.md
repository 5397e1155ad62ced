# Fireworks stage and ticker

This project models the browser-side core of the fireworks demo: the
`Ticker` frame scheduler and the `Stage` drawing surface, both in
`visual/fireworks/js/Stage.js`.

- **`Frames`** (`ticker.dfy`). The ticker is a class with three fields:
  - a `started` flag;
  - the previous frame's raw timestamp;
  - the list of frame listeners, in registration order.

  `requestAnimationFrame` becomes a count of frame requests not yet served.
  `FrameHandler` is what the platform runs to serve one of them.
- **`Pointer`** (`pointer.dfy`). The pure parts of input handling:
  - classifying mouse and touch event types;
  - `windowToCanvas`;
  - the inclusive `onCanvas` test.
- **`Stages`** (`stage.dfy`).
  - A `Stage` class holds:
    - its canvas;
    - its scale factor;
    - its logical and natural (buffer) sizes;
    - the `_listeners` dictionary, as a map from names to slots. A slot is
      either a list of listeners or the last pointer position, as in the
      code.
  - A `StageGlobals` class holds `Stage.stages`, `Stage.disableHighDPI` and
    the handlers' `lastTouchTimestamp`.
  - A `Canvas` class holds the buffer size and the pinned CSS size.
- **`Input`** (`input.dfy`). The document-wide `mouseHandler` and
  `touchHandler`, as loops over the registered stages.
- **`Js`** (`js.dfy`). Values both halves share:
  - optional values;
  - handlers: a function, known by its id, or any other value;
  - what the code throws;
  - JavaScript's `x || 1`.

A listener is known only by its identity. Calling it is recorded as a `Call`
holding the listener, its `this` and its argument. A `forEach` over
listeners is a `Run`: the calls made, in order, and what was thrown, if
anything. Calling a value that is not a function throws a `TypeError`, which
ends the `forEach`.

Each handler's behaviour is first defined as a function over `View`
snapshots of the stages: `DispatchRun`, `MouseRun`, `TouchAll`. Each method
is then proved equal to that function. The properties the code promises are
proved as lemmas about the functions.

Where the code and its usual description differ, the model follows the
code:
- The ticker's category name is `"ticker"`, not "frame".
- The frame time is only raised to 17 when it is negative. A time from 0 to
  17 passes through unchanged, so the clamp is not to [17, 68].
- The constructor resizes the buffer when the logical width differs from
  the natural width. It compares widths only.
- `"lastPointerPos"` is a key of the same dictionary as the listener lists:
  - registering a listener under it fails with "Invalid Event";
  - dispatching it throws a `TypeError`.
- Names inherited from `Object.prototype`, such as `"toString"`, are found
  by the dictionary lookup. Dispatching one throws a `TypeError`, not
  "Invalid Event".

## Model

| member | source | states |
|---|---|---|
| Frames.ClampFrameTime | visual/fireworks/js/Stage.js:23-30 | the frame time always lies in [0, 68]; a negative difference becomes 17, one above 68 becomes 68, and one in [0, 68] is unchanged |
| Frames.FrameCalls | visual/fireworks/js/Stage.js:31 | a frame makes exactly one call per listener, in registration order, each with the frame time and the frame time divided by 16.6667 |
| Frames.FrameCallsBounded | visual/fireworks/js/Stage.js:23-31 | for any two timestamps, the i-th call of a frame goes to the i-th listener, with a frame time in [0, 68] and frame units that are that time over 16.6667 |
| Frames.Ticker.constructor | visual/fireworks/js/Stage.js:12-14 | the ticker starts stopped, with timestamp 0, no listeners and no frame queued |
| Frames.Ticker.QueueFrame | visual/fireworks/js/Stage.js:15-21 | queueing a frame adds exactly one pending frame request |
| Frames.Ticker.AddListener | visual/fireworks/js/Stage.js:4-11 | a non-function throws and changes nothing; a function is appended; only the first one starts the loop and queues one frame; the invariant "started exactly when some listener exists, with exactly one frame in flight" is kept |
| Frames.Ticker.FrameHandler | visual/fireworks/js/Stage.js:22-33 | stores the raw timestamp, not the clamped time; returns the calls `FrameCalls` gives for the clamped difference from the previous timestamp; listeners and `started` are unchanged, and exactly one new frame replaces the one served |
| Js.OrOne | visual/fireworks/js/Stage.js:45 | the value or 1 is never 0; it is `v` when `v` is a nonzero number and 1 when `v` is undefined or 0 |
| Stages.ScaleFactor | visual/fireworks/js/Stage.js:45 | the scale factor is never 0; it is 1 when high-DPI correction is disabled, and otherwise times the backing store ratio it gives the device pixel ratio, each ratio taken as 1 when undefined or 0 |
| Stages.InitialListeners | visual/fireworks/js/Stage.js:57-63 | a new dictionary has exactly the four listener categories, each with an empty list, plus the last pointer position (0, 0) |
| Stages.StageGlobals.constructor | visual/fireworks/js/Stage.js:65-66 | no stage is registered, high-DPI correction is enabled and no touch has happened |
| Stages.StageGlobals.Register | visual/fireworks/js/Stage.js:56 | the stage is appended to the registry, which keeps every stage once and every stage well formed |
| Stages.Canvas.SetSize | visual/fireworks/js/Stage.js:91-94 | the canvas's buffer takes the given size and its CSS size is pinned to the given logical size |
| Stages.Stage.constructor | visual/fireworks/js/Stage.js:39-64 | the stage's logical size is the canvas's size and its scale factor is `ScaleFactor`; the natural size is the logical size times that factor; the canvas's buffer and CSS size change exactly when the width differs from the natural width; the dictionary is `InitialListeners`; the stage is appended to `Stage.stages` |
| Stages.Stage.AddEventListener | visual/fireworks/js/Stage.js:67-77 | "ticker" forwards to the ticker, and the ticker's refusal becomes "Invalid Event"; a listener category gets the handler appended and nothing else changes; any other name, including "lastPointerPos" and inherited names, throws "Invalid Event" and changes nothing |
| Stages.Deliver | visual/fireworks/js/Stage.js:81 | a `forEach` over listeners makes no more calls in total than there are listeners, and throws nothing or a `TypeError`; `DeliverPrefix` gives the exact calls |
| Stages.DeliverPrefix | visual/fireworks/js/Stage.js:81 | the listeners before the first non-function are each called once, in order, with the same `this` and argument; a `TypeError` is thrown exactly when a non-function exists |
| Stages.DeliverAllFunctions | visual/fireworks/js/Stage.js:81 | when all listeners are functions, each is called once, in order, and nothing is thrown |
| Stages.DeliverCallsCarry | visual/fireworks/js/Stage.js:81 | every call passes the stage as `this` and the dispatched value, and goes to a registered listener |
| Stages.DispatchRun | visual/fireworks/js/Stage.js:78-85 | "Invalid Event" is thrown exactly when the name is neither a key of the dictionary nor inherited; a listener list is delivered to; any other value found makes no call |
| Stages.DispatchOnShape | visual/fireworks/js/Stage.js:78-85 | on a well-formed dictionary, a category is delivered to, "lastPointerPos" throws a `TypeError`, and any other name throws a `TypeError` if inherited and "Invalid Event" otherwise |
| Stages.Stage.DispatchEvent | visual/fireworks/js/Stage.js:78-85 | the loop over the listeners makes exactly the calls `DispatchRun` describes and stops at the first non-function |
| Stages.Stage.Resize | visual/fireworks/js/Stage.js:86-96 | sets the logical size, sets the natural size to the logical size times the unchanged scale factor, sets the canvas's buffer to the natural size and its CSS size to the logical size, leaves the listeners alone, and delivers exactly one "resize" dispatch |
| Stages.ResizeCallsCarryNoValue | visual/fireworks/js/Stage.js:95 | every call made by a "resize" dispatch goes to a resize listener, with the stage as `this` and no value |
| Stages.Stage.PointerEvent | visual/fireworks/js/Stage.js:141-149 | delivers the event built by `MakePointerEvent` to the listeners of "pointer" plus the type name |
| Pointer.Category | visual/fireworks/js/Stage.js:148 | a pointer event's category is "pointer" followed by its type name; it is one of the three pointer categories, never "resize" or "lastPointerPos" |
| Pointer.CategoryInjective | visual/fireworks/js/Stage.js:148 | distinct pointer types are dispatched under distinct categories |
| Pointer.Classify | visual/fireworks/js/Stage.js:108-113 | the event type named for a move is exactly a move, the one named for an end exactly an end, and every other type a start; `mouseHandler` names "mousemove" and "mouseup", and `touchHandler` (lines 121-126) "touchmove" and "touchend" |
| Pointer.MouseType | visual/fireworks/js/Stage.js:108-113 | a mouse event is a move exactly when its type is "mousemove" and an end exactly when it is "mouseup"; "mousedown" is a start |
| Pointer.TouchType | visual/fireworks/js/Stage.js:121-126 | a touch event is a move exactly when its type is "touchmove" and an end exactly when it is "touchend"; "touchstart" is a start |
| Pointer.WindowToCanvas | visual/fireworks/js/Stage.js:97-103 | the offset from the box's corner stands to the box's size as the result stands to the canvas's buffer size, on each axis |
| Pointer.MakePointerEvent | visual/fireworks/js/Stage.js:141-147 | the event carries the type and coordinates; `onCanvas` holds exactly when 0 <= x <= width and 0 <= y <= height, both bounds inclusive |
| Pointer.OnCanvasIffInsideBox | visual/fireworks/js/Stage.js:141-147 | with the buffer at natural size and every size positive, a pointer at window position (x, y) is on the canvas exactly when (x, y) lies inside the canvas's bounding box |
| Input.EventAt | visual/fireworks/js/Stage.js:137 | the event for a buffer position carries that position divided by the scale factor; it is on the canvas exactly when inside the logical size |
| Input.CanvasPosScales | visual/fireworks/js/Stage.js:115 | a window point lands on a stage's canvas in proportion to where it lies in the canvas's box; the box's top-left corner lands on (0, 0) and its bottom-right corner on the buffer's size |
| Input.PointerAtCalls | visual/fireworks/js/Stage.js:137 | a pointer event on one stage throws nothing or a `TypeError`; every call goes to a registered listener of the event's category, with the stage as `this` and the event built for that position |
| Input.MouseAllCalls | visual/fireworks/js/Stage.js:114-117 | a mouse event on every stage throws nothing or a `TypeError`, and every call receives a pointer event of the event's kind |
| Input.MouseRunCalls | visual/fireworks/js/Stage.js:104-118 | within 500 ms of the last touch a mouse event makes no call and throws nothing; otherwise it throws nothing or a `TypeError`, and every call receives a pointer event of the kind its type names |
| Input.MouseStage | visual/fireworks/js/Stage.js:115-116 | one stage's part of a mouse event: one pointer event at the mouse position mapped onto its canvas |
| Input.MouseStages | visual/fireworks/js/Stage.js:114-117 | the loop over the stages makes exactly the calls `MouseAll` describes |
| Input.MouseHandler | visual/fireworks/js/Stage.js:104-118 | within 500 ms of the last touch nothing is dispatched; otherwise the type is classified and every stage, in registration order, gets one pointer event, as `MouseRun` describes; nothing changes |
| Input.MouseReachesEveryStage | visual/fireworks/js/Stage.js:114-117 | when no pointer listener is a non-function, every stage, in registration order, gets exactly one event; each of its listeners is called once with the mouse position mapped onto that stage's canvas and divided by its scale factor |
| Input.TouchStartEmitsMoveFirst | visual/fireworks/js/Stage.js:130-137 | a touch start is delivered first as a move, then as a start, at the same mapped position, which becomes the last position |
| Input.TouchOneReports | visual/fireworks/js/Stage.js:129-137 | one changed touch: a start or move is mapped onto the canvas and becomes the new last position, an end keeps it; only a `TypeError` is thrown; every call gets, on that stage, an event at the new last position, of the touch's kind or, for a start, a move |
| Input.TouchStageReports | visual/fireworks/js/Stage.js:128-138 | the changed touches of one event on one stage throw nothing or a `TypeError`, and every call gets an event on that stage of the touches' kind or, for a start, a move |
| Input.TouchAllReports | visual/fireworks/js/Stage.js:127-139 | a touch event on every stage throws nothing or a `TypeError`, and every call gets an event of the touches' kind or, for a start, a move |
| Input.TouchMoveCalls | visual/fireworks/js/Stage.js:131-137 | when the move listeners are all functions, a touch move calls each once, in order, at its position mapped onto the canvas, throws nothing, and that position becomes the last position |
| Input.TouchEndCalls | visual/fireworks/js/Stage.js:135-137 | when the end listeners are all functions, a touch end calls each once, in order, at the stored last position whatever the touch's own position, throws nothing, and keeps the last position |
| Input.TouchOneCalls | visual/fireworks/js/Stage.js:129-137 | when the listeners a touch reaches are all functions, one touch makes exactly its calls (for a start, the move listeners and then the start listeners) and throws nothing |
| Input.TouchStageCalls | visual/fireworks/js/Stage.js:128-138 | when the listeners a touch reaches are all functions, the changed touches on one stage are all handled, in order, each making exactly its calls, and nothing is thrown |
| Input.TouchReachesEveryStage | visual/fireworks/js/Stage.js:127-139 | when the listeners a touch reaches are all functions on every stage, the calls are those of the first stage's touches, then the second stage's, and so on, and nothing is thrown |
| Input.TouchStageLast | visual/fireworks/js/Stage.js:130-132 | after the starts or moves of one event, the stage's last position is the last touch's position mapped onto its canvas, in buffer pixels |
| Input.TouchEndKeepsLast | visual/fireworks/js/Stage.js:134-137 | a touch end leaves the last position unchanged, and every call it makes receives an end event at that position |
| Input.TouchEndAtLastMove | visual/fireworks/js/Stage.js:128-138 | a touch end is reported at the last touch of the preceding start or move, whatever the ending touches' own positions |
| Input.TouchAllReachesStage | visual/fireworks/js/Stage.js:127-139 | when nothing throws, every stage is reached, and its new last position is the one its own touches left |
| Input.TouchAllReachesEveryStage | visual/fireworks/js/Stage.js:127-139 | when nothing throws, there is one new last position per stage |
| Input.PointerAtRun | visual/fireworks/js/Stage.js:137 | a pointer event at a buffer position, on a stage whose other fields match a snapshot, delivers what the snapshot says |
| Input.TouchOneRun | visual/fireworks/js/Stage.js:129-137 | one changed touch: a start or move stores its mapped position as the last position before dispatching; an end dispatches at the stored position; the calls are those `TouchOne` describes |
| Input.TouchStageRun | visual/fireworks/js/Stage.js:128-138 | the loop over the changed touches on one stage makes the calls `TouchStage` describes, and leaves the last position that `TouchStage` gives |
| Input.TouchRegisteredStage | visual/fireworks/js/Stage.js:127-139 | the same for the i-th registered stage, with the registry kept well formed |
| Input.TouchNextStage | visual/fireworks/js/Stage.js:127-139 | one step of the stage loop: only the i-th stage's last position changes |
| Input.TouchLoop | visual/fireworks/js/Stage.js:127-139 | the loop over the stages makes the calls `TouchAll` describes, and every stage it reached holds the new last position `TouchAll` gives |
| Input.TouchStages | visual/fireworks/js/Stage.js:127-139 | the same, stated over the dictionaries before the loop; sizes are unchanged |
| Input.TouchHandler | visual/fireworks/js/Stage.js:119-140 | the touch time is recorded first, then the type is classified, then the stages are handled as `TouchAll` describes; only last positions change |

## Left out

- DOM plumbing is not modelled. This covers:
  - looking a canvas up by its id string;
  - `getContext("2d")`;
  - `style.touchAction`;
  - the "px" suffix of style sizes (a style size is a number here);
  - the `document.addEventListener` installation of the two handlers.
- The unused `speed` field is not modelled.
- `requestAnimationFrame` and its `webkitRequestAnimationFrame` fallback are a counter of pending frame requests. A frame is served by calling `FrameHandler`.
- The environment becomes parameters:
  - `Date.now()` is the `now` parameter;
  - `window.devicePixelRatio` and the context's `backingStorePixelRatio` are optional parameters;
  - each canvas's `getBoundingClientRect()` is a `layout` map.
- Frames.Ticker.FrameHandler: listener calls are returned, not made. The `window` passed as `this` is not modelled.
- Frames.Ticker.FrameHandler: a frame listener that throws is not modelled. In the code it ends the `forEach` and skips `queueFrame()` (Stage.js lines 31-32), so the frame loop stops for good while `started` stays true. `Ticker.Valid`'s "exactly one frame in flight while started" holds only because that case is excluded.
- What listeners do is not modelled, because a listener is only an id. The model does not capture:
  - a listener that throws part-way through a `forEach`;
  - a listener that re-enters the stage or the ticker.

  Only calling a non-function is a throw.
- Arithmetic is exact `real` arithmetic. IEEE rounding, NaN and Infinity are not modelled.
- Stages.Stage.constructor: the canvas's buffer size is kept as an exact real. The DOM truncates `canvas.width` and `canvas.height` to integers.
- Stages.Stage.Resize: the same integer truncation of the buffer size is not modelled.
- Pointer.WindowToCanvas: requires a bounding box of nonzero width and height. JavaScript would divide by zero.
- Input.MouseHandler: requires every registered canvas to be laid out with a box of nonzero size, for the same reason. This is required even where no box is read: a mouse event within 500 ms of a touch. JavaScript would handle that event with a 0x0 box, but the model does not cover it.
- Input.TouchHandler: requires every registered canvas to be laid out with a box of nonzero size, for the same reason. This is required even where no box is read: a touch end, or an event with no changed touches. JavaScript would handle those with a 0x0 box, but the model does not cover them.
- Pointer.OnCanvasIffInsideBox: only states the equivalence for positive sizes and scale factor.
- Stages.Stage.AddEventListener: handlers pushed into a list are any value, as in the code. A value that is not a function but has a `call` method is treated as a non-function.
- Input.TouchHandler: a touch list is the sequence of changed touches' window positions. The `TouchList` object and touch identifiers are not modelled, which matches the code's one last position per stage.
