/** The pure part of the stage's input handling: classifying raw events,
    mapping window coordinates onto a canvas, and building pointer events. */
module Pointer {

  datatype Point = Point(x: real, y: real)

  /** The result of `getBoundingClientRect()`, in window (CSS) pixels. */
  datatype Rect = Rect(left: real, top: real, width: real, height: real)

  datatype PointerType = Start | Move | End

  /** The `type` string carried by a pointer event. */
  function TypeName(t: PointerType): string
  {
    match t
    case Start => "start"
    case Move => "move"
    case End => "end"
  }

  /** The stage event category a pointer event is dispatched under:
      "pointer" followed by the type name. */
  function Category(t: PointerType): (c: string)
    ensures c == "pointer" + TypeName(t)
    ensures c == "pointerstart" || c == "pointermove" || c == "pointerend"
    ensures c != "resize" && c != "lastPointerPos"
  {
    "pointer" + TypeName(t)
  }

  /** Distinct pointer types are dispatched under distinct categories. */
  lemma CategoryInjective(t: PointerType, u: PointerType)
    requires Category(t) == Category(u)
    ensures t == u
  {
    assert Category(t)[7] == Category(u)[7];
  }

  /** The classification both document handlers make: the type named
      `moveType` is a move, the one named `endType` an end, and every other
      event type a start. */
  function Classify(eventType: string, moveType: string, endType: string): (t: PointerType)
    requires moveType != endType
    ensures t == Move <==> eventType == moveType
    ensures t == End <==> eventType == endType
    ensures t == Start <==> eventType != moveType && eventType != endType
  {
    if eventType == moveType then Move
    else if eventType == endType then End
    else Start
  }

  /** `mouseHandler`'s classification of the three mouse events it is
      installed for, and of any other type. */
  function MouseType(eventType: string): (t: PointerType)
    ensures t == Move <==> eventType == "mousemove"
    ensures t == End <==> eventType == "mouseup"
    ensures eventType == "mousedown" ==> t == Start
  {
    Classify(eventType, "mousemove", "mouseup")
  }

  /** `touchHandler`'s classification of the three touch events it is
      installed for, and of any other type. */
  function TouchType(eventType: string): (t: PointerType)
    ensures t == Move <==> eventType == "touchmove"
    ensures t == End <==> eventType == "touchend"
    ensures eventType == "touchstart" ==> t == Start
  {
    Classify(eventType, "touchmove", "touchend")
  }

  /** `Stage.windowToCanvas`: window coordinates relative to the canvas's
      bounding box, scaled by the ratio of the canvas's pixel buffer to its
      on-screen size. The result is in buffer pixels. */
  function WindowToCanvas(bufferWidth: real, bufferHeight: real, box: Rect, x: real, y: real): (p: Point)
    requires box.width != 0.0 && box.height != 0.0
    ensures p.x * box.width == (x - box.left) * bufferWidth
    ensures p.y * box.height == (y - box.top) * bufferHeight
  {
    Point((x - box.left) * (bufferWidth / box.width), (y - box.top) * (bufferHeight / box.height))
  }

  /** The value a pointer listener receives. */
  datatype PointerEventValue = PointerEventValue(kind: PointerType, x: real, y: real, onCanvas: bool)

  /** `pointerEvent`'s event object for logical coordinates (x, y) on a stage
      of logical size width by height: the bounds are inclusive on all four
      sides. */
  function MakePointerEvent(kind: PointerType, x: real, y: real, width: real, height: real): (e: PointerEventValue)
    ensures e.kind == kind && e.x == x && e.y == y
    ensures e.onCanvas <==> 0.0 <= x <= width && 0.0 <= y <= height
  {
    PointerEventValue(kind, x, y, x >= 0.0 && x <= width && y >= 0.0 && y <= height)
  }

  /** Multiplying both sides by a positive factor keeps an ordering, and
      only then. */
  lemma MulPositive(a: real, b: real, c: real)
    requires c > 0.0
    ensures a <= b <==> a * c <= b * c
  {
    if a <= b {
      assert (b - a) * c >= 0.0;
    } else {
      assert (a - b) * c > 0.0;
    }
  }

  /** One axis of the mapping from window to logical coordinates: a logical
      coordinate proportional to the offset from the box's origin, with the
      logical size standing to the box's extent, lies in [0, size] exactly
      when the window coordinate lies within the box on that axis. */
  lemma AxisInside(origin: real, extent: real, size: real, w: real, logical: real)
    requires extent > 0.0 && size > 0.0
    requires logical * extent == (w - origin) * size
    ensures 0.0 <= logical <= size <==> origin <= w <= origin + extent
  {
    MulPositive(0.0, logical, extent);
    MulPositive(logical, size, extent);
    MulPositive(0.0, w - origin, size);
    MulPositive(w - origin, extent, size);
    assert size * extent == extent * size;
  }

  /** Dividing a buffer coordinate by the scale factor gives the coordinate
      the logical size relates to as the buffer size does. */
  lemma Unscale(buffer: real, extent: real, offset: real, size: real, dpr: real)
    requires dpr != 0.0
    requires buffer * extent == offset * (size * dpr)
    ensures (buffer / dpr) * extent == offset * size
  {
    var l := buffer / dpr;
    assert buffer == l * dpr;
    assert (l * extent) * dpr == (offset * size) * dpr;
  }

  /** A pointer event from window coordinates (x, y) is on the canvas exactly
      when (x, y) lies inside the canvas's bounding box, provided the pixel
      buffer is the logical size times the scale factor (as `resize` leaves
      it) and every size is positive. */
  lemma OnCanvasIffInsideBox(kind: PointerType, width: real, height: real, dpr: real, box: Rect, x: real, y: real)
    requires width > 0.0 && height > 0.0 && dpr > 0.0 && box.width > 0.0 && box.height > 0.0
    ensures var p := WindowToCanvas(width * dpr, height * dpr, box, x, y);
            MakePointerEvent(kind, p.x / dpr, p.y / dpr, width, height).onCanvas
            <==> box.left <= x <= box.left + box.width && box.top <= y <= box.top + box.height
  {
    var p := WindowToCanvas(width * dpr, height * dpr, box, x, y);
    Unscale(p.x, box.width, x - box.left, width, dpr);
    Unscale(p.y, box.height, y - box.top, height, dpr);
    AxisInside(box.left, box.width, width, x, p.x / dpr);
    AxisInside(box.top, box.height, height, y, p.y / dpr);
    var e := MakePointerEvent(kind, p.x / dpr, p.y / dpr, width, height);
    assert e.onCanvas <==> 0.0 <= p.x / dpr <= width && 0.0 <= p.y / dpr <= height;
  }
}
