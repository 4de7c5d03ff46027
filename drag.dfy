/**
 * Drag and drop of the widget. Pressing the mouse on the element records
 * the offset between the pointer and the element's top-left corner; while
 * the button is held, every move of the pointer places the element's
 * top-left corner at the pointer minus that offset and releases the right
 * and bottom edges (`'auto'`); releasing the button anywhere ends the drag.
 *
 * `Step` and `Run` are the state machine over pointer events; the class
 * `DragSurface` holds the handlers' shared state and writes the element.
 */
module Drag {
  import opened Dom

  /** The handlers' shared state: `isDragging`, `initialX`, `initialY`. */
  datatype DragState = DragState(dragging: bool, initialX: int, initialY: int)

  /** Before the first press: not dragging (the offsets are not yet set; 0 stands for them). */
  const Released := DragState(false, 0, 0)

  /**
   * A pointer event. A press carries the element's `offsetLeft` and
   * `offsetTop` as the page's layout reports them at that moment.
   */
  datatype PointerEvent =
    | MouseDown(clientX: int, clientY: int, offsetLeft: int, offsetTop: int)
    | MouseMove(clientX: int, clientY: int)
    | MouseUp

  /** The drag state together with the element's inline placement. */
  datatype Surface = Surface(drag: DragState, style: Style)

  /** What one move writes: `left` and `top` in pixels, `right` and `bottom` released. */
  function MovePatch(left: int, top: int): Patch
  {
    map[Left := Px(left), Top := Px(top), Right := Auto, Bottom := Auto]
  }

  /** A free placement at the given top-left corner. */
  function PlacedAt(left: int, top: int): Style
  {
    Style(Px(top), Auto, Auto, Px(left))
  }

  /** One handler run: a press starts a drag, a move places the element only during a drag, a release ends it. */
  function Step(s: Surface, e: PointerEvent): (r: Surface)
    ensures e.MouseDown? ==> r.drag == DragState(true, e.clientX - e.offsetLeft, e.clientY - e.offsetTop) && r.style == s.style
    ensures e.MouseMove? && !s.drag.dragging ==> r == s
    ensures e.MouseMove? && s.drag.dragging ==>
      r.drag == s.drag && r.style == PlacedAt(e.clientX - s.drag.initialX, e.clientY - s.drag.initialY)
    ensures e.MouseUp? ==> r.drag == s.drag.(dragging := false) && r.style == s.style
  {
    match e
    case MouseDown(x, y, ol, ot) => Surface(DragState(true, x - ol, y - ot), s.style)
    case MouseMove(x, y) =>
      if !s.drag.dragging then s
      else Surface(s.drag, Assign(s.style, MovePatch(x - s.drag.initialX, y - s.drag.initialY)))
    case MouseUp => Surface(s.drag.(dragging := false), s.style)
  }

  /** The events handled in order. */
  function Run(s: Surface, events: seq<PointerEvent>): Surface
    decreases |events|
  {
    if events == [] then s else Run(Step(s, events[0]), events[1..])
  }

  predicate NoPress(events: seq<PointerEvent>)
  {
    forall i :: 0 <= i < |events| ==> !events[i].MouseDown?
  }

  predicate OnlyMoves(events: seq<PointerEvent>)
  {
    forall i :: 0 <= i < |events| ==> events[i].MouseMove?
  }

  /** A move always leaves the element at a free placement, whatever placement it had. */
  lemma MovePlaces(style: Style, left: int, top: int)
    ensures Assign(style, MovePatch(left, top)) == PlacedAt(left, top)
  {
  }

  lemma {:induction false} RunAppend(s: Surface, a: seq<PointerEvent>, b: seq<PointerEvent>)
    ensures Run(s, a + b) == Run(Run(s, a), b)
    decreases |a|
  {
    if a != [] {
      assert (a + b)[0] == a[0];
      assert (a + b)[1..] == a[1..] + b;
      RunAppend(Step(s, a[0]), a[1..], b);
    } else {
      assert a + b == b;
    }
  }

  /** While no drag is in progress, moves and releases change nothing at all. */
  lemma {:induction false} IdleIgnoresEvents(s: Surface, events: seq<PointerEvent>)
    requires !s.drag.dragging && NoPress(events)
    ensures Run(s, events) == s
    decreases |events|
  {
    if events != [] {
      assert Step(s, events[0]) == s;
      IdleIgnoresEvents(s, events[1..]);
    }
  }

  /** During a drag, the element sits where the last move put it: that pointer position minus the offset. */
  lemma {:induction false} MovesWhileDragging(s: Surface, moves: seq<PointerEvent>)
    requires s.drag.dragging && OnlyMoves(moves) && |moves| > 0
    ensures var last := moves[|moves| - 1];
      Run(s, moves) == Surface(s.drag, PlacedAt(last.clientX - s.drag.initialX, last.clientY - s.drag.initialY))
    decreases |moves|
  {
    var first := moves[0];
    var next := Step(s, first);
    MovePlaces(s.style, first.clientX - s.drag.initialX, first.clientY - s.drag.initialY);
    if |moves| > 1 {
      MovesWhileDragging(next, moves[1..]);
    }
  }

  /**
   * A whole drag: after a press at (cx, cy) on an element whose top-left
   * corner is at (ol, ot), one or more moves and a release, the drag is over
   * and the element's top-left corner is the last pointer position minus
   * (cx - ol, cy - ot), its right and bottom edges released.
   */
  lemma DragCycle(s: Surface, cx: int, cy: int, ol: int, ot: int, moves: seq<PointerEvent>)
    requires OnlyMoves(moves) && |moves| > 0
    ensures var r := Run(s, [MouseDown(cx, cy, ol, ot)] + moves + [MouseUp]);
      var last := moves[|moves| - 1];
      !r.drag.dragging && r.style == PlacedAt(last.clientX - (cx - ol), last.clientY - (cy - ot))
  {
    var press := [MouseDown(cx, cy, ol, ot)];
    var events := [MouseDown(cx, cy, ol, ot)] + moves + [MouseUp];
    assert events == (press + moves) + [MouseUp];
    var pressed := Step(s, press[0]);
    assert Run(s, press) == pressed;
    RunAppend(s, press, moves);
    MovesWhileDragging(pressed, moves);
    var dragged := Run(pressed, moves);
    assert Run(s, press + moves) == dragged;
    RunAppend(s, press + moves, [MouseUp]);
    assert Run(dragged, [MouseUp]) == Step(dragged, MouseUp);
  }

  /** Pressing and moving back to the same point pins the element at the offsets the layout reported. */
  lemma PressInPlace(s: Surface, cx: int, cy: int, ol: int, ot: int)
    ensures Run(s, [MouseDown(cx, cy, ol, ot), MouseMove(cx, cy)]).style == PlacedAt(ol, ot)
  {
    var events := [MouseDown(cx, cy, ol, ot), MouseMove(cx, cy)];
    var pressed := Step(s, events[0]);
    assert events[1..] == [MouseMove(cx, cy)];
    assert Run(pressed, events[1..]) == Step(pressed, MouseMove(cx, cy));
    MovePlaces(s.style, ol, ot);
  }

  /** The handlers attached to one element, and the state they share. */
  class DragSurface {
    const target: Element
    var isDragging: bool
    var initialX: int
    var initialY: int

    function State(): DragState
      reads this
    {
      DragState(isDragging, initialX, initialY)
    }

    constructor (target: Element)
      ensures this.target == target && State() == Released
    {
      this.target := target;
      isDragging, initialX, initialY := false, 0, 0;
    }

    /** `mousedown` on the element. */
    method OnMouseDown(clientX: int, clientY: int, offsetLeft: int, offsetTop: int)
      modifies this
      ensures State() == DragState(true, clientX - offsetLeft, clientY - offsetTop)
      ensures Surface(State(), target.style)
           == Step(Surface(old(State()), old(target.style)), MouseDown(clientX, clientY, offsetLeft, offsetTop))
    {
      isDragging := true;
      initialX := clientX - offsetLeft;
      initialY := clientY - offsetTop;
    }

    /** `mousemove` anywhere on the page. */
    method OnMouseMove(clientX: int, clientY: int)
      modifies target
      ensures !isDragging ==> target.style == old(target.style)
      ensures isDragging ==> target.style == PlacedAt(clientX - initialX, clientY - initialY)
      ensures target.className == old(target.className) && target.timeText == old(target.timeText)
      ensures target.dateText == old(target.dateText) && target.status == old(target.status)
      ensures Surface(State(), target.style)
           == Step(Surface(old(State()), old(target.style)), MouseMove(clientX, clientY))
    {
      if !isDragging {
        return;
      }
      var newX := clientX - initialX;
      var newY := clientY - initialY;
      target.style := target.style.(left := Px(newX));
      target.style := target.style.(top := Px(newY));
      target.style := target.style.(right := Auto);
      target.style := target.style.(bottom := Auto);
      MovePlaces(old(target.style), newX, newY);
    }

    /** `mouseup` anywhere on the page. */
    method OnMouseUp()
      modifies this
      ensures State() == old(State()).(dragging := false)
      ensures Surface(State(), target.style) == Step(Surface(old(State()), old(target.style)), MouseUp)
    {
      isDragging := false;
    }
  }
}
