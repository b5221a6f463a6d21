/**
 * The drag-to-scroll controller of script.js.
 *
 * Its state is the three module-level variables `isDown`, `startX` and
 * `startScrollLeft`, together with two properties of the slider element: its
 * `scrollLeft` and whether it carries the `active` class. `DragState` is that
 * state as a value; `Press`, `Move` and `Release` say what each handler does to
 * it, and the class `Controller` holds the same five fields and updates them in
 * place, each method proved against its function.
 */
module DragScroll {
  import opened Wrappers
  import opened Coordinates

  datatype DragState = DragState(
    isDown: bool,
    startX: int,
    startScrollLeft: int,
    scrollLeft: int,
    active: bool)

  /** The state on page load: no session, anchors 0 and the `active` class absent. */
  function Initial(scrollLeft: int): DragState
  {
    DragState(false, 0, 0, scrollLeft, false)
  }

  /** The button test of `onMouseDown`: a numeric `which` other than 1 is ignored;
      a left button or an event without `which` arms a session. */
  predicate ArmsSession(e: MouseEvent)
  {
    !(e.which.Some? && e.which.value != 1)
  }

  /** `onMouseDown`. */
  function Press(s: DragState, e: MouseEvent, l: Layout): DragState
  {
    if !ArmsSession(e) then s
    else s.(isDown := true, active := true,
             startX := XRelativeToSlider(e, l), startScrollLeft := s.scrollLeft)
  }

  /** `onMouseMove`: the new offset is taken from the press-time anchors. */
  function Move(s: DragState, e: MouseEvent, l: Layout): DragState
  {
    if !s.isDown then s
    else s.(scrollLeft := s.startScrollLeft - (XRelativeToSlider(e, l) - s.startX))
  }

  /** `onMouseUpOrLeave`. */
  function Release(s: DragState): DragState
  {
    s.(isDown := false, active := false)
  }

  /** An event delivered to the slider. `mousedown` and `pointerdown` become a
      `Down`, `mousemove` and `pointermove` a `Drag`, and `mouseup`,
      `mouseleave`, `pointerup` and `pointercancel` an `UpOrLeave`. */
  datatype Input =
    | Down(event: MouseEvent, layout: Layout)
    | Drag(event: MouseEvent, layout: Layout)
    | UpOrLeave

  function Step(s: DragState, i: Input): DragState
  {
    match i
    case Down(e, l) => Press(s, e, l)
    case Drag(e, l) => Move(s, e, l)
    case UpOrLeave => Release(s)
  }

  /** The state after the handlers have run on `inputs` in order. */
  function Run(s: DragState, inputs: seq<Input>): DragState
    decreases |inputs|
  {
    if inputs == [] then s else Run(Step(s, inputs[0]), inputs[1..])
  }

  /** The controller with its state held in mutable fields. */
  class Controller {
    var isDown: bool
    var startX: int
    var startScrollLeft: int
    var scrollLeft: int
    var active: bool

    function State(): DragState
      reads this
    {
      DragState(isDown, startX, startScrollLeft, scrollLeft, active)
    }

    /** The module's initial values, on a slider scrolled to `initialScrollLeft`. */
    constructor (initialScrollLeft: int)
      ensures State() == Initial(initialScrollLeft)
    {
      isDown := false;
      startX := 0;
      startScrollLeft := 0;
      scrollLeft := initialScrollLeft;
      active := false;
    }

    method OnMouseDown(e: MouseEvent, l: Layout)
      modifies this
      ensures State() == Press(old(State()), e, l)
      ensures !ArmsSession(e) ==> unchanged(this)
      ensures ArmsSession(e) ==>
        isDown && active && startX == XRelativeToSlider(e, l) &&
        startScrollLeft == old(scrollLeft) && scrollLeft == old(scrollLeft)
    {
      if e.which.Some? && e.which.value != 1 {
        return;
      }
      isDown := true;
      active := true;
      startX := XRelativeToSlider(e, l);
      startScrollLeft := scrollLeft;
    }

    /** `preventedDefault` says whether `e.preventDefault()` was called. */
    method OnMouseMove(e: MouseEvent, l: Layout) returns (preventedDefault: bool)
      modifies this
      ensures preventedDefault == old(isDown)
      ensures State() == Move(old(State()), e, l)
      ensures !old(isDown) ==> unchanged(this)
      ensures old(isDown) ==>
        scrollLeft == startScrollLeft - (XRelativeToSlider(e, l) - startX) &&
        isDown == old(isDown) && startX == old(startX) &&
        startScrollLeft == old(startScrollLeft) && active == old(active)
    {
      if !isDown {
        return false;
      }
      preventedDefault := true;
      var currentX := XRelativeToSlider(e, l);
      var delta := currentX - startX;
      scrollLeft := startScrollLeft - delta;
    }

    method OnMouseUpOrLeave()
      modifies this
      ensures State() == Release(old(State()))
      ensures !isDown && !active
      ensures scrollLeft == old(scrollLeft) && startX == old(startX) &&
              startScrollLeft == old(startScrollLeft)
    {
      isDown := false;
      active := false;
    }
  }
}
