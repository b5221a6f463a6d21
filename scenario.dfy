/**
 * The recorded gesture driven through the controller object itself: the
 * handlers are called directly in the order the browser would deliver
 * `mousedown`, `mousemove` and `mouseup`.
 */
module Scenario {
  import opened Wrappers
  import opened Coordinates
  import opened DragScroll

  /** A left press at `pageX` 493 and a move to `pageX` 271 on a slider at
      offset 0 scroll it to 222, whatever the (unchanging) layout; the move
      suppresses the browser's default action, and the release disarms. */
  method DragScenario(l: Layout) returns (finalScroll: int, preventedDefault: bool, stillDown: bool)
    ensures finalScroll == 222
    ensures preventedDefault
    ensures !stillDown
  {
    var c := new Controller(0);
    c.OnMouseDown(MouseEvent(Some(1), Some(493), None), l);
    preventedDefault := c.OnMouseMove(MouseEvent(None, Some(271), None), l);
    c.OnMouseUpOrLeave();
    finalScroll := c.scrollLeft;
    stillDown := c.isDown;
  }
}
