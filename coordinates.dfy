/**
 * Horizontal coordinates of a mouse or pointer event, as script.js reads them.
 *
 * An event carries up to three numeric fields that matter here: `which` (the
 * button), `pageX` (page-relative) and `clientX` (viewport-relative). A field
 * for which `typeof … === 'number'` fails is `None`. The slider's bounding
 * rectangle and the window's scroll offset are not layout to be computed but
 * inputs, gathered in a `Layout` value that is read at each call.
 */
module Coordinates {
  import opened Wrappers

  datatype MouseEvent = MouseEvent(which: Option<int>, pageX: Option<int>, clientX: Option<int>)

  /** What the handlers read from the page at the moment of the call:
      `slider.getBoundingClientRect().left`, `window.pageXOffset` and `window.scrollX`. */
  datatype Layout = Layout(rectLeft: int, pageXOffset: Option<int>, scrollX: Option<int>)

  /** The first field that is a number, or `fallback` when none is. This is the
      reference reading of a precedence list of event fields. */
  function FirstNumber(fields: seq<Option<int>>, fallback: int): int
  {
    if fields == [] then fallback
    else if fields[0].Some? then fields[0].value
    else FirstNumber(fields[1..], fallback)
  }

  /** `readPageX`: `pageX` if it is a number, else `clientX` if it is a number, else 0. */
  function ReadPageX(e: MouseEvent): int
  {
    if e.pageX.Some? then e.pageX.value
    else if e.clientX.Some? then e.clientX.value
    else 0
  }

  /** JavaScript's `a || b` where `a` is a number or undefined: a missing value,
      and also the falsy number 0, yields `b`. */
  function OrElse(a: Option<int>, b: int): int
  {
    if a.Some? && a.value != 0 then a.value else b
  }

  /** `window.pageXOffset || window.scrollX || 0`. */
  function PageOffset(l: Layout): int
  {
    OrElse(l.pageXOffset, OrElse(l.scrollX, 0))
  }

  /** The local `clientX` of `xRelativeToSlider`: the event's own `clientX`, or
      `readPageX(e)` converted to viewport coordinates by the page offset. */
  function ClientX(e: MouseEvent, l: Layout): int
  {
    if e.clientX.Some? then e.clientX.value else ReadPageX(e) - PageOffset(l)
  }

  /** `xRelativeToSlider`: the pointer position measured from the slider's left edge. */
  function XRelativeToSlider(e: MouseEvent, l: Layout): int
  {
    ClientX(e, l) - l.rectLeft
  }

  // ---------------------------------------------------------------------------
  // Properties

  /** The reference precedence list: the result is the value of the first field
      that is present, and the fallback exactly when no field is present. */
  lemma {:induction false} FirstNumberIsFirstPresent(fields: seq<Option<int>>, fallback: int)
    ensures (forall i :: 0 <= i < |fields| ==> fields[i].None?) ==>
              FirstNumber(fields, fallback) == fallback
    ensures forall i :: 0 <= i < |fields| && fields[i].Some? &&
                        (forall j :: 0 <= j < i ==> fields[j].None?) ==>
              FirstNumber(fields, fallback) == fields[i].value
  {
    if fields != [] && fields[0].None? {
      FirstNumberIsFirstPresent(fields[1..], fallback);
      forall i | 0 <= i < |fields| && fields[i].Some? && (forall j :: 0 <= j < i ==> fields[j].None?)
        ensures FirstNumber(fields, fallback) == fields[i].value
      {
        assert i > 0;
        assert fields[1..][i - 1] == fields[i];
        forall j | 0 <= j < i - 1 ensures fields[1..][j].None? {
          assert fields[1..][j] == fields[j + 1];
        }
      }
      if forall k :: 0 <= k < |fields| ==> fields[k].None? {
        forall i | 0 <= i < |fields[1..]| ensures fields[1..][i].None? {
          assert fields[1..][i] == fields[i + 1];
        }
      }
    }
  }

  /** `readPageX` follows the precedence list [pageX, clientX] with fallback 0. */
  lemma ReadPageXPrecedence(e: MouseEvent)
    ensures ReadPageX(e) == FirstNumber([e.pageX, e.clientX], 0)
  {
    var fields := [e.pageX, e.clientX];
    assert fields[1..] == [e.clientX];
    assert [e.clientX][1..] == [];
    assert FirstNumber([e.clientX], 0) == if e.clientX.Some? then e.clientX.value else FirstNumber([], 0);
  }

  /** The precedence of `readPageX` field by field: `pageX` wins whenever it is
      present, `clientX` is used only when `pageX` is absent, and 0 otherwise. */
  lemma ReadPageXCases(e: MouseEvent)
    ensures e.pageX.Some? ==> ReadPageX(e) == e.pageX.value
    ensures e.pageX.None? && e.clientX.Some? ==> ReadPageX(e) == e.clientX.value
    ensures e.pageX.None? && e.clientX.None? ==> ReadPageX(e) == 0
  {
    ReadPageXPrecedence(e);
    FirstNumberIsFirstPresent([e.pageX, e.clientX], 0);
    assert [e.pageX, e.clientX][0] == e.pageX;
    assert [e.pageX, e.clientX][1] == e.clientX;
  }

  /** The page offset: a missing offset counts as 0; a missing or zero
      `pageXOffset` falls through to `scrollX`; and when the two window
      fields agree (browsers make `pageXOffset` an alias of `scrollX`) the
      `||` chain yields exactly their common value, 0 included. */
  lemma PageOffsetCases(l: Layout)
    ensures l.pageXOffset.None? && l.scrollX.None? ==> PageOffset(l) == 0
    ensures l.pageXOffset == l.scrollX ==> PageOffset(l) == l.scrollX.GetOr(0)
    ensures l.pageXOffset.Some? && l.pageXOffset.value != 0 ==> PageOffset(l) == l.pageXOffset.value
    ensures l.pageXOffset.None? || l.pageXOffset.value == 0 ==> PageOffset(l) == l.scrollX.GetOr(0)
  {
  }

  /** When the event has `clientX`, the slider coordinate is `clientX - rect.left`
      and `pageX` plays no part: two events with the same `clientX` agree. */
  lemma ClientXWins(e: MouseEvent, e': MouseEvent, l: Layout)
    requires e.clientX.Some? && e'.clientX == e.clientX
    ensures XRelativeToSlider(e, l) == e.clientX.value - l.rectLeft
    ensures XRelativeToSlider(e', l) == XRelativeToSlider(e, l)
  {
  }

  /** When the event has no `clientX`, the slider coordinate is `pageX` (0 when
      missing) minus the page offset minus `rect.left`; in this branch the
      `clientX` fallback of `readPageX` is never taken. */
  lemma PageXFallback(e: MouseEvent, l: Layout)
    requires e.clientX.None?
    ensures XRelativeToSlider(e, l) == e.pageX.GetOr(0) - PageOffset(l) - l.rectLeft
  {
    ReadPageXCases(e);
  }
}
