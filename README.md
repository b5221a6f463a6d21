# Drag-to-scroll controller, modelled in Dafny

`script.js` makes a horizontally scrollable element (the slider, `.items`) draggable.
Pressing the mouse on it starts a drag session, moving the mouse pans its content,
and releasing or leaving it ends the session. Three module-level variables hold the session:
`isDown`, `startX` and `startScrollLeft`. The element contributes its `scrollLeft` and its
`active` class. Two helpers turn an event into a horizontal coordinate: `readPageX`
and `xRelativeToSlider`. Events may come from a native mouse event, a pointer event
or a test harness that sets only `pageX`.

The model has four modules:

- `Wrappers` (`wrappers.dfy`): `Option`, used for an event or window field that may
  not be a number.
- `Coordinates` (`coordinates.dfy`): the event record `MouseEvent(which, pageX, clientX)`.
  The layout read at each call is `Layout(rectLeft, pageXOffset, scrollX)`.
  The helpers are `ReadPageX`, `PageOffset` (the `||` chain on the window offset),
  `ClientX` and `XRelativeToSlider`. `FirstNumber` is a reference reading of a
  field-precedence list.
- `DragScroll` (`drag_scroll.dfy`): the five-field state as a value, `DragState`.
  `Press`, `Move` and `Release` say what each handler does to it. `Input`, `Step` and
  `Run` deliver a sequence of events. The class `Controller` holds the same five
  fields and updates them in place. Each of its handler methods is proved equal to
  its function: `State() == Press(old(State()), e, l)`, and likewise for the others.
- `DragScrollProperties` (`drag_properties.dfy`) and `Scenario` (`scenario.dfy`): the
  properties of the handlers, one at a time and over whole event sequences, and
  the recorded press/move/release gesture driven through the object.

Pixel coordinates are integers. The slider's bounding-rectangle left edge and the
window's `pageXOffset`/`scrollX` are inputs to each call, not computed layout.

script.js:54 subtracts the raw pointer displacement from the anchored offset; there is no
scale factor. `onMouseUpOrLeave` clears both flags unconditionally (script.js:58-59), even
when no session is armed. From a state where `active` equals `isDown` (the initial state,
and every state reached from it), releasing a disarmed session changes nothing (`ReleaseCases`).

## Model

| member | source | states |
|---|---|---|
| Coordinates.FirstNumberIsFirstPresent | script.js:11-14 | the reference precedence list returns the value of the first field that is a number, and the fallback exactly when none is |
| Coordinates.ReadPageXPrecedence | script.js:8-15 | `readPageX` is the precedence list [`pageX`, `clientX`] with fallback 0 |
| Coordinates.ReadPageXCases | script.js:11-14 | `pageX` wins whenever it is a number; `clientX` is used only when `pageX` is absent; otherwise the result is 0 |
| Coordinates.PageOffsetCases | script.js:30 | a missing window offset counts as 0; a nonzero `pageXOffset` is used as is; when `pageXOffset` is missing or 0 the chain falls through to `scrollX` (0 when missing); when the two agree it yields their common value, 0 included |
| Coordinates.ClientXWins | script.js:25-28 | with `clientX` present, the slider coordinate is `clientX - rect.left` and does not depend on `pageX` |
| Coordinates.PageXFallback | script.js:19-32 | without `clientX`, the slider coordinate is `pageX` (0 when missing) minus the page offset minus `rect.left`; `readPageX`'s `clientX` branch is never reached here |
| DragScroll.Controller.constructor | script.js:3-5 | a new controller is disarmed, with anchors 0, no `active` class and the given offset |
| DragScroll.Controller.OnMouseDown | script.js:35-44 | the new field values are exactly `Press` of the old ones: a numeric `which` other than 1 changes nothing; otherwise `isDown` and `active` are set, `startX` is the slider coordinate, `startScrollLeft` is the old offset and the offset is kept |
| DragScroll.Controller.OnMouseMove | script.js:46-55 | the new field values are exactly `Move` of the old ones: nothing changes when disarmed; otherwise the offset becomes `startScrollLeft - (x - startX)` and no other field changes; `preventDefault` is called exactly when a session was armed |
| DragScroll.Controller.OnMouseUpOrLeave | script.js:57-60 | the new field values are exactly `Release` of the old ones: `isDown` and `active` are cleared, the offset and both anchors are kept |
| DragScrollProperties.PressCases | script.js:35-44 | a numeric `which` other than 1 leaves every field unchanged; otherwise the press sets `isDown` and `active`, anchors `startX` at the slider coordinate and `startScrollLeft` at the current offset, and keeps the offset |
| DragScrollProperties.MoveCases | script.js:46-55 | a move while disarmed changes nothing; during a session it sets the offset to `startScrollLeft - (x - startX)` and changes no other field |
| DragScrollProperties.MoveForgetsEarlierMoves | script.js:51-54 | two moves in a row give the state of the second alone: offsets do not accumulate |
| DragScrollProperties.ReleaseCases | script.js:57-60 | release clears `isDown` and `active`, keeps the offset and both anchors; releasing twice equals releasing once; releasing a disarmed session whose `active` equals `isDown` changes nothing |
| DragScrollProperties.ScrollChangesOnlyWhileDown | script.js:47-54 | a handler changes the offset only when it is a move during an armed session |
| DragScrollProperties.RunKeepsConsistent | script.js:39-40 | `active` equals `isDown` after any sequence of events, if it did before |
| DragScrollProperties.InitialIsConsistent | script.js:3 | on page load `active` equals `isDown` (both false), so every run from the initial state keeps them equal |
| DragScrollProperties.DragsDependOnLastOnly | script.js:51-54 | during a session, any nonempty sequence of moves yields the state that its last move alone would produce |
| DragScrollProperties.InertUntilArmingPress | script.js:37-47 | from a disarmed state, events without an arming press never change the offset or the anchors and never arm a session |
| DragScrollProperties.SessionOffset | script.js:39-54 | after an arming press and one or more moves, the offset is the press-time offset minus the displacement from the press coordinate to the last move's |
| DragScrollProperties.SliderEdgeCancels | script.js:18-32 | if the slider's edge is the same at press and last move, the displacement is in viewport coordinates; for page-only events with an unchanged page offset, in page coordinates |
| DragScrollProperties.WorkedExample | script.js:82-84 | from offset 0, a left press at `pageX` 493, a move to `pageX` 271 and a release leave the offset at 222, disarmed and inactive, for any fixed layout |
| Scenario.DragScenario | script.js:82-84 | the same gesture through the controller's methods ends at offset 222, with `preventDefault` called on the move and the session disarmed |

## Left out

- `document.querySelector('.items')` (script.js:2): the slider is the controller's own `scrollLeft` and `active` fields.
- The `addEventListener` registrations (script.js:64-67, 71-81) are not modelled as code. The `Input` datatype records the mapping instead: `mousedown`/`pointerdown` call the press handler, `mousemove`/`pointermove` the move handler, and `mouseup`/`mouseleave`/`pointerup`/`pointercancel` the release handler. Whether the browser supports `PointerEvent` does not change any handler.
- `slider.getBoundingClientRect()`, `window.pageXOffset` and `window.scrollX` are inputs (`Layout`), not computed from page layout. Each is read afresh at every call.
- `e.preventDefault()` has no model state. `OnMouseMove` returns whether it was called.
- The browser clamps `scrollLeft` to the scrollable range. The code assigns the unclamped value, and so does the model. So the model's next press anchors `startScrollLeft` at that unclamped value, where the browser's read of `slider.scrollLeft` (script.js:43) returns the clamped one.
- Scrolling from outside the handlers (the mouse wheel, the scrollbar, keyboard) is not modelled: `Run` has no input for it, so the model's `scrollLeft` changes only through `onMouseMove`.
- JavaScript numbers are doubles. Pixel coordinates are modelled as unbounded integers, so fractional coordinates and `NaN` (a `number` under `typeof`, but falsy under `||`) are not modelled.
- `readPageX` has an `e &&` guard for a null event. It is not modelled, because every handler passes an event object.
- The `active` class is assumed absent when the page loads. The stylesheet and the markup are not part of this model.
- script.js:82-84 are test-runner commands, not code the page runs. They appear only as the `WorkedExample` and `DragScenario` scenario.
