/**
 * What the handlers of script.js promise, stated over `DragState` and proved
 * for all states, events and layouts.
 */
module DragScrollProperties {
  import opened Wrappers
  import opened Coordinates
  import opened DragScroll

  /** The handlers' invariant: the slider shows `active` exactly while a session is armed. */
  predicate Consistent(s: DragState)
  {
    s.active == s.isDown
  }

  /** No `Down` in `inputs` arms a session (each one names a non-left button). */
  predicate NoArmingPress(inputs: seq<Input>)
  {
    forall k :: 0 <= k < |inputs| && inputs[k].Down? ==> !ArmsSession(inputs[k].event)
  }

  /** Every input is a move. */
  predicate AllDrags(inputs: seq<Input>)
  {
    forall k :: 0 <= k < |inputs| ==> inputs[k].Drag?
  }

  // ---------------------------------------------------------------------------
  // One handler at a time

  /** A press with a numeric `which` other than 1 changes nothing; any other
      press arms the session, anchors it at the pointer and the current offset,
      and leaves the offset where it is. */
  lemma PressCases(s: DragState, e: MouseEvent, l: Layout)
    ensures e.which.Some? && e.which.value != 1 ==> Press(s, e, l) == s
    ensures e.which.None? || e.which.value == 1 ==>
      var r := Press(s, e, l);
      r.isDown && r.active && r.startX == XRelativeToSlider(e, l) &&
      r.startScrollLeft == s.scrollLeft && r.scrollLeft == s.scrollLeft
  {
  }

  /** A move while no session is armed changes nothing. A move during a session
      sets the offset from the press-time anchors and touches nothing else. */
  lemma MoveCases(s: DragState, e: MouseEvent, l: Layout)
    ensures !s.isDown ==> Move(s, e, l) == s
    ensures s.isDown ==>
      Move(s, e, l) == s.(scrollLeft := s.startScrollLeft - (XRelativeToSlider(e, l) - s.startX))
  {
  }

  /** A later move overrides an earlier one: the offset does not accumulate. */
  lemma MoveForgetsEarlierMoves(s: DragState, e1: MouseEvent, l1: Layout, e2: MouseEvent, l2: Layout)
    ensures Move(Move(s, e1, l1), e2, l2) == Move(s, e2, l2)
  {
  }

  /** Releasing disarms and clears `active`, keeps the offset and the anchors,
      and releasing again (a `mouseup` followed by a `mouseleave`) changes nothing more.
      On a consistent state with no armed session, a release is a no-op. */
  lemma ReleaseCases(s: DragState)
    ensures !Release(s).isDown && !Release(s).active
    ensures Release(s).scrollLeft == s.scrollLeft
    ensures Release(s).startX == s.startX && Release(s).startScrollLeft == s.startScrollLeft
    ensures Release(Release(s)) == Release(s)
    ensures Consistent(s) && !s.isDown ==> Release(s) == s
  {
  }

  /** The offset changes only on a move during an armed session. */
  lemma ScrollChangesOnlyWhileDown(s: DragState, i: Input)
    ensures Step(s, i).scrollLeft != s.scrollLeft ==> s.isDown && i.Drag?
  {
  }

  // ---------------------------------------------------------------------------
  // Sequences of events

  /** The state on page load is consistent. */
  lemma InitialIsConsistent(scrollLeft: int)
    ensures Consistent(Initial(scrollLeft))
  {
  }

  /** Every run of handlers keeps a consistent state consistent. */
  lemma {:induction false} RunKeepsConsistent(s: DragState, inputs: seq<Input>)
    requires Consistent(s)
    ensures Consistent(Run(s, inputs))
    decreases |inputs|
  {
    if inputs != [] {
      RunKeepsConsistent(Step(s, inputs[0]), inputs[1..]);
    }
  }

  /** Running `prefix` and then `suffix` is running their concatenation. */
  lemma {:induction false} RunAppend(s: DragState, prefix: seq<Input>, suffix: seq<Input>)
    ensures Run(s, prefix + suffix) == Run(Run(s, prefix), suffix)
    decreases |prefix|
  {
    if prefix != [] {
      assert (prefix + suffix)[0] == prefix[0];
      assert (prefix + suffix)[1..] == prefix[1..] + suffix;
      RunAppend(Step(s, prefix[0]), prefix[1..], suffix);
      assert Run(s, prefix) == Run(Step(s, prefix[0]), prefix[1..]);
    } else {
      assert prefix + suffix == suffix;
    }
  }

  /** During a session, a sequence of moves leaves the state that the last move
      alone would produce. */
  lemma {:induction false} DragsDependOnLastOnly(s: DragState, moves: seq<Input>)
    requires s.isDown && moves != [] && AllDrags(moves)
    ensures Run(s, moves) == Move(s, moves[|moves| - 1].event, moves[|moves| - 1].layout)
    decreases |moves|
  {
    var s' := Move(s, moves[0].event, moves[0].layout);
    if |moves| > 1 {
      assert AllDrags(moves[1..]) by {
        forall k | 0 <= k < |moves[1..]| ensures moves[1..][k].Drag? {
          assert moves[1..][k] == moves[k + 1];
        }
      }
      DragsDependOnLastOnly(s', moves[1..]);
      assert moves[1..][|moves[1..]| - 1] == moves[|moves| - 1];
    } else {
      assert moves[1..] == [];
    }
  }

  /** Once released, and until a press that arms a new session, no event
      changes the offset or re-arms the session; the anchors stay as they were. */
  lemma {:induction false} InertUntilArmingPress(s: DragState, inputs: seq<Input>)
    requires !s.isDown && NoArmingPress(inputs)
    ensures Run(s, inputs).scrollLeft == s.scrollLeft
    ensures !Run(s, inputs).isDown
    ensures Run(s, inputs).startX == s.startX && Run(s, inputs).startScrollLeft == s.startScrollLeft
    decreases |inputs|
  {
    if inputs != [] {
      assert inputs[0].Down? ==> !ArmsSession(inputs[0].event);
      assert NoArmingPress(inputs[1..]) by {
        forall k | 0 <= k < |inputs[1..]| && inputs[1..][k].Down?
          ensures !ArmsSession(inputs[1..][k].event)
        {
          assert inputs[1..][k] == inputs[k + 1];
        }
      }
      InertUntilArmingPress(Step(s, inputs[0]), inputs[1..]);
    }
  }

  /** A whole session: after an arming press and one or more moves, the offset
      is the press-time offset minus the pointer's displacement from the press
      to the last move, whatever the moves in between. */
  lemma SessionOffset(s: DragState, e0: MouseEvent, l0: Layout, moves: seq<Input>)
    requires ArmsSession(e0) && moves != [] && AllDrags(moves)
    ensures Run(s, [Down(e0, l0)] + moves).scrollLeft ==
      s.scrollLeft - (XRelativeToSlider(moves[|moves| - 1].event, moves[|moves| - 1].layout)
                      - XRelativeToSlider(e0, l0))
  {
    RunAppend(s, [Down(e0, l0)], moves);
    assert Run(s, [Down(e0, l0)]) == Press(s, e0, l0);
    DragsDependOnLastOnly(Press(s, e0, l0), moves);
  }

  /** The slider's left edge cancels out: when it is the same at the press and
      the last move, the displacement is measured in viewport coordinates; and
      for page-only events under an unchanged page offset, in page coordinates. */
  lemma SliderEdgeCancels(s: DragState, e0: MouseEvent, l0: Layout, moves: seq<Input>)
    requires ArmsSession(e0) && moves != [] && AllDrags(moves)
    requires moves[|moves| - 1].layout.rectLeft == l0.rectLeft
    ensures var e1, l1 := moves[|moves| - 1].event, moves[|moves| - 1].layout;
      Run(s, [Down(e0, l0)] + moves).scrollLeft == s.scrollLeft - (ClientX(e1, l1) - ClientX(e0, l0))
    ensures var e1, l1 := moves[|moves| - 1].event, moves[|moves| - 1].layout;
      e0.clientX.None? && e1.clientX.None? && e0.pageX.Some? && e1.pageX.Some? &&
      PageOffset(l1) == PageOffset(l0) ==>
        Run(s, [Down(e0, l0)] + moves).scrollLeft == s.scrollLeft - (e1.pageX.value - e0.pageX.value)
  {
    SessionOffset(s, e0, l0, moves);
    var e1 := moves[|moves| - 1].event;
    if e0.clientX.None? && e1.clientX.None? {
      PageXFallback(e0, l0);
      PageXFallback(e1, moves[|moves| - 1].layout);
    }
  }

  /** The recorded end-to-end scenario: on a slider at offset 0, a left press at
      `pageX` 493, a move to `pageX` 271 and a release leave the slider at 222,
      disarmed and without `active`, whatever the slider's position and the
      page scroll, as long as they do not change during the gesture. */
  lemma WorkedExample(l: Layout)
    ensures var r := Run(Initial(0), [Down(MouseEvent(Some(1), Some(493), None), l),
                                      Drag(MouseEvent(None, Some(271), None), l),
                                      UpOrLeave]);
      r.scrollLeft == 222 && !r.isDown && !r.active
  {
    var inputs := [Down(MouseEvent(Some(1), Some(493), None), l),
                   Drag(MouseEvent(None, Some(271), None), l),
                   UpOrLeave];
    assert inputs == [inputs[0]] + [inputs[1]] + [inputs[2]];
    SliderEdgeCancels(Initial(0), inputs[0].event, l, [inputs[1]]);
    RunAppend(Initial(0), [inputs[0]] + [inputs[1]], [inputs[2]]);
  }
}
