/**
 * Properties of the touch state machine: what each state does with each kind of input,
 * that the listener calls always describe the state the decorator is really in, and what
 * whole gestures do.
 */
module GestureProperties {
  import opened Wrappers
  import opened JavaFloat
  import opened EffectTypes
  import opened BouncePlan
  import opened StateMachine

  // ---------------------------------------------------------------------------------------
  // Idle state

  /**
   * In the idle state a non-move action, an unusable sample, or a sample that meets
   * neither start condition is not consumed and changes nothing.
   */
  lemma IdleIgnoresEvent(c: Config, m: Machine, ev: MotionEvent, atStart: bool, atEnd: bool)
    requires ValidConfig(c) && m.phase == Idle
    requires !ev.action.Move? ||
             Sample(c.orientation, StoredOffset(m.view), ev).None? ||
             !StartsOverScroll(Sample(c.orientation, StoredOffset(m.view), ev).value, atStart, atEnd)
    ensures OnTouch(c, m, ev, atStart, atEnd) == TouchOutcome(m, false, ev, [])
  {
  }

  /**
   * The idle state leaves idle exactly when the sample is accepted and the start condition
   * holds. It then captures pointer, offset and direction, takes the drag id of that
   * direction, and the replayed event is consumed without meeting the under-scroll guard:
   * the view moves by the delta over the forward ratio and both listener calls are made.
   */
  lemma IdleEntersOverScroll(c: Config, m: Machine, ev: MotionEvent, atStart: bool, atEnd: bool)
    requires ValidConfig(c) && m.phase == Idle && ev.action.Move?
    ensures var r := OnTouch(c, m, ev, atStart, atEnd);
      var sample := Sample(c.orientation, StoredOffset(m.view), ev);
      (r.machine.phase != Idle <==> sample.Some? && StartsOverScroll(sample.value, atStart, atEnd))
    ensures var r := OnTouch(c, m, ev, atStart, atEnd);
      var sample := Sample(c.orientation, StoredOffset(m.view), ev);
      sample.Some? && StartsOverScroll(sample.value, atStart, atEnd) ==>
        var s := sample.value;
        var newOffset := s.absOffset + s.deltaOffset / c.touchDragRatioFwd;
        r.consumed && r.event == ev &&
        r.machine.phase == OverScrolling &&
        r.machine.start == StartAttributes(ev.pointerId, s.absOffset, s.dir) &&
        CurrentStateId(r.machine) == DragStateFor(s.dir) &&
        StoredOffset(r.machine.view) == newOffset &&
        r.notes == [StateChange(StateIdle, DragStateFor(s.dir)), OffsetUpdate(DragStateFor(s.dir), newOffset)]
  {
    var sample := Sample(c.orientation, StoredOffset(m.view), ev);
    if sample.Some? && StartsOverScroll(sample.value, atStart, atEnd) {
      var s := sample.value;
      var t := IssueStateTransition(c, m.(start := StartAttributes(ev.pointerId, s.absOffset, s.dir)), OverScrolling);
      assert Sample(c.orientation, StoredOffset(t.machine.view), ev) == sample;
      assert !UnderScrolls(t.machine.start, s.dir, s.absOffset + DragDelta(c, t.machine.start, s));
    }
  }

  // ---------------------------------------------------------------------------------------
  // Over-scrolling state

  /**
   * A move by the same pointer with an accepted sample that does not drag back past the
   * start offset puts the view at the sampled offset plus the delta over the ratio for its
   * direction, reports that offset under the drag id, is consumed, and takes a new velocity
   * only when time elapsed between the samples.
   */
  lemma DragFollowsFinger(c: Config, m: Machine, ev: MotionEvent)
    requires ValidConfig(c) && m.phase == OverScrolling && ev.action.Move?
    requires ev.pointerId == m.start.pointerId
    requires Sample(c.orientation, StoredOffset(m.view), ev).Some?
    requires var s := Sample(c.orientation, StoredOffset(m.view), ev).value;
      !UnderScrolls(m.start, s.dir, s.absOffset + DragDelta(c, m.start, s))
    ensures var r := OnTouch(c, m, ev, false, false);
      var s := Sample(c.orientation, StoredOffset(m.view), ev).value;
      var delta := s.deltaOffset / (if s.dir == m.start.dir then c.touchDragRatioFwd else c.touchDragRatioBck);
      var dt := ev.eventTime - ev.historicalEventTime;
      r.consumed && r.event == ev &&
      r.machine.phase == OverScrolling && r.machine.start == m.start && r.machine.dragState == m.dragState &&
      StoredOffset(r.machine.view) == StoredOffset(m.view) + delta &&
      r.machine.view == TranslateView(c, m.view, m.start.dir, StoredOffset(m.view) + delta) &&
      r.machine.velocity == (if dt > 0 then delta / dt as real else m.velocity) &&
      r.notes == [OffsetUpdate(m.dragState, StoredOffset(m.view) + delta)]
  {
    var s := Sample(c.orientation, StoredOffset(m.view), ev).value;
    assert s.absOffset == StoredOffset(m.view);
  }

  /**
   * Dragging back past the start offset puts the view (and the event) at the start offset,
   * not at 0, reports offset 0, returns to idle and is consumed.
   */
  lemma UnderScrollReturnsToIdle(c: Config, m: Machine, ev: MotionEvent)
    requires ValidConfig(c) && m.phase == OverScrolling && ev.action.Move?
    requires ev.pointerId == m.start.pointerId
    requires Sample(c.orientation, StoredOffset(m.view), ev).Some?
    requires var s := Sample(c.orientation, StoredOffset(m.view), ev).value;
      UnderScrolls(m.start, s.dir, s.absOffset + DragDelta(c, m.start, s))
    ensures var r := OnTouch(c, m, ev, false, false);
      r.consumed && r.machine.phase == Idle &&
      StoredOffset(r.machine.view) == m.start.absOffset &&
      r.machine.view == TranslateView(c, m.view, m.start.dir, m.start.absOffset) &&
      r.event == AdjustEvent(c.orientation, m.start.absOffset, ev) &&
      r.machine.velocity == m.velocity &&
      r.notes == [OffsetUpdate(m.dragState, 0.0), StateChange(m.dragState, StateIdle)]
  {
  }

  /** A drag whose direction is the start direction never meets the under-scroll guard. */
  lemma ForwardDragNeverUnderScrolls(start: StartAttributes, s: MotionSample, newOffset: real)
    requires s.dir == start.dir
    ensures !UnderScrolls(start, s.dir, newOffset)
  {
  }

  /**
   * With a positive forward ratio, a move in the start direction keeps the drag going: the
   * offset strictly increases for a forward over-scroll and never increases for a backward
   * one (it stays put for a vertical zero delta), whatever the sign of the offset it starts from.
   */
  lemma DragInStartDirectionStretches(c: Config, m: Machine, ev: MotionEvent)
    requires ValidConfig(c) && c.touchDragRatioFwd > 0.0
    requires m.phase == OverScrolling && ev.action.Move? && ev.pointerId == m.start.pointerId
    requires Sample(c.orientation, StoredOffset(m.view), ev).Some?
    requires Sample(c.orientation, StoredOffset(m.view), ev).value.dir == m.start.dir
    ensures var r := OnTouch(c, m, ev, false, false);
      r.machine.phase == OverScrolling &&
      (if m.start.dir then StoredOffset(r.machine.view) > StoredOffset(m.view)
       else StoredOffset(r.machine.view) <= StoredOffset(m.view))
  {
    var s := Sample(c.orientation, StoredOffset(m.view), ev).value;
    assert s.dir <==> s.deltaOffset > 0.0;
    var delta := DragDelta(c, m.start, s);
    assert delta == s.deltaOffset / c.touchDragRatioFwd;
    if m.start.dir {
      assert delta > 0.0;
    } else {
      assert delta <= 0.0;
    }
    DragFollowsFinger(c, m, ev);
  }

  /** A move by another pointer aborts into the bounce-back directly, leaving the view where it was. */
  lemma PointerSwitchBouncesBack(c: Config, m: Machine, ev: MotionEvent)
    requires ValidConfig(c) && m.phase == OverScrolling && ev.action.Move?
    requires ev.pointerId != m.start.pointerId
    ensures var r := OnTouch(c, m, ev, false, false);
      r.consumed && r.machine.phase == BounceBack && r.machine.view == m.view &&
      r.notes == [StateChange(m.dragState, StateBounceBack)] &&
      r.machine.animation == CreatePlan(m.velocity, m.start.dir, Bounds(c.orientation, m.view), c.decelerateFactor)
  {
  }

  /** Up or cancel while dragging starts the bounce-back from the current offset. */
  lemma ReleaseBouncesBack(c: Config, m: Machine, ev: MotionEvent, atStart: bool, atEnd: bool)
    requires ValidConfig(c) && m.phase == OverScrolling && (ev.action.Up? || ev.action.Cancel?)
    ensures var r := OnTouch(c, m, ev, atStart, atEnd);
      r.consumed && r.machine.phase == BounceBack && r.machine.view == m.view &&
      r.notes == [StateChange(m.dragState, StateBounceBack)] &&
      r.machine.animation[0].startOffset == StoredOffset(m.view)
  {
  }

  /** A move by the same pointer whose sample is rejected is consumed and changes nothing. */
  lemma DragSwallowsRejectedSample(c: Config, m: Machine, ev: MotionEvent)
    requires ValidConfig(c) && m.phase == OverScrolling && ev.action.Move?
    requires ev.pointerId == m.start.pointerId
    requires Sample(c.orientation, StoredOffset(m.view), ev).None?
    ensures OnTouch(c, m, ev, false, false) == TouchOutcome(m, true, ev, [])
  {
  }

  /**
   * The velocity is never reset: a gesture whose first drag step has no elapsed time and
   * that is then released plans its slow-down with the velocity of an earlier gesture.
   */
  lemma StaleVelocityCarriesOver(c: Config, m: Machine, ev: MotionEvent, up: MotionEvent)
    requires ValidConfig(c) && m.phase == Idle && ev.action.Move? && up.action.Up?
    requires ev.eventTime == ev.historicalEventTime
    requires Sample(c.orientation, StoredOffset(m.view), ev).Some?
    requires Sample(c.orientation, StoredOffset(m.view), ev).value.dir
    ensures var r := OnTouch(c, m, ev, true, false);
      var released := OnTouch(c, r.machine, up, true, false);
      released.machine.phase == BounceBack &&
      released.machine.animation ==
        CreatePlan(m.velocity, true, Bounds(c.orientation, r.machine.view), c.decelerateFactor)
  {
    IdleEntersOverScroll(c, m, ev, true, false);
  }

  // ---------------------------------------------------------------------------------------
  // Bounce-back state and the animation callbacks

  /** Every touch is swallowed during the bounce-back, and nothing changes. */
  lemma BounceBackSwallowsTouches(c: Config, m: Machine, ev: MotionEvent, atStart: bool, atEnd: bool)
    requires ValidConfig(c) && m.phase == BounceBack && !ev.action.OtherAction?
    ensures OnTouch(c, m, ev, atStart, atEnd) == TouchOutcome(m, true, ev, [])
  {
  }

  /**
   * The animation ends where the plan ends: after its last tick the view rests at offset 0,
   * and a view with a positive width whose stretch cap is at least 1 is unstretched again.
   */
  lemma LastTickRestsTheView(c: Config, m: Machine)
    requires ValidConfig(c) && m.phase == OverScrolling
    ensures var b := IssueStateTransition(c, m, BounceBack).machine;
      var last := b.animation[|b.animation| - 1];
      var v := OnAnimationUpdate(c, b, last.endOffset).machine.view;
      StoredOffset(v) == 0.0 &&
      (m.view.width > 0 && c.maxScaleFactor >= 1.0 ==>
         (if c.orientation.Horizontal? then v.scaleX else v.scaleY) == Finite(1.0))
  {
  }

  // ---------------------------------------------------------------------------------------
  // The listener calls follow the state

  /**
   * Follows a sequence of listener calls from a state id: each state change must leave the
   * id it arrives in, each offset update must carry the current id. None when one does not.
   */
  function ReplayNotes(id: StateId, notes: seq<Note>): Option<StateId>
    decreases |notes|
  {
    if notes == [] then Some(id)
    else match notes[0]
      case StateChange(from, to) => if from == id then ReplayNotes(to, notes[1..]) else None
      case OffsetUpdate(state, _) => if state == id then ReplayNotes(id, notes[1..]) else None
  }

  lemma {:induction false} ReplayAppend(id: StateId, a: seq<Note>, b: seq<Note>)
    ensures ReplayNotes(id, a + b) ==
              match ReplayNotes(id, a)
              case None => None
              case Some(mid) => ReplayNotes(mid, b)
    decreases |a|
  {
    if a != [] {
      assert (a + b)[0] == a[0];
      assert (a + b)[1..] == a[1..] + b;
      match a[0]
      case StateChange(from, to) => ReplayAppend(to, a[1..], b);
      case OffsetUpdate(state, _) => ReplayAppend(id, a[1..], b);
    } else {
      assert a + b == b;
    }
  }

  /**
   * What the decorator always keeps: while over-scrolling its id is the one of the start
   * direction, and while bouncing back it has a plan.
   */
  predicate Consistent(m: Machine)
  {
    (m.phase == OverScrolling ==> m.dragState == DragStateFor(m.start.dir)) &&
    (m.phase == BounceBack ==> |m.animation| > 0)
  }

  /** detach warns exactly when getCurrentState() is not the idle id. */
  lemma DetachWarnsUnlessIdle(m: Machine)
    requires Consistent(m)
    ensures DetachWarns(m) <==> CurrentStateId(m) != StateIdle
  {
  }

  /** A transition out of any state into a different one is reported from the old id to the new one. */
  lemma TransitionNotesTrackState(c: Config, m: Machine, target: Phase)
    requires ValidConfig(c) && Consistent(m) && (target == OverScrolling ==> m.phase != OverScrolling)
    ensures var t := IssueStateTransition(c, m, target);
      ReplayNotes(CurrentStateId(m), t.notes) == Some(CurrentStateId(t.machine)) && Consistent(t.machine)
  {
  }

  /** The drag handler's calls describe its state changes, and it keeps the machine consistent. */
  lemma DragNotesTrackState(c: Config, m: Machine, ev: MotionEvent)
    requires ValidConfig(c) && Consistent(m) && m.phase == OverScrolling
    ensures var r := DragMove(c, m, ev);
      ReplayNotes(CurrentStateId(m), r.notes) == Some(CurrentStateId(r.machine)) && Consistent(r.machine)
  {
    var r := DragMove(c, m, ev);
    if ev.pointerId == m.start.pointerId {
      match Sample(c.orientation, StoredOffset(m.view), ev)
      case None =>
      case Some(s) =>
        var newOffset := s.absOffset + DragDelta(c, m.start, s);
        if UnderScrolls(m.start, s.dir, newOffset) {
          var t := IssueStateTransition(c, m.(view := TranslateView(c, m.view, m.start.dir, m.start.absOffset)), Idle);
          ReplayAppend(CurrentStateId(m), [OffsetUpdate(m.dragState, 0.0)], t.notes);
        }
    }
  }

  /** Every touch event's listener calls describe the state change it makes. */
  lemma TouchNotesTrackState(c: Config, m: Machine, ev: MotionEvent, atStart: bool, atEnd: bool)
    requires ValidConfig(c) && Consistent(m)
    ensures var r := OnTouch(c, m, ev, atStart, atEnd);
      ReplayNotes(CurrentStateId(m), r.notes) == Some(CurrentStateId(r.machine)) && Consistent(r.machine)
  {
    if ev.action.Move? && m.phase == Idle {
      match Sample(c.orientation, StoredOffset(m.view), ev)
      case None =>
      case Some(s) =>
        if StartsOverScroll(s, atStart, atEnd) {
          var m1 := m.(start := StartAttributes(ev.pointerId, s.absOffset, s.dir));
          var t := IssueStateTransition(c, m1, OverScrolling);
          TransitionNotesTrackState(c, m1, OverScrolling);
          DragNotesTrackState(c, t.machine, ev);
          ReplayAppend(CurrentStateId(m), t.notes, DragMove(c, t.machine, ev).notes);
        }
    } else if ev.action.Move? && m.phase == OverScrolling {
      DragNotesTrackState(c, m, ev);
    } else if (ev.action.Up? || ev.action.Cancel?) && m.phase == OverScrolling {
      TransitionNotesTrackState(c, m, BounceBack);
    }
  }

  /** Anything that can reach the decorator: a touch event with the adapter's edge answers, or an animation callback. */
  datatype Input = Touch(event: MotionEvent, atStart: bool, atEnd: bool) | Tick(value: real) | AnimationEnd | AnimationCancel

  /**
   * One input. The framework calls the animation callbacks only while the animation the
   * bounce-back state started is running, so outside the bounce-back they are not delivered.
   */
  function Apply(c: Config, m: Machine, input: Input): (r: Step)
    requires ValidConfig(c)
    ensures !input.Touch? && m.phase != BounceBack ==> r == Step(m, [])
  {
    match input
    case Touch(ev, atStart, atEnd) =>
      var o := OnTouch(c, m, ev, atStart, atEnd);
      Step(o.machine, o.notes)
    case Tick(value) => if m.phase == BounceBack then OnAnimationUpdate(c, m, value) else Step(m, [])
    case AnimationEnd => if m.phase == BounceBack then OnAnimationEnd(c, m) else Step(m, [])
    case AnimationCancel => if m.phase == BounceBack then OnAnimationEnd(c, m) else Step(m, [])
  }

  /** A sequence of inputs, in order; the listener calls are concatenated. */
  function Run(c: Config, m: Machine, inputs: seq<Input>): (r: Step)
    requires ValidConfig(c)
    decreases |inputs|
  {
    if inputs == [] then Step(m, [])
    else
      var first := Apply(c, m, inputs[0]);
      var rest := Run(c, first.machine, inputs[1..]);
      Step(rest.machine, first.notes + rest.notes)
  }

  lemma ApplyNotesTrackState(c: Config, m: Machine, input: Input)
    requires ValidConfig(c) && Consistent(m)
    ensures var r := Apply(c, m, input);
      ReplayNotes(CurrentStateId(m), r.notes) == Some(CurrentStateId(r.machine)) && Consistent(r.machine)
  {
    match input
    case Touch(ev, atStart, atEnd) => TouchNotesTrackState(c, m, ev, atStart, atEnd);
    case Tick(_) =>
    case AnimationEnd =>
    case AnimationCancel =>
  }

  /**
   * Over any run from a consistent machine (a fresh one is), the listener calls chain
   * together: every state change leaves the id the previous one arrived in, every update
   * names the current id, and the last change arrives in the id getCurrentState() reports.
   */
  lemma {:induction false} RunNotesTrackState(c: Config, m: Machine, inputs: seq<Input>)
    requires ValidConfig(c) && Consistent(m)
    ensures var r := Run(c, m, inputs);
      ReplayNotes(CurrentStateId(m), r.notes) == Some(CurrentStateId(r.machine)) && Consistent(r.machine)
    decreases |inputs|
  {
    if inputs != [] {
      var first := Apply(c, m, inputs[0]);
      ApplyNotesTrackState(c, m, inputs[0]);
      RunNotesTrackState(c, first.machine, inputs[1..]);
      ReplayAppend(CurrentStateId(m), first.notes, Run(c, first.machine, inputs[1..]).notes);
    }
  }

  /** A fresh decorator is consistent. */
  lemma InitialIsConsistent(v: ViewState)
    ensures Consistent(Initial(v))
  {
  }

  /** Touch events without history never wake an idle decorator, however many arrive. */
  lemma {:induction false} IdleIgnoresEventsWithoutHistory(c: Config, m: Machine, inputs: seq<Input>)
    requires ValidConfig(c) && m.phase == Idle
    requires forall i :: 0 <= i < |inputs| ==> inputs[i].Touch? && inputs[i].event.historySize == 0
    ensures Run(c, m, inputs) == Step(m, [])
    decreases |inputs|
  {
    if inputs != [] {
      var ev := inputs[0].event;
      assert Sample(c.orientation, StoredOffset(m.view), ev).None?;
      IdleIgnoresEvent(c, m, ev, inputs[0].atStart, inputs[0].atEnd);
      IdleIgnoresEventsWithoutHistory(c, m, inputs[1..]);
    }
  }

  // One horizontal gesture with the default arguments on a 100-pixel view at its start edge.

  const ExampleView := ViewState(None, 100, 100, 100, 100, 0.0, 0.0, Finite(1.0), Finite(1.0))
  const FirstMove := MotionEvent(Move, 7, 1, 130.0, 50.0, 100.0, 50.0, 16, 0)
  const SecondMove := MotionEvent(Move, 7, 1, 160.0, 50.0, 130.0, 50.0, 32, 16)
  const Release := MotionEvent(Up, 7, 0, 160.0, 50.0, 0.0, 0.0, 40, 0)

  /** The first 30-pixel move enters the forward over-scroll and stretches the view by a third of it. */
  lemma ExampleFirstMove()
    ensures Apply(DefaultConfig(Horizontal), Initial(ExampleView), Touch(FirstMove, true, false)) ==
      Step(Machine(OverScrolling, StateDragStartSide, 10.0 / 16.0, StartAttributes(7, 0.0, true),
                   ExampleView.(offsetTag := Some(10.0), scaleX := Finite(1.1)), []),
           [StateChange(StateIdle, StateDragStartSide), OffsetUpdate(StateDragStartSide, 10.0)])
  {
    IdleEntersOverScroll(DefaultConfig(Horizontal), Initial(ExampleView), FirstMove, true, false);
  }

  /** The second move stretches the view to 20, where the scale reaches its 1.2 maximum. */
  lemma ExampleSecondMove(m: Machine)
    requires m == Machine(OverScrolling, StateDragStartSide, 10.0 / 16.0, StartAttributes(7, 0.0, true),
                          ExampleView.(offsetTag := Some(10.0), scaleX := Finite(1.1)), [])
    ensures Apply(DefaultConfig(Horizontal), m, Touch(SecondMove, true, false)) ==
      Step(m.(view := ExampleView.(offsetTag := Some(20.0), scaleX := Finite(1.2))),
           [OffsetUpdate(StateDragStartSide, 20.0)])
  {
    DragFollowsFinger(DefaultConfig(Horizontal), m, SecondMove);
  }

  /** The release plans a 0 ms slow-down of 0.09765625 pixels and a 500 ms bounce to rest. */
  lemma ExampleRelease(m: Machine)
    requires m == Machine(OverScrolling, StateDragStartSide, 10.0 / 16.0, StartAttributes(7, 0.0, true),
                          ExampleView.(offsetTag := Some(20.0), scaleX := Finite(1.2)), [])
    ensures Apply(DefaultConfig(Horizontal), m, Touch(Release, true, false)) ==
      Step(m.(phase := BounceBack,
              animation := [Segment(Decelerate, 20.0, 20.09765625, 0), Segment(Bounce, 20.09765625, 0.0, 500)]),
           [StateChange(StateDragStartSide, StateBounceBack)])
  {
    assert -(10.0 / 16.0) / -2.0 == 0.3125;
    assert IntCast(Finite(0.3125)) == 0;
    assert -(10.0 / 16.0) * (10.0 / 16.0) / (2.0 * -2.0) == 0.09765625;
    assert BounceBackDuration(20.09765625, 100) == 500 by {
      assert Abs(20.09765625) / 100.0 * 1000.0 == 200.9765625;
      assert IntCast(Finite(200.9765625)) == 200;
    }
  }

  /**
   * The whole gesture: two moves, a release, the last tick of the animation and its end.
   * The listeners see the four state changes and the three offsets in order; the view ends
   * at rest with no stretch, and the velocity of the gesture is kept.
   */
  lemma HorizontalGestureExample()
    ensures var r := Run(DefaultConfig(Horizontal), Initial(ExampleView),
                         [Touch(FirstMove, true, false), Touch(SecondMove, true, false), Touch(Release, true, false),
                          Tick(0.0), AnimationEnd]);
      r.machine.phase == Idle && StoredOffset(r.machine.view) == 0.0 &&
      r.machine.view.scaleX == Finite(1.0) && r.machine.velocity == 10.0 / 16.0 &&
      r.notes == [StateChange(StateIdle, StateDragStartSide), OffsetUpdate(StateDragStartSide, 10.0),
                  OffsetUpdate(StateDragStartSide, 20.0), StateChange(StateDragStartSide, StateBounceBack),
                  OffsetUpdate(StateBounceBack, 0.0), StateChange(StateBounceBack, StateIdle)]
  {
    var c := DefaultConfig(Horizontal);
    var inputs := [Touch(FirstMove, true, false), Touch(SecondMove, true, false), Touch(Release, true, false),
                   Tick(0.0), AnimationEnd];
    var m0 := Initial(ExampleView);
    var s1 := Apply(c, m0, inputs[0]);
    ExampleFirstMove();
    var s2 := Apply(c, s1.machine, inputs[1]);
    ExampleSecondMove(s1.machine);
    var s3 := Apply(c, s2.machine, inputs[2]);
    ExampleRelease(s2.machine);
    var s4 := Apply(c, s3.machine, inputs[3]);
    var s5 := Apply(c, s4.machine, inputs[4]);
    assert s4.machine.view.scaleX == Finite(1.0);
    assert Run(c, s4.machine, inputs[4..]) == Step(s5.machine, s5.notes) by {
      assert inputs[4..][1..] == [];
    }
    assert Run(c, s3.machine, inputs[3..]) == Step(s5.machine, s4.notes + s5.notes) by {
      assert inputs[3..][1..] == inputs[4..];
    }
    assert Run(c, s2.machine, inputs[2..]) == Step(s5.machine, s3.notes + s4.notes + s5.notes) by {
      assert inputs[2..][1..] == inputs[3..];
    }
    assert Run(c, s1.machine, inputs[1..]) == Step(s5.machine, s2.notes + s3.notes + s4.notes + s5.notes) by {
      assert inputs[1..][1..] == inputs[2..];
    }
  }
}
