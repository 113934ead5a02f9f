/**
 * The over-scroll decorator's touch state machine as a function of values: the three
 * internal states (idle, over-scrolling, bounce-back), the data they share, and what each
 * touch event and animation callback does to them. The class in decorator.dfy is proved
 * to behave exactly like these functions.
 */
module StateMachine {
  import opened Wrappers
  import opened EffectTypes
  import opened BouncePlan
  import H = HorizontalEffect
  import V = VerticalEffect

  /** The three internal states; the over-scrolling state reports one of two ids. */
  datatype Phase = Idle | OverScrolling | BounceBack

  /** The state ids the listeners see. */
  datatype StateId = StateIdle | StateDragStartSide | StateDragEndSide | StateBounceBack

  /** What the idle state captures when over-scrolling starts. */
  datatype StartAttributes = StartAttributes(pointerId: int, absOffset: real, dir: bool)

  /** A listener call: a state change (old id, new id) or an offset update (state id, offset). */
  datatype Note = StateChange(oldState: StateId, newState: StateId) | OffsetUpdate(state: StateId, offset: real)

  /** The constructor arguments of an effect. */
  datatype Config = Config(
    orientation: Orientation,
    touchDragRatioFwd: real,
    touchDragRatioBck: real,
    decelerateFactor: real,
    maxScaleFactor: real)

  /** The default arguments: drag ratios 3 and 1, deceleration -2, maximum scale 1.2. */
  function DefaultConfig(orientation: Orientation): (c: Config)
    ensures ValidConfig(c)
  {
    Config(orientation, 3.0, 1.0, -2.0, 1.2)
  }

  /** The drag ratios divide every drag delta and the deceleration divides the velocity. */
  predicate ValidConfig(c: Config)
  {
    c.touchDragRatioFwd != 0.0 && c.touchDragRatioBck != 0.0 && c.decelerateFactor != 0.0
  }

  /**
   * Everything the decorator's handlers read and write: the current state, the id the
   * over-scrolling state last took, the drag velocity, the start attributes, the decorated
   * view, and the plan of the animation most recently started.
   */
  datatype Machine = Machine(
    phase: Phase,
    dragState: StateId,
    velocity: real,
    start: StartAttributes,
    view: ViewState,
    animation: seq<Segment>)

  /** The result of a transition or an animation callback: the new machine and the listener calls, in order. */
  datatype Step = Step(machine: Machine, notes: seq<Note>)

  /** The result of a touch event: also whether it was consumed and the event as later handlers see it. */
  datatype TouchOutcome = TouchOutcome(machine: Machine, consumed: bool, event: MotionEvent, notes: seq<Note>)

  /** A freshly constructed effect: idle, zero velocity, zeroed start attributes, no animation. */
  function Initial(view: ViewState): (m: Machine)
    ensures m.phase == Idle && m.velocity == 0.0 && m.view == view && m.animation == []
    ensures CurrentStateId(m) == StateIdle
  {
    Machine(Idle, StateIdle, 0.0, StartAttributes(0, 0.0, false), view, [])
  }

  /** getStateId of each internal state; the over-scrolling state answers with its last drag id. */
  function StateIdOf(phase: Phase, dragState: StateId): StateId
  {
    match phase
    case Idle => StateIdle
    case OverScrolling => dragState
    case BounceBack => StateBounceBack
  }

  /** getCurrentState. */
  function CurrentStateId(m: Machine): StateId
  {
    StateIdOf(m.phase, m.dragState)
  }

  /** The id the over-scrolling state takes on entry. */
  function DragStateFor(dir: bool): (id: StateId)
    ensures id == StateDragStartSide <==> dir
    ensures id == StateDragEndSide <==> !dir
  {
    if dir then StateDragStartSide else StateDragEndSide
  }

  function Sample(o: Orientation, stored: real, ev: MotionEvent): Option<MotionSample>
  {
    if o.Horizontal? then H.Sample(stored, ev) else V.Sample(stored, ev)
  }

  function Bounds(o: Orientation, v: ViewState): AnimationBounds
  {
    if o.Horizontal? then H.Bounds(v) else V.Bounds(v)
  }

  function TranslateView(c: Config, v: ViewState, dir: bool, offset: real): ViewState
  {
    if c.orientation.Horizontal? then H.TranslateView(c.maxScaleFactor, v, dir, offset)
    else V.TranslateView(c.maxScaleFactor, v, dir, offset)
  }

  function AdjustEvent(o: Orientation, offset: real, ev: MotionEvent): MotionEvent
  {
    if o.Horizontal? then H.AdjustEvent(offset, ev) else V.AdjustEvent(offset, ev)
  }

  /**
   * issueStateTransition: the target becomes current, then its entry runs. Entering the
   * over-scrolling state first takes the drag id of the start direction; entering the
   * bounce-back state builds the plan from the velocity, the start direction and the view
   * after notifying. Each transition makes exactly one state-change call, from the id the
   * old state reports at that moment to the id of the new one.
   */
  function IssueStateTransition(c: Config, m: Machine, target: Phase): (r: Step)
    requires ValidConfig(c)
    ensures r.machine.phase == target
    ensures r.notes == [StateChange(StateIdOf(m.phase, r.machine.dragState), CurrentStateId(r.machine))]
    ensures r.machine.velocity == m.velocity && r.machine.start == m.start && r.machine.view == m.view
    ensures r.machine.dragState == if target == OverScrolling then DragStateFor(m.start.dir) else m.dragState
    ensures r.machine.animation ==
              if target == BounceBack
              then CreatePlan(m.velocity, m.start.dir, Bounds(c.orientation, m.view), c.decelerateFactor)
              else m.animation
  {
    var oldPhase := m.phase;
    match target
    case Idle =>
      var m1 := m.(phase := Idle);
      Step(m1, [StateChange(StateIdOf(oldPhase, m1.dragState), StateIdle)])
    case OverScrolling =>
      var m1 := m.(phase := OverScrolling, dragState := DragStateFor(m.start.dir));
      Step(m1, [StateChange(StateIdOf(oldPhase, m1.dragState), m1.dragState)])
    case BounceBack =>
      var note := StateChange(StateIdOf(oldPhase, m.dragState), StateBounceBack);
      var plan := CreatePlan(m.velocity, m.start.dir, Bounds(c.orientation, m.view), c.decelerateFactor);
      Step(m.(phase := BounceBack, animation := plan), [note])
  }

  /** The under-scroll guard: a drag back past the offset where over-scrolling started. */
  predicate UnderScrolls(start: StartAttributes, dir: bool, newOffset: real)
  {
    (start.dir && !dir && newOffset <= start.absOffset) ||
    (!start.dir && dir && newOffset >= start.absOffset)
  }

  /** A drag delta divided by the ratio for its direction: forward when it goes the start direction. */
  function DragDelta(c: Config, start: StartAttributes, s: MotionSample): real
    requires ValidConfig(c)
  {
    s.deltaOffset / (if s.dir == start.dir then c.touchDragRatioFwd else c.touchDragRatioBck)
  }

  /** The velocity after a drag step: delta over the elapsed milliseconds, kept when none elapsed. */
  function NextVelocity(velocity: real, delta: real, ev: MotionEvent): real
  {
    var dt := ev.eventTime - ev.historicalEventTime;
    if dt > 0 then delta / dt as real else velocity
  }

  /**
   * OverScrollingState.handleMoveTouchEvent. A different pointer aborts into the bounce-back;
   * a rejected sample is swallowed; a drag back past the start offset puts the view and the
   * event at the start offset, reports offset 0 and returns to idle; any other drag moves
   * the view to the sampled offset plus the scaled delta and reports it. Every move is consumed.
   */
  function DragMove(c: Config, m: Machine, ev: MotionEvent): (r: TouchOutcome)
    requires ValidConfig(c) && m.phase == OverScrolling
    ensures r.consumed
    ensures r.machine.start == m.start
    ensures r.machine.phase == OverScrolling ==> r.notes == [] || r.notes == [OffsetUpdate(m.dragState, StoredOffset(r.machine.view))]
    ensures r.machine.phase != OverScrolling ==>
              |r.notes| > 0 && r.notes[|r.notes| - 1] == StateChange(m.dragState, CurrentStateId(r.machine))
    ensures ev.pointerId != m.start.pointerId ==> r.machine.phase == BounceBack && r.machine.view == m.view
    ensures r.machine.phase != BounceBack ==> r.machine.animation == m.animation
  {
    if m.start.pointerId != ev.pointerId then
      var t := IssueStateTransition(c, m, BounceBack);
      TouchOutcome(t.machine, true, ev, t.notes)
    else
      match Sample(c.orientation, StoredOffset(m.view), ev)
      case None => TouchOutcome(m, true, ev, [])
      case Some(s) =>
        var delta := DragDelta(c, m.start, s);
        var newOffset := s.absOffset + delta;
        if UnderScrolls(m.start, s.dir, newOffset) then
          var view := TranslateView(c, m.view, m.start.dir, m.start.absOffset);
          var adjusted := AdjustEvent(c.orientation, m.start.absOffset, ev);
          var t := IssueStateTransition(c, m.(view := view), Idle);
          TouchOutcome(t.machine, true, adjusted, [OffsetUpdate(m.dragState, 0.0)] + t.notes)
        else
          var m1 := m.(velocity := NextVelocity(m.velocity, delta, ev),
                       view := TranslateView(c, m.view, m.start.dir, newOffset));
          TouchOutcome(m1, true, ev, [OffsetUpdate(m.dragState, newOffset)])
  }

  /** The idle state's start condition: at the start edge moving forward, or at the end edge moving backward. */
  predicate StartsOverScroll(s: MotionSample, atStart: bool, atEnd: bool)
  {
    (atStart && s.dir) || (atEnd && !s.dir)
  }

  /**
   * IdleState.handleMoveTouchEvent: when the sample is accepted and the start condition
   * holds, captures pointer, offset and direction, enters the over-scrolling state and
   * hands it the same event; otherwise the event is left to the view.
   */
  function IdleMove(c: Config, m: Machine, ev: MotionEvent, atStart: bool, atEnd: bool): (r: TouchOutcome)
    requires ValidConfig(c)
    ensures !r.consumed ==> r == TouchOutcome(m, false, ev, [])
  {
    match Sample(c.orientation, StoredOffset(m.view), ev)
    case None => TouchOutcome(m, false, ev, [])
    case Some(s) =>
      if StartsOverScroll(s, atStart, atEnd) then
        var t := IssueStateTransition(c, m.(start := StartAttributes(ev.pointerId, s.absOffset, s.dir)), OverScrolling);
        var o := DragMove(c, t.machine, ev);
        TouchOutcome(o.machine, o.consumed, o.event, t.notes + o.notes)
      else
        TouchOutcome(m, false, ev, [])
  }

  /** handleUpOrCancelTouchEvent of the current state. */
  function UpOrCancel(c: Config, m: Machine, ev: MotionEvent): (r: TouchOutcome)
    requires ValidConfig(c)
    ensures r.consumed <==> m.phase != Idle
    ensures r.machine.phase == if m.phase == Idle then Idle else BounceBack
  {
    match m.phase
    case Idle => TouchOutcome(m, false, ev, [])
    case OverScrolling =>
      var t := IssueStateTransition(c, m, BounceBack);
      TouchOutcome(t.machine, true, ev, t.notes)
    case BounceBack => TouchOutcome(m, true, ev, [])
  }

  /**
   * onTouch: a move goes to the current state's move handler (the bounce-back state swallows
   * it), up and cancel to its up/cancel handler, and any other action is not consumed.
   */
  function OnTouch(c: Config, m: Machine, ev: MotionEvent, atStart: bool, atEnd: bool): (r: TouchOutcome)
    requires ValidConfig(c)
    ensures m.phase == BounceBack ==> r.machine == m && r.notes == [] && (r.consumed <==> !ev.action.OtherAction?)
    ensures ev.action.OtherAction? ==> r == TouchOutcome(m, false, ev, [])
    ensures r.machine.view != m.view ==> ev.action.Move?
  {
    match ev.action
    case Move =>
      (match m.phase
       case Idle => IdleMove(c, m, ev, atStart, atEnd)
       case OverScrolling => DragMove(c, m, ev)
       case BounceBack => TouchOutcome(m, true, ev, []))
    case Up => UpOrCancel(c, m, ev)
    case Cancel => UpOrCancel(c, m, ev)
    case OtherAction(_) => TouchOutcome(m, false, ev, [])
  }

  /** onAnimationUpdate: the view goes to the animated value (pivot from the start direction) and the update is reported as bounce-back. */
  function OnAnimationUpdate(c: Config, m: Machine, value: real): (r: Step)
    ensures StoredOffset(r.machine.view) == value
    ensures r.machine.view == TranslateView(c, m.view, m.start.dir, value)
    ensures r.notes == [OffsetUpdate(StateBounceBack, value)]
    ensures r.machine.(view := m.view) == m
  {
    Step(m.(view := TranslateView(c, m.view, m.start.dir, value)), [OffsetUpdate(StateBounceBack, value)])
  }

  /** onAnimationEnd and onAnimationCancel: both return to idle. */
  function OnAnimationEnd(c: Config, m: Machine): (r: Step)
    requires ValidConfig(c)
    ensures r.machine == m.(phase := Idle)
    ensures r.notes == [StateChange(CurrentStateId(m), StateIdle)]
  {
    IssueStateTransition(c, m, Idle)
  }

  /** detach logs a warning exactly when the decorator is not idle. */
  predicate DetachWarns(m: Machine)
  {
    m.phase != Idle
  }
}
