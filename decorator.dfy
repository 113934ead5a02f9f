/**
 * The decorator as the objects the library builds: the view it decorates, the reused
 * motion and animation attribute holders, and the effect whose fields the state handlers
 * update step by step. Every handler is proved to do exactly what the matching function
 * of StateMachine does to the abstract machine, and to make the same listener calls.
 */
module Decorator {
  import opened Wrappers
  import opened JavaFloat
  import opened EffectTypes
  import opened BouncePlan
  import SM = StateMachine

  /** The decorated view: the offset tag, the size, and the pivot and scale the effect writes. */
  class View {
    var offsetTag: Option<real>
    const width: nat
    const height: nat
    const measuredWidth: nat
    const measuredHeight: nat
    var pivotX: real
    var pivotY: real
    var scaleX: JFloat
    var scaleY: JFloat

    function State(): ViewState
      reads this
    {
      ViewState(offsetTag, width, height, measuredWidth, measuredHeight, pivotX, pivotY, scaleX, scaleY)
    }

    constructor (s: ViewState)
      ensures State() == s
    {
      offsetTag := s.offsetTag;
      width := s.width;
      height := s.height;
      measuredWidth := s.measuredWidth;
      measuredHeight := s.measuredHeight;
      pivotX := s.pivotX;
      pivotY := s.pivotY;
      scaleX := s.scaleX;
      scaleY := s.scaleY;
    }
  }

  /** getViewOffset: the offset in the view's tag, 0 while the tag is unset. */
  method GetViewOffset(view: View) returns (offset: real)
    ensures view.offsetTag.Some? ==> offset == view.offsetTag.value
    ensures view.offsetTag.None? ==> offset == 0.0
  {
    if view.offsetTag.Some? {
      offset := view.offsetTag.value;
    } else {
      offset := 0.0;
    }
  }

  /** setViewOffset: stores the offset in the view's tag; getViewOffset then returns it. */
  method SetViewOffset(view: View, offset: real)
    modifies view
    ensures view.State() == StoreOffset(old(view.State()), offset)
    ensures StoredOffset(view.State()) == offset
  {
    view.offsetTag := Some(offset);
  }

  /** MotionAttributes: the reused holder each state fills from a touch event. */
  class MotionAttributes {
    const orientation: Orientation
    var absOffset: real
    var deltaOffset: real
    var dir: bool

    function Value(): MotionSample
      reads this
    {
      MotionSample(absOffset, deltaOffset, dir)
    }

    constructor (orientation: Orientation)
      ensures this.orientation == orientation && Value() == MotionSample(0.0, 0.0, false)
    {
      this.orientation := orientation;
      absOffset := 0.0;
      deltaOffset := 0.0;
      dir := false;
    }

    /**
     * MotionAttributesHorizontal.init and MotionAttributesVertical.init: true exactly when
     * the orientation's sampling accepts the event, and then the fields hold the sample;
     * a rejected event leaves them as they were.
     */
    method Init(view: View, ev: MotionEvent) returns (ok: bool)
      modifies this
      ensures var sample := SM.Sample(orientation, StoredOffset(view.State()), ev);
        ok == sample.Some? && (ok ==> Value() == sample.value) && (!ok ==> Value() == old(Value()))
    {
      if ev.historySize == 0 {
        return false;
      }
      var dx := ev.x - ev.historicalX;
      var dy := ev.y - ev.historicalY;
      if orientation.Horizontal? {
        if Abs(dx) < Abs(dy) {
          return false;
        }
        if dx == 0.0 {
          return false;
        }
        absOffset := GetViewOffset(view);
        deltaOffset := dx;
      } else {
        if Abs(dx) > Abs(dy) {
          return false;
        }
        absOffset := GetViewOffset(view);
        deltaOffset := dy;
      }
      dir := deltaOffset > 0.0;
      ok := true;
    }
  }

  /** AnimationAttributes: where the bounce-back starts and the extent it is measured against. */
  class AnimationAttributes {
    const orientation: Orientation
    var absOffset: real
    var maxOffset: nat

    function Value(): AnimationBounds
      reads this
    {
      AnimationBounds(absOffset, maxOffset)
    }

    constructor (orientation: Orientation)
      ensures this.orientation == orientation && Value() == AnimationBounds(0.0, 0)
    {
      this.orientation := orientation;
      absOffset := 0.0;
      maxOffset := 0;
    }

    /** AnimationAttributesHorizontal.init / AnimationAttributesVertical.init: the stored offset and the width or height. */
    method Init(view: View)
      modifies this
      ensures Value() == SM.Bounds(orientation, view.State())
    {
      absOffset := GetViewOffset(view);
      maxOffset := if orientation.Horizontal? then view.width else view.height;
    }
  }

  /**
   * ElasticityBounceEffectBase with its horizontal or vertical subclass: the current
   * state, the over-scrolling state's drag id, the velocity, the start attributes, and the
   * animation most recently started; the listeners are the ghost record of their calls.
   */
  class ElasticityBounceEffect {
    const config: SM.Config
    const view: View
    const idleMoveAttr: MotionAttributes
    const dragMoveAttr: MotionAttributes
    const animAttr: AnimationAttributes
    var phase: SM.Phase
    var currDragState: SM.StateId
    var velocity: real
    var startPointerId: int
    var startAbsOffset: real
    var startDir: bool
    var animation: seq<Segment>
    var attached: bool
    ghost var notifications: seq<SM.Note>

    ghost predicate Valid()
      reads this
    {
      SM.ValidConfig(config) &&
      idleMoveAttr.orientation == config.orientation &&
      dragMoveAttr.orientation == config.orientation &&
      animAttr.orientation == config.orientation
    }

    /** The abstract machine the fields stand for. */
    function Model(): SM.Machine
      reads this, view
    {
      SM.Machine(phase, currDragState, velocity, SM.StartAttributes(startPointerId, startAbsOffset, startDir),
                 view.State(), animation)
    }

    /** The constructor: idle, attached to the view, nothing reported yet. */
    constructor (orientation: Orientation, view: View, touchDragRatioFwd: real, touchDragRatioBck: real,
                 decelerateFactor: real, maxScaleFactor: real)
      requires touchDragRatioFwd != 0.0 && touchDragRatioBck != 0.0 && decelerateFactor != 0.0
      ensures Valid() && this.view == view && attached && notifications == []
      ensures config == SM.Config(orientation, touchDragRatioFwd, touchDragRatioBck, decelerateFactor, maxScaleFactor)
      ensures Model() == SM.Initial(view.State())
    {
      config := SM.Config(orientation, touchDragRatioFwd, touchDragRatioBck, decelerateFactor, maxScaleFactor);
      this.view := view;
      idleMoveAttr := new MotionAttributes(orientation);
      dragMoveAttr := new MotionAttributes(orientation);
      animAttr := new AnimationAttributes(orientation);
      phase := SM.Idle;
      currDragState := SM.StateIdle;
      velocity := 0.0;
      startPointerId := 0;
      startAbsOffset := 0.0;
      startDir := false;
      animation := [];
      attached := true;
      notifications := [];
    }

    /** translateView of the effect's orientation. */
    method TranslateView(dir: bool, offset: real)
      requires Valid()
      modifies view
      ensures view.State() == SM.TranslateView(config, old(view.State()), dir, offset)
    {
      SetViewOffset(view, offset);
      var scale := MinWith(config.maxScaleFactor, Plus(1.0, Divide(Abs(offset), view.width as real)));
      if config.orientation.Horizontal? {
        view.pivotY := 0.0;
        if dir {
          view.pivotX := 0.0;
        } else {
          view.pivotX := view.measuredWidth as real;
        }
        view.scaleX := scale;
      } else {
        view.pivotX := 0.0;
        if dir {
          view.pivotY := 0.0;
        } else {
          view.pivotY := view.measuredHeight as real;
        }
        view.scaleY := scale;
      }
    }

    /** translateViewAndEvent: translateView, then the event moved as the orientation prescribes. */
    method TranslateViewAndEvent(dir: bool, offset: real, ev: MotionEvent) returns (adjusted: MotionEvent)
      requires Valid()
      modifies view
      ensures view.State() == SM.TranslateView(config, old(view.State()), dir, offset)
      ensures adjusted == SM.AdjustEvent(config.orientation, offset, ev)
    {
      TranslateView(dir, offset);
      if config.orientation.Horizontal? {
        adjusted := OffsetLocation(ev, offset - ev.x, 0.0);
      } else {
        adjusted := OffsetLocation(ev, offset - ev.y, 0.0);
      }
    }

    /** createBounceBackAnimator(startOffset, 0), measured against the animation attributes' extent. */
    method CreateBounceBackAnimator(startOffset: real) returns (segment: Segment)
      ensures segment == BounceBackSegment(startOffset, animAttr.maxOffset)
      ensures segment.endOffset == 0.0 && segment.durationMs >= MinBounceBackDurationMs
    {
      var bounceBackDuration := Times(Divide(Abs(startOffset), animAttr.maxOffset as real), MaxBounceBackDurationMs as real);
      segment := Segment(Bounce, startOffset, 0.0, Max(IntCast(bounceBackDuration), MinBounceBackDurationMs));
    }

    /** createAnimator: reads the animation attributes from the view and builds the plan. */
    method CreateAnimator() returns (plan: seq<Segment>)
      requires Valid()
      modifies animAttr
      ensures plan == CreatePlan(velocity, startDir, SM.Bounds(config.orientation, view.State()), config.decelerateFactor)
    {
      animAttr.Init(view);
      if velocity == 0.0 || (velocity < 0.0 && startDir) || (velocity > 0.0 && !startDir) {
        var bounce := CreateBounceBackAnimator(animAttr.absOffset);
        return [bounce];
      }
      var slowdownDuration := -velocity / config.decelerateFactor;
      slowdownDuration := if slowdownDuration < 0.0 then 0.0 else slowdownDuration;
      var slowdownDistance := SlowdownDistance(velocity, config.decelerateFactor);
      var slowdownEndOffset := animAttr.absOffset + slowdownDistance;
      var slowdown := Segment(Decelerate, animAttr.absOffset, slowdownEndOffset, IntCast(Finite(slowdownDuration)));
      var bounce := CreateBounceBackAnimator(slowdownEndOffset);
      plan := [slowdown, bounce];
    }

    /** issueStateTransition: the target becomes current and its entry runs. */
    method IssueStateTransition(target: SM.Phase)
      requires Valid()
      modifies this, animAttr
      ensures Valid() && attached == old(attached)
      ensures var t := SM.IssueStateTransition(config, old(Model()), target);
        Model() == t.machine && notifications == old(notifications) + t.notes
    {
      var oldPhase := phase;
      phase := target;
      match target
      case Idle =>
        notifications := notifications + [SM.StateChange(SM.StateIdOf(oldPhase, currDragState), SM.StateIdle)];
      case OverScrolling =>
        currDragState := if startDir then SM.StateDragStartSide else SM.StateDragEndSide;
        notifications := notifications + [SM.StateChange(SM.StateIdOf(oldPhase, currDragState), currDragState)];
      case BounceBack =>
        notifications := notifications + [SM.StateChange(SM.StateIdOf(oldPhase, currDragState), SM.StateBounceBack)];
        animation := CreateAnimator();
    }

    /** OverScrollingState.handleMoveTouchEvent. */
    method DragHandleMove(ev: MotionEvent) returns (consumed: bool, event: MotionEvent)
      requires Valid() && phase == SM.OverScrolling
      modifies this, view, dragMoveAttr, animAttr
      ensures Valid() && attached == old(attached)
      ensures var o := SM.DragMove(config, old(Model()), ev);
        Model() == o.machine && consumed == o.consumed && event == o.event &&
        notifications == old(notifications) + o.notes
    {
      if startPointerId != ev.pointerId {
        IssueStateTransition(SM.BounceBack);
        return true, ev;
      }
      var ok := dragMoveAttr.Init(view, ev);
      if !ok {
        return true, ev;
      }
      var deltaOffset := dragMoveAttr.deltaOffset /
        (if dragMoveAttr.dir == startDir then config.touchDragRatioFwd else config.touchDragRatioBck);
      var newOffset := dragMoveAttr.absOffset + deltaOffset;
      if (startDir && !dragMoveAttr.dir && newOffset <= startAbsOffset) ||
         (!startDir && dragMoveAttr.dir && newOffset >= startAbsOffset) {
        event := TranslateViewAndEvent(startDir, startAbsOffset, ev);
        notifications := notifications + [SM.OffsetUpdate(currDragState, 0.0)];
        IssueStateTransition(SM.Idle);
        return true, event;
      }
      var dt := ev.eventTime - ev.historicalEventTime;
      if dt > 0 {
        velocity := deltaOffset / dt as real;
      }
      TranslateView(startDir, newOffset);
      notifications := notifications + [SM.OffsetUpdate(currDragState, newOffset)];
      return true, ev;
    }

    /** IdleState.handleMoveTouchEvent; atStart and atEnd are the adapter's answers. */
    method IdleHandleMove(ev: MotionEvent, atStart: bool, atEnd: bool) returns (consumed: bool, event: MotionEvent)
      requires Valid() && phase == SM.Idle
      modifies this, view, idleMoveAttr, dragMoveAttr, animAttr
      ensures Valid() && attached == old(attached)
      ensures var o := SM.IdleMove(config, old(Model()), ev, atStart, atEnd);
        Model() == o.machine && consumed == o.consumed && event == o.event &&
        notifications == old(notifications) + o.notes
    {
      var ok := idleMoveAttr.Init(view, ev);
      if !ok {
        return false, ev;
      }
      if (atStart && idleMoveAttr.dir) || (atEnd && !idleMoveAttr.dir) {
        startPointerId := ev.pointerId;
        startAbsOffset := idleMoveAttr.absOffset;
        startDir := idleMoveAttr.dir;
        IssueStateTransition(SM.OverScrolling);
        consumed, event := DragHandleMove(ev);
        return;
      }
      return false, ev;
    }

    /** onTouch: dispatches to the current state's handlers. */
    method OnTouch(ev: MotionEvent, atStart: bool, atEnd: bool) returns (consumed: bool, event: MotionEvent)
      requires Valid()
      modifies this, view, idleMoveAttr, dragMoveAttr, animAttr
      ensures Valid() && attached == old(attached)
      ensures var o := SM.OnTouch(config, old(Model()), ev, atStart, atEnd);
        Model() == o.machine && consumed == o.consumed && event == o.event &&
        notifications == old(notifications) + o.notes
    {
      match ev.action
      case Move =>
        if phase == SM.Idle {
          consumed, event := IdleHandleMove(ev, atStart, atEnd);
        } else if phase == SM.OverScrolling {
          consumed, event := DragHandleMove(ev);
        } else {
          consumed, event := true, ev;
        }
      case Up => consumed, event := HandleUpOrCancel(ev);
      case Cancel => consumed, event := HandleUpOrCancel(ev);
      case OtherAction(_) => consumed, event := false, ev;
    }

    /** handleUpOrCancelTouchEvent of the current state. */
    method HandleUpOrCancel(ev: MotionEvent) returns (consumed: bool, event: MotionEvent)
      requires Valid()
      modifies this, animAttr
      ensures Valid() && attached == old(attached)
      ensures var o := SM.UpOrCancel(config, old(Model()), ev);
        Model() == o.machine && consumed == o.consumed && event == o.event &&
        notifications == old(notifications) + o.notes
    {
      event := ev;
      match phase
      case Idle => consumed := false;
      case OverScrolling =>
        IssueStateTransition(SM.BounceBack);
        consumed := true;
      case BounceBack => consumed := true;
    }

    /** onAnimationUpdate: the view follows the animated value. */
    method OnAnimationUpdate(value: real)
      requires Valid()
      modifies view, this
      ensures Valid() && attached == old(attached)
      ensures var s := SM.OnAnimationUpdate(config, old(Model()), value);
        Model() == s.machine && notifications == old(notifications) + s.notes
    {
      TranslateView(startDir, value);
      notifications := notifications + [SM.OffsetUpdate(SM.StateBounceBack, value)];
    }

    /** onAnimationEnd: back to idle. */
    method OnAnimationEnd()
      requires Valid()
      modifies this, animAttr
      ensures Valid() && attached == old(attached)
      ensures var s := SM.OnAnimationEnd(config, old(Model()));
        Model() == s.machine && notifications == old(notifications) + s.notes
    {
      IssueStateTransition(SM.Idle);
    }

    /** onAnimationCancel: back to idle, as on the end. */
    method OnAnimationCancel()
      requires Valid()
      modifies this, animAttr
      ensures Valid() && attached == old(attached)
      ensures var s := SM.OnAnimationEnd(config, old(Model()));
        Model() == s.machine && notifications == old(notifications) + s.notes
    {
      IssueStateTransition(SM.Idle);
    }

    /** getCurrentState. */
    method GetCurrentState() returns (id: SM.StateId)
      ensures id == SM.CurrentStateId(Model())
      ensures id == SM.StateIdle <==> phase == SM.Idle || (phase == SM.OverScrolling && currDragState == SM.StateIdle)
    {
      match phase
      case Idle => id := SM.StateIdle;
      case OverScrolling => id := currDragState;
      case BounceBack => id := SM.StateBounceBack;
    }

    /** detach: warns when not idle, then releases the view; the machine itself is untouched. */
    method Detach() returns (warned: bool)
      modifies this
      ensures warned == SM.DetachWarns(old(Model())) && !attached
      ensures Model() == old(Model()) && notifications == old(notifications)
    {
      warned := phase != SM.Idle;
      attached := false;
    }
  }
}
