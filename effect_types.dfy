/**
 * Values shared by the horizontal and the vertical bounce effect: the touch event as the
 * effect reads it, the per-event motion sample, the decorated view's state, and the scale
 * formula both orientations apply.
 */
module EffectTypes {
  import opened Wrappers
  import opened JavaFloat

  datatype Orientation = Horizontal | Vertical

  /** The action code of a touch event; every action other than move, up and cancel is OtherAction. */
  datatype Action = Move | Up | Cancel | OtherAction(code: int)

  /**
   * The parts of a touch event the effect reads: the action, the id and position of pointer 0,
   * how many historical samples the event batches, the oldest of them (index 0), and the
   * event times in milliseconds. The historical fields mean nothing when historySize == 0.
   */
  datatype MotionEvent = MotionEvent(
    action: Action,
    pointerId: int,
    historySize: nat,
    x: real,
    y: real,
    historicalX: real,
    historicalY: real,
    eventTime: int,
    historicalEventTime: int)

  /** Horizontal motion since the oldest historical sample. */
  function Dx(ev: MotionEvent): real
  {
    ev.x - ev.historicalX
  }

  /** Vertical motion since the oldest historical sample. */
  function Dy(ev: MotionEvent): real
  {
    ev.y - ev.historicalY
  }

  /**
   * MotionEvent.offsetLocation: moves every sample of the event, current and historical,
   * by the same amounts, so the event still describes the same motion.
   */
  function OffsetLocation(ev: MotionEvent, deltaX: real, deltaY: real): (r: MotionEvent)
    ensures r.x == ev.x + deltaX && r.y == ev.y + deltaY
    ensures Dx(r) == Dx(ev) && Dy(r) == Dy(ev)
    ensures r.action == ev.action && r.pointerId == ev.pointerId && r.historySize == ev.historySize
    ensures r.eventTime == ev.eventTime && r.historicalEventTime == ev.historicalEventTime
  {
    ev.(x := ev.x + deltaX, historicalX := ev.historicalX + deltaX,
        y := ev.y + deltaY, historicalY := ev.historicalY + deltaY)
  }

  /** What one motion event says along the effect's axis: where the view is, how far and which way the finger moved. */
  datatype MotionSample = MotionSample(absOffset: real, deltaOffset: real, dir: bool)

  /**
   * The decorated view as the effect sees it: the over-scroll offset kept in the view's
   * tag (absent until first set), its size and measured size, and the pivot and scale
   * properties the effect writes.
   */
  datatype ViewState = ViewState(
    offsetTag: Option<real>,
    width: nat,
    height: nat,
    measuredWidth: nat,
    measuredHeight: nat,
    pivotX: real,
    pivotY: real,
    scaleX: JFloat,
    scaleY: JFloat)

  /** getViewOffset: the offset held in the view's tag, 0 while the tag is unset. */
  function StoredOffset(v: ViewState): (r: real)
    ensures v.offsetTag == None ==> r == 0.0
    ensures v.offsetTag.Some? ==> r == v.offsetTag.value
  {
    match v.offsetTag
    case Some(o) => o
    case None => 0.0
  }

  /** setViewOffset: stores the offset in the view's tag and touches nothing else. */
  function StoreOffset(v: ViewState, offset: real): (r: ViewState)
    ensures StoredOffset(r) == offset
    ensures r.(offsetTag := v.offsetTag) == v
  {
    v.(offsetTag := Some(offset))
  }

  /**
   * The scale both orientations apply for an offset: Math.min(maxScale, 1 + |offset| / width)
   * in float arithmetic, where `width` is the view's width.
   */
  function ScaleFactor(maxScale: real, offset: real, width: nat): (s: JFloat)
    ensures s != Infinity
    ensures s.Finite? ==> s.value <= maxScale
    ensures s == NaN <==> width == 0 && offset == 0.0
    ensures width == 0 && offset != 0.0 ==> s == Finite(maxScale)
    ensures width > 0 && maxScale >= 1.0 ==> s.Finite? && 1.0 <= s.value
    ensures width > 0 && 1.0 + Abs(offset) / width as real <= maxScale ==>
              s == Finite(1.0 + Abs(offset) / width as real)
    ensures width > 0 && 1.0 + Abs(offset) / width as real > maxScale ==> s == Finite(maxScale)
  {
    MinWith(maxScale, Plus(1.0, Divide(Abs(offset), width as real)))
  }

  /** The animation attributes: where the bounce-back starts and the view extent its duration is measured against. */
  datatype AnimationBounds = AnimationBounds(absOffset: real, maxOffset: nat)
}
