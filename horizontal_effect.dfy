/** The horizontal bounce effect: what it reads from a touch event and what it writes to the view. */
module HorizontalEffect {
  import opened Wrappers
  import opened JavaFloat
  import opened EffectTypes

  /**
   * MotionAttributesHorizontal.init as a value: an event without history, a mostly
   * vertical motion (ties count as horizontal) and a motion with no horizontal
   * component are rejected; otherwise the sample carries the stored view offset, the
   * horizontal delta, and "forward" for a rightward motion.
   */
  function Sample(stored: real, ev: MotionEvent): (r: Option<MotionSample>)
    ensures ev.historySize == 0 ==> r == None
    ensures r.Some? <==> ev.historySize > 0 && Abs(Dx(ev)) >= Abs(Dy(ev)) && Dx(ev) != 0.0
    ensures r.Some? ==> r.value.absOffset == stored && r.value.deltaOffset == Dx(ev)
    ensures r.Some? ==> r.value.deltaOffset != 0.0 && (r.value.dir <==> r.value.deltaOffset > 0.0)
  {
    if ev.historySize == 0 then None
    else
      var dx := Dx(ev);
      var dy := Dy(ev);
      if Abs(dx) < Abs(dy) then None
      else if dx == 0.0 then None
      else Some(MotionSample(stored, dx, dx > 0.0))
  }

  /** AnimationAttributesHorizontal.init: the bounce starts at the stored offset and is measured against the view's width. */
  function Bounds(v: ViewState): (a: AnimationBounds)
    ensures a.absOffset == StoredOffset(v) && a.maxOffset == v.width
  {
    AnimationBounds(StoredOffset(v), v.width)
  }

  /**
   * translateView: stores the offset, pins pivotY at the top, puts pivotX on the left edge
   * for a forward drag and on the right edge otherwise, and stretches horizontally by the
   * offset relative to the width, never beyond maxScale. Nothing else of the view changes.
   */
  function TranslateView(maxScale: real, v: ViewState, dir: bool, offset: real): (r: ViewState)
    ensures StoredOffset(r) == offset
    ensures r.pivotY == 0.0
    ensures r.pivotX == if dir then 0.0 else v.measuredWidth as real
    ensures r.scaleX == ScaleFactor(maxScale, offset, v.width)
    ensures r.scaleX.Finite? ==> r.scaleX.value <= maxScale
    ensures r.(offsetTag := v.offsetTag, pivotX := v.pivotX, pivotY := v.pivotY, scaleX := v.scaleX) == v
  {
    StoreOffset(v, offset).(
      pivotY := 0.0,
      pivotX := if dir then 0.0 else v.measuredWidth as real,
      scaleX := ScaleFactor(maxScale, offset, v.width))
  }

  /**
   * The event half of translateViewAndEvent: the event is moved horizontally so that
   * pointer 0 lands exactly on the offset; its vertical position and the motion it
   * describes are unchanged.
   */
  function AdjustEvent(offset: real, ev: MotionEvent): (r: MotionEvent)
    ensures r.x == offset && r.y == ev.y
    ensures Dx(r) == Dx(ev) && Dy(r) == Dy(ev)
    ensures r.(x := ev.x, historicalX := ev.historicalX) == ev
  {
    OffsetLocation(ev, offset - ev.x, 0.0)
  }
}
