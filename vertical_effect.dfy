/** The vertical bounce effect: what it reads from a touch event and what it writes to the view. */
module VerticalEffect {
  import opened Wrappers
  import opened JavaFloat
  import opened EffectTypes

  /**
   * MotionAttributesVertical.init as a value: an event without history and a mostly
   * horizontal motion (ties count as vertical) are rejected; unlike the horizontal
   * effect there is no zero check, so a motionless event is accepted as a backward
   * sample with delta 0. The sample carries the stored view offset, the vertical delta,
   * and "forward" for a downward motion.
   */
  function Sample(stored: real, ev: MotionEvent): (r: Option<MotionSample>)
    ensures ev.historySize == 0 ==> r == None
    ensures r.Some? <==> ev.historySize > 0 && Abs(Dx(ev)) <= Abs(Dy(ev))
    ensures r.Some? ==> r.value.absOffset == stored && r.value.deltaOffset == Dy(ev)
    ensures r.Some? ==> (r.value.dir <==> r.value.deltaOffset > 0.0)
  {
    if ev.historySize == 0 then None
    else
      var dy := Dy(ev);
      var dx := Dx(ev);
      if Abs(dx) > Abs(dy) then None
      else Some(MotionSample(stored, dy, dy > 0.0))
  }

  /** AnimationAttributesVertical.init: the bounce starts at the stored offset and is measured against the view's height. */
  function Bounds(v: ViewState): (a: AnimationBounds)
    ensures a.absOffset == StoredOffset(v) && a.maxOffset == v.height
  {
    AnimationBounds(StoredOffset(v), v.height)
  }

  /**
   * translateView: stores the offset, pins pivotX at the left, puts pivotY on the top
   * edge for a forward drag and on the bottom edge otherwise, and stretches vertically
   * by the offset relative to the view's WIDTH (not its height), never beyond maxScale.
   * Nothing else of the view changes.
   */
  function TranslateView(maxScale: real, v: ViewState, dir: bool, offset: real): (r: ViewState)
    ensures StoredOffset(r) == offset
    ensures r.pivotX == 0.0
    ensures r.pivotY == if dir then 0.0 else v.measuredHeight as real
    ensures r.scaleY == ScaleFactor(maxScale, offset, v.width)
    ensures r.scaleY.Finite? ==> r.scaleY.value <= maxScale
    ensures r.(offsetTag := v.offsetTag, pivotX := v.pivotX, pivotY := v.pivotY, scaleY := v.scaleY) == v
  {
    StoreOffset(v, offset).(
      pivotX := 0.0,
      pivotY := if dir then 0.0 else v.measuredHeight as real,
      scaleY := ScaleFactor(maxScale, offset, v.width))
  }

  /**
   * The event half of translateViewAndEvent: the event is shifted HORIZONTALLY by
   * (offset - y), so its vertical position is left untouched; the motion it describes
   * is unchanged.
   */
  function AdjustEvent(offset: real, ev: MotionEvent): (r: MotionEvent)
    ensures r.x == ev.x + (offset - ev.y) && r.y == ev.y
    ensures Dx(r) == Dx(ev) && Dy(r) == Dy(ev)
    ensures r.(x := ev.x, historicalX := ev.historicalX) == ev
  {
    OffsetLocation(ev, offset - ev.y, 0.0)
  }

  /**
   * An event with history but no motion at all is accepted (the horizontal effect rejects
   * it): a backward sample with delta 0.
   */
  lemma MotionlessEventIsBackwardSample(stored: real, ev: MotionEvent)
    requires ev.historySize > 0 && ev.x == ev.historicalX && ev.y == ev.historicalY
    ensures Sample(stored, ev) == Some(MotionSample(stored, 0.0, false))
  {
  }

  /** The vertical stretch depends on the view's width and not at all on its height. */
  lemma StretchIgnoresHeight(maxScale: real, v: ViewState, height: nat, dir: bool, offset: real)
    ensures TranslateView(maxScale, v.(height := height), dir, offset).scaleY == TranslateView(maxScale, v, dir, offset).scaleY
  {
  }
}
