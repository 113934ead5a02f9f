/**
 * The bounce-back animation plan built when a drag is released (createAnimator and
 * createBounceBackAnimator), as data: an optional decelerating slow-down segment that
 * continues the drag until its velocity is spent, then a bouncing segment back to 0.
 * The interpolation curves themselves belong to the animation framework.
 */
module BouncePlan {
  import opened JavaFloat
  import opened EffectTypes

  const MaxBounceBackDurationMs: int := 1000
  const MinBounceBackDurationMs: int := 500

  datatype Easing = Decelerate | Bounce

  /** One animator: the offsets it runs between, its duration, and its interpolator. */
  datatype Segment = Segment(easing: Easing, startOffset: real, endOffset: real, durationMs: int)

  /**
   * The bounce segment's duration: the start offset relative to the view extent, times
   * 1000 ms, truncated to int, and at least 500 ms. There is no upper clamp below
   * Integer.MAX_VALUE, where the int cast saturates. A zero
   * extent gives NaN (start 0) or infinity (otherwise) before the cast.
   */
  function BounceBackDuration(startOffset: real, maxOffset: nat): (d: int)
    ensures MinBounceBackDurationMs <= d <= IntMax
    ensures maxOffset == 0 ==> d == if startOffset == 0.0 then MinBounceBackDurationMs else IntMax
    ensures maxOffset > 0 && Abs(startOffset) / maxOffset as real * 1000.0 < IntMax as real ==>
              d == Max((Abs(startOffset) / maxOffset as real * 1000.0).Floor, MinBounceBackDurationMs)
    ensures maxOffset > 0 && Abs(startOffset) / maxOffset as real * 1000.0 >= IntMax as real ==> d == IntMax
  {
    var proportional := Times(Divide(Abs(startOffset), maxOffset as real), MaxBounceBackDurationMs as real);
    Max(IntCast(proportional), MinBounceBackDurationMs)
  }

  /** createBounceBackAnimator(startOffset, 0). */
  function BounceBackSegment(startOffset: real, maxOffset: nat): Segment
  {
    Segment(Bounce, startOffset, 0.0, BounceBackDuration(startOffset, maxOffset))
  }

  /**
   * The slow-down is skipped when there is no velocity, or when the drag was already
   * heading back towards the rest position (negative velocity on a forward over-scroll,
   * positive velocity on a backward one).
   */
  predicate SkipsSlowdown(velocity: real, startDir: bool)
  {
    velocity == 0.0 || (velocity < 0.0 && startDir) || (velocity > 0.0 && !startDir)
  }

  /** Every segment starts where the previous one ended. */
  predicate Chained(plan: seq<Segment>)
  {
    forall i :: 0 <= i < |plan| - 1 ==> plan[i].endOffset == plan[i + 1].startOffset
  }

  /**
   * The distance -v^2/(2a) that a constant deceleration `a` takes to bring a velocity `v`
   * to rest.
   */
  function SlowdownDistance(velocity: real, decelerateFactor: real): (distance: real)
    requires decelerateFactor != 0.0
    ensures 2.0 * decelerateFactor * distance == -velocity * velocity
  {
    -velocity * velocity / (2.0 * decelerateFactor)
  }

  /**
   * createAnimator: a single bounce from the current offset to 0 when the slow-down is
   * skipped; otherwise a slow-down under constant deceleration `a` (duration -v/a ms, at
   * least 0, truncated; distance -v^2/(2a)) followed by a bounce from where it ends to 0.
   */
  function CreatePlan(velocity: real, startDir: bool, bounds: AnimationBounds, decelerateFactor: real): (plan: seq<Segment>)
    requires decelerateFactor != 0.0
    ensures |plan| == if SkipsSlowdown(velocity, startDir) then 1 else 2
    ensures plan[0].startOffset == bounds.absOffset
    ensures Chained(plan)
    ensures var last := plan[|plan| - 1];
      last.easing == Bounce && last.endOffset == 0.0 &&
      last.durationMs == BounceBackDuration(last.startOffset, bounds.maxOffset) &&
      last.durationMs >= MinBounceBackDurationMs
    ensures |plan| == 2 ==>
      plan[0].easing == Decelerate &&
      2.0 * decelerateFactor * (plan[0].endOffset - plan[0].startOffset) == -velocity * velocity &&
      plan[0].durationMs >= 0
    ensures |plan| == 2 && -velocity / decelerateFactor <= 0.0 ==> plan[0].durationMs == 0
    ensures |plan| == 2 && 0.0 < -velocity / decelerateFactor < IntMax as real ==>
      plan[0].durationMs as real <= -velocity / decelerateFactor < plan[0].durationMs as real + 1.0
    ensures |plan| == 2 && -velocity / decelerateFactor >= IntMax as real ==> plan[0].durationMs == IntMax
  {
    if SkipsSlowdown(velocity, startDir) then
      [BounceBackSegment(bounds.absOffset, bounds.maxOffset)]
    else
      var slowdownDuration := MaxReal(0.0, -velocity / decelerateFactor);
      var slowdownEndOffset := bounds.absOffset + SlowdownDistance(velocity, decelerateFactor);
      [Segment(Decelerate, bounds.absOffset, slowdownEndOffset, IntCast(Finite(slowdownDuration))),
       BounceBackSegment(slowdownEndOffset, bounds.maxOffset)]
  }

  /**
   * Forward over-scroll released while still moving forward, under a genuine deceleration
   * (a < 0): the slow-down continues the drag and lasts as long as it takes `a` to bring
   * the velocity to rest, truncated to whole milliseconds.
   */
  lemma ForwardSlowdownContinuesDrag(velocity: real, bounds: AnimationBounds, decelerateFactor: real)
    requires decelerateFactor < 0.0 && velocity > 0.0
    requires -velocity / decelerateFactor < IntMax as real
    ensures var plan := CreatePlan(velocity, true, bounds, decelerateFactor);
      |plan| == 2 && plan[0].endOffset > plan[0].startOffset &&
      plan[0].durationMs as real <= -velocity / decelerateFactor < plan[0].durationMs as real + 1.0
  {
    var plan := CreatePlan(velocity, true, bounds, decelerateFactor);
    SlowdownDistanceIsPositive(velocity, decelerateFactor);
    assert -velocity / decelerateFactor > 0.0;
  }

  /**
   * Backward over-scroll released while still moving backward, under a genuine
   * deceleration: -v/a is negative, so the slow-down lasts 0 ms, and -v^2/(2a) is
   * positive, so it jumps towards the rest position instead of continuing the drag.
   */
  lemma BackwardSlowdownIsInstantReversal(velocity: real, bounds: AnimationBounds, decelerateFactor: real)
    requires decelerateFactor < 0.0 && velocity < 0.0
    ensures var plan := CreatePlan(velocity, false, bounds, decelerateFactor);
      |plan| == 2 && plan[0].durationMs == 0 && plan[0].endOffset > plan[0].startOffset
  {
    var plan := CreatePlan(velocity, false, bounds, decelerateFactor);
    SlowdownDistanceIsPositive(velocity, decelerateFactor);
    assert -velocity / decelerateFactor < 0.0;
  }

  /** Under a genuine deceleration (a < 0) any non-zero velocity gives a positive distance -v^2/(2a). */
  lemma SlowdownDistanceIsPositive(velocity: real, decelerateFactor: real)
    requires decelerateFactor < 0.0 && velocity != 0.0
    ensures SlowdownDistance(velocity, decelerateFactor) > 0.0
  {
    var speed := Abs(velocity);
    assert velocity * velocity == speed * speed;
    var time := -speed / decelerateFactor;
    assert time > 0.0;
    assert speed * time > 0.0;
    assert -velocity * velocity / (2.0 * decelerateFactor) == speed * time / 2.0;
  }

  /** Within the view's extent the bounce never takes longer than MaxBounceBackDurationMs. */
  lemma BounceBackWithinExtent(startOffset: real, maxOffset: nat)
    requires maxOffset > 0 && Abs(startOffset) <= maxOffset as real
    ensures MinBounceBackDurationMs <= BounceBackDuration(startOffset, maxOffset) <= MaxBounceBackDurationMs
  {
    var ratio := Abs(startOffset) / maxOffset as real;
    assert ratio <= 1.0;
    assert ratio * 1000.0 <= 1000.0;
  }

  /** Further out, nothing caps the duration: twice the extent takes two seconds. */
  lemma BounceBackUnclamped(maxOffset: nat)
    requires maxOffset > 0
    ensures BounceBackDuration(2.0 * maxOffset as real, maxOffset) == 2 * MaxBounceBackDurationMs
  {
    var ratio := Abs(2.0 * maxOffset as real) / maxOffset as real;
    assert ratio == 2.0;
  }

  /** A farther start never bounces back faster. */
  lemma BounceBackDurationMonotonic(s1: real, s2: real, maxOffset: nat)
    requires Abs(s1) <= Abs(s2)
    ensures BounceBackDuration(s1, maxOffset) <= BounceBackDuration(s2, maxOffset)
  {
    if maxOffset > 0 {
      var m := maxOffset as real;
      var t1 := Abs(s1) / m * 1000.0;
      var t2 := Abs(s2) / m * 1000.0;
      DivideMonotonic(Abs(s1), Abs(s2), m);
      assert t1 <= t2;
      if t2 < IntMax as real {
        assert t1.Floor <= t2.Floor;
      }
    }
  }

  lemma DivideMonotonic(a: real, b: real, m: real)
    requires 0.0 <= a <= b && m > 0.0
    ensures a / m <= b / m
  {
    assert b / m - a / m == (b - a) / m;
  }

  /** A release with no velocity is a single bounce from the current offset to 0. */
  lemma ZeroVelocityIsSingleBounce(startDir: bool, bounds: AnimationBounds, decelerateFactor: real)
    requires decelerateFactor != 0.0
    ensures CreatePlan(0.0, startDir, bounds, decelerateFactor) ==
      [Segment(Bounce, bounds.absOffset, 0.0, BounceBackDuration(bounds.absOffset, bounds.maxOffset))]
  {
  }

  /**
   * A forward release at velocity 5 with the default deceleration -2: the slow-down
   * covers 6.25 and lasts 2 ms (2.5 truncated); a bounce from 50 over an extent of 200
   * takes the 500 ms minimum.
   */
  lemma DefaultDecelerationExample(bounds: AnimationBounds)
    ensures var plan := CreatePlan(5.0, true, bounds, -2.0);
      |plan| == 2 && plan[0].endOffset == bounds.absOffset + 6.25 && plan[0].durationMs == 2
    ensures BounceBackDuration(50.0, 200) == 500
  {
    assert (2.5).Floor == 2;
  }
}
