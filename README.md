# Elasticity: a verified model of the over-scroll bounce decorator

The elasticity library decorates an Android scrolling view (a list, a grid, a scroll
view) with an iOS-like over-scroll effect. When the user drags the view beyond its
start or its end, the view stretches. The stretch is a scale along the scroll axis,
anchored at the edge being pulled. When the user lets go, the view bounces back to rest.

The model covers the decorator's core:

- **The touch state machine** of `ElasticityBounceEffectBase`. It has three internal
  states:
  - idle;
  - over-scrolling, which reports itself as "drag start side" or "drag end side";
  - bounce-back.

  The states share the drag velocity, the start attributes (pointer id, start offset,
  start direction) and the view offset kept in the view's tag. Every transition calls
  the state listener once. Every offset change calls the update listener.
- **The bounce-back plan** built when a drag is released. It is an optional slow-down
  under constant deceleration, followed by a bounce back to offset 0 whose duration is
  proportional to the offset.
- **The horizontal and vertical variants.** Each one samples a touch event (with
  rejection rules), reads the animation attributes, applies an offset to the view as a
  pivot and a capped scale, and moves the touch event.
- **The list-view edge probe** (`AbsListViewElasticityAdapter`). It decides from the
  list's integer layout whether the list is at its absolute start or end.

## Files

- `java_float.dfy` (`JavaFloat`): the float facts the formulas need. A view extent of 0
  makes a division give positive infinity or NaN. Java's `(int)` cast saturates and
  turns NaN into 0.
- `effect_types.dfy` (`EffectTypes`): the touch event, the motion sample, the view
  state, the view-tag offset, and the scale formula both orientations share.
- `horizontal_effect.dfy` and `vertical_effect.dfy`: the two orientation variants, as
  functions.
- `bounce_plan.dfy` (`BouncePlan`): `createAnimator` and `createBounceBackAnimator`,
  as a list of segments.
- `state_machine.dfy` (`StateMachine`): the reference machine, as pure functions.
- `gesture_properties.dfy` (`GestureProperties`): lemmas about the machine. They cover
  each state, the listener-call chain over arbitrary input runs, and one complete
  gesture.
- `decorator.dfy` (`Decorator`): the library's objects as classes whose handlers update
  fields step by step. Each handler is proved equal to its `StateMachine` function,
  including the listener calls, which are kept as a ghost trace.
- `list_edge_probe.dfy` (`ListEdgeProbe`): the list adapter.

Several details of the code are easy to misread. Each is proved as a lemma:

- The bounce-back duration is proportional to the offset, with no upper bound below
  Integer.MAX_VALUE. At `ElasticityBounceEffectBase.java:410-412`,
  `MAX_BOUNCE_BACK_DURATION_MS` only scales the ratio offset/extent.
  `MIN_BOUNCE_BACK_DURATION_MS` bounds the result from below. The only bound from above
  is the `(int)` cast at line 412, which saturates at Integer.MAX_VALUE. An offset of
  twice the extent takes 2000 ms (`BouncePlan.BounceBackUnclamped`).
- The slow-down duration is passed on as `(int) slowdownDuration` (line 389), which
  truncates. So -v/a = 2.5 gives 2 ms (`BouncePlan.DefaultDecelerationExample`).
- Vertical sampling has no zero check on dy. The horizontal variant has `dx == 0` at
  `HorizontalElasticityBounceEffect.java:33`, but `VerticalElasticityBounceEffect.java:27-38`
  has nothing like it. So an event with history and no motion is accepted as a backward
  sample (`VerticalEffect.MotionlessEventIsBackwardSample`).
- The vertical stretch divides the offset by `view.getWidth()`
  (`VerticalElasticityBounceEffect.java:109`). So the vertical scale does not depend on
  the height (`VerticalEffect.StretchIgnoresHeight`).
- The vertical event adjustment is `offsetLocation(offset - event.getY(0), 0f)`
  (`VerticalElasticityBounceEffect.java:121`). It shifts X by (offset − y) and leaves Y
  alone (`VerticalEffect.AdjustEvent`).
- `mVelocity` is only ever assigned when time elapsed between two samples
  (`ElasticityBounceEffectBase.java:275-278`). It is never reset between gestures
  (`GestureProperties.StaleVelocityCarriesOver`).
- Every view update in the drag and bounce-back handlers passes the START direction to
  `translateView`, not the direction of the current move (lines 264, 280, 352). So the
  pivot stays on the edge where the over-scroll began
  (`GestureProperties.DragFollowsFinger`, `StateMachine.OnAnimationUpdate`).

One consequence of the code as written is modelled, not corrected. A backward
over-scroll released while still moving backward has its slow-down clamped to 0 ms. Its
slow-down distance −v²/(2a) is still positive, so the plan first jumps toward positive
offsets (`BouncePlan.BackwardSlowdownIsInstantReversal`).

## Model

Paths are relative to the repository root.

| member | source | states |
|---|---|---|
| `JavaFloat.IntCast` | elasticity-lib/src/main/java/xander/elasticity/ElasticityBounceEffectBase.java:410-412 | Java's `(int)` of a non-negative float: result in [0, Integer.MAX_VALUE], the floor below MAX_VALUE, MAX_VALUE from MAX_VALUE on and for infinity, 0 for NaN |
| `EffectTypes.OffsetLocation` | elasticity-lib/src/main/java/xander/elasticity/HorizontalElasticityBounceEffect.java:126 | `offsetLocation` moves the pointer by the given amounts and keeps the motion it describes (dx, dy), the action, pointer id, history size and times |
| `EffectTypes.StoredOffset` | elasticity-lib/src/main/java/xander/elasticity/ElasticityBounceEffectBase.java:495-500 | `getViewOffset` is the tag's value, or 0 while the tag is unset |
| `EffectTypes.StoreOffset` | elasticity-lib/src/main/java/xander/elasticity/ElasticityBounceEffectBase.java:502-504 | after `setViewOffset`, `getViewOffset` returns the offset, and nothing else of the view changes |
| `EffectTypes.ScaleFactor` | elasticity-lib/src/main/java/xander/elasticity/HorizontalElasticityBounceEffect.java:115 | min(maxScale, 1 + abs(offset)/width) never exceeds maxScale and is never infinite. It is NaN exactly for width 0 and offset 0, maxScale for width 0 and any other offset, and at least 1 for a positive width when maxScale ≥ 1. Below the cap it is exactly 1 + abs(offset)/width, and above the cap it is exactly maxScale |
| `HorizontalEffect.Sample` | elasticity-lib/src/main/java/xander/elasticity/HorizontalElasticityBounceEffect.java:18-44 | accepted iff the event has history, abs(dx) ≥ abs(dy) (ties accepted) and dx ≠ 0. Then offset = stored view offset, delta = dx and forward iff dx > 0 |
| `HorizontalEffect.Bounds` | elasticity-lib/src/main/java/xander/elasticity/HorizontalElasticityBounceEffect.java:55-59 | the animation starts at the stored offset and is measured against the view's width |
| `HorizontalEffect.TranslateView` | elasticity-lib/src/main/java/xander/elasticity/HorizontalElasticityBounceEffect.java:104-118 | stores the offset, sets pivotY 0, pivotX 0 iff forward (else the measured width), and scaleX the capped scale (never above maxScale). Nothing else changes |
| `HorizontalEffect.AdjustEvent` | elasticity-lib/src/main/java/xander/elasticity/HorizontalElasticityBounceEffect.java:121-127 | the event's x becomes exactly the offset. y and the described motion are unchanged |
| `VerticalEffect.Sample` | elasticity-lib/src/main/java/xander/elasticity/VerticalElasticityBounceEffect.java:18-39 | accepted iff the event has history and abs(dx) ≤ abs(dy), with no zero check. Then offset = stored view offset, delta = dy and forward iff dy > 0 |
| `VerticalEffect.Bounds` | elasticity-lib/src/main/java/xander/elasticity/VerticalElasticityBounceEffect.java:49-53 | the animation starts at the stored offset and is measured against the view's height |
| `VerticalEffect.TranslateView` | elasticity-lib/src/main/java/xander/elasticity/VerticalElasticityBounceEffect.java:97-113 | stores the offset, sets pivotX 0, pivotY 0 iff forward (else the measured height), and scaleY the capped scale computed with the WIDTH. Nothing else changes |
| `VerticalEffect.AdjustEvent` | elasticity-lib/src/main/java/xander/elasticity/VerticalElasticityBounceEffect.java:115-122 | the event's x moves by (offset − y). y and the described motion are unchanged |
| `VerticalEffect.MotionlessEventIsBackwardSample` | elasticity-lib/src/main/java/xander/elasticity/VerticalElasticityBounceEffect.java:27-38 | an event with history and no motion is accepted as a backward sample with delta 0 |
| `VerticalEffect.StretchIgnoresHeight` | elasticity-lib/src/main/java/xander/elasticity/VerticalElasticityBounceEffect.java:109 | the vertical scale does not depend on the view's height |
| `BouncePlan.BounceBackDuration` | elasticity-lib/src/main/java/xander/elasticity/ElasticityBounceEffectBase.java:408-412 | max((int)(abs(start)/extent × 1000), 500). It is always ≥ 500 and equal to that formula below Integer.MAX_VALUE, and exactly MAX_VALUE from there on (the cast saturates). An extent of 0 gives 500 (start 0) or MAX_VALUE |
| `BouncePlan.SlowdownDistance` | elasticity-lib/src/main/java/xander/elasticity/ElasticityBounceEffectBase.java:385-387 | the kinematic identity 2a·d = −v² for the slow-down distance d |
| `BouncePlan.CreatePlan` | elasticity-lib/src/main/java/xander/elasticity/ElasticityBounceEffectBase.java:369-398 | one segment iff v = 0, or v < 0 with a forward start, or v > 0 with a backward one. Otherwise there are two, the first a decelerating slow-down with 2a·(end − start) = −v². Its duration is `(int) max(0, −v/a)`: 0 when −v/a ≤ 0 (which covers every positive a), floor(−v/a) below Integer.MAX_VALUE, and MAX_VALUE from there on. The plan starts at the current offset and the segments are chained. The last segment is a bounce to 0 whose duration is `BounceBackDuration` of its start, ≥ 500 |
| `BouncePlan.ForwardSlowdownContinuesDrag` | elasticity-lib/src/main/java/xander/elasticity/ElasticityBounceEffectBase.java:380-389 | for a < 0, v > 0 and a forward start, the slow-down moves further out and lasts floor(−v/a) ms |
| `BouncePlan.BackwardSlowdownIsInstantReversal` | elasticity-lib/src/main/java/xander/elasticity/ElasticityBounceEffectBase.java:380-389 | for a < 0, v < 0 and a backward start, the slow-down lasts 0 ms and still moves toward positive offsets |
| `BouncePlan.SlowdownDistanceIsPositive` | elasticity-lib/src/main/java/xander/elasticity/ElasticityBounceEffectBase.java:385-386 | for a < 0 and v ≠ 0, −v²/(2a) > 0 |
| `BouncePlan.BounceBackWithinExtent` | elasticity-lib/src/main/java/xander/elasticity/ElasticityBounceEffectBase.java:408-412 | a start within the extent bounces back in 500 to 1000 ms |
| `BouncePlan.BounceBackUnclamped` | elasticity-lib/src/main/java/xander/elasticity/ElasticityBounceEffectBase.java:410-412 | a start at twice the extent takes 2000 ms: there is no upper clamp |
| `BouncePlan.BounceBackDurationMonotonic` | elasticity-lib/src/main/java/xander/elasticity/ElasticityBounceEffectBase.java:410-412 | a farther start never bounces back faster |
| `BouncePlan.ZeroVelocityIsSingleBounce` | elasticity-lib/src/main/java/xander/elasticity/ElasticityBounceEffectBase.java:377-379 | with no velocity the plan is exactly one bounce from the current offset to 0 |
| `BouncePlan.DefaultDecelerationExample` | elasticity-lib/src/main/java/xander/elasticity/ElasticityBounceEffectBase.java:380-389 | v = 5 and a = −2: a slow-down of 6.25 lasting 2 ms. A bounce from 50 over 200 takes 500 ms |
| `StateMachine.DefaultConfig` | elasticity-lib/src/main/java/xander/elasticity/ElasticityBounceEffectBase.java:61-65 | the default ratios 3 and 1, deceleration −2 and scale 1.2 are admissible constructor arguments |
| `StateMachine.Initial` | elasticity-lib/src/main/java/xander/elasticity/ElasticityBounceEffectBase.java:419-431 | a new effect is idle with zero velocity and no animation, and reports the idle id |
| `StateMachine.DragStateFor` | elasticity-lib/src/main/java/xander/elasticity/ElasticityBounceEffectBase.java:293-296 | the drag id is "start side" iff the start direction is forward, "end side" iff backward |
| `StateMachine.IssueStateTransition` | elasticity-lib/src/main/java/xander/elasticity/ElasticityBounceEffectBase.java:467-471 | the target becomes current and exactly one state call (old id, new id) is made. Entering the drag sets its id first. Entering the bounce-back builds the plan from velocity, start direction and view. Velocity, start attributes and view are untouched |
| `StateMachine.DragMove` | elasticity-lib/src/main/java/xander/elasticity/ElasticityBounceEffectBase.java:241-284 | every move is consumed and the start attributes are kept. Another pointer leads to the bounce-back with the view unchanged. Staying in the drag makes at most one update call, carrying the view's new offset. Leaving it ends with a state call from the drag id to the new id |
| `StateMachine.IdleMove` | elasticity-lib/src/main/java/xander/elasticity/ElasticityBounceEffectBase.java:174-195 | an event the idle state does not consume changes nothing and makes no call |
| `StateMachine.UpOrCancel` | elasticity-lib/src/main/java/xander/elasticity/ElasticityBounceEffectBase.java:197-343 | up/cancel is consumed iff not idle. Dragging leads to the bounce-back, and idle and bounce-back stay where they are |
| `StateMachine.OnTouch` | elasticity-lib/src/main/java/xander/elasticity/ElasticityBounceEffectBase.java:434-445 | other actions are not consumed and change nothing. In the bounce-back every touch changes nothing and move/up/cancel are consumed. Only moves change the view |
| `StateMachine.OnAnimationUpdate` | elasticity-lib/src/main/java/xander/elasticity/ElasticityBounceEffectBase.java:351-354 | a tick puts the view at the animated value and reports (bounce-back, value). The view is exactly the orientation's `TranslateView` at that value with the START direction, so the pivot and capped scale are set too. Nothing else changes |
| `StateMachine.OnAnimationEnd` | elasticity-lib/src/main/java/xander/elasticity/ElasticityBounceEffectBase.java:346-348 | animation end and cancel only make the decorator idle, reporting (current id, idle) |
| `GestureProperties.IdleIgnoresEvent` | elasticity-lib/src/main/java/xander/elasticity/ElasticityBounceEffectBase.java:174-200 | in idle, a non-move, a rejected sample, or a sample meeting no start condition is not consumed and changes nothing |
| `GestureProperties.IdleEntersOverScroll` | elasticity-lib/src/main/java/xander/elasticity/ElasticityBounceEffectBase.java:182-191 | idle leaves iff the sample is accepted and (atStart ∧ forward) ∨ (atEnd ∧ backward). It then captures pointer, offset and direction and takes the drag id of that direction. The replay is consumed without meeting the guard: offset + delta/fwdRatio, with the calls (idle → drag id) then (drag id, new offset) |
| `GestureProperties.DragFollowsFinger` | elasticity-lib/src/main/java/xander/elasticity/ElasticityBounceEffectBase.java:256-283 | an accepted drag by the same pointer outside the guard moves the offset by delta/(dir = startDir ? fwd : bck) and reports (drag id, new offset). The view is exactly `TranslateView` at the new offset with the START direction (pivot and capped scale). The velocity becomes delta'/dt iff dt > 0 |
| `GestureProperties.UnderScrollReturnsToIdle` | elasticity-lib/src/main/java/xander/elasticity/ElasticityBounceEffectBase.java:262-268 | dragging back past the start offset puts view and event at the start offset (not 0). The view is `TranslateView` there with the START direction. It reports 0, then returns to idle, consuming the event |
| `GestureProperties.ForwardDragNeverUnderScrolls` | elasticity-lib/src/main/java/xander/elasticity/ElasticityBounceEffectBase.java:262-263 | a move in the start direction never meets the under-scroll guard |
| `GestureProperties.DragInStartDirectionStretches` | elasticity-lib/src/main/java/xander/elasticity/ElasticityBounceEffectBase.java:256-257 | with a positive forward ratio, a move in the start direction stays in the drag. It strictly increases the offset for a forward over-scroll and never increases it for a backward one, whatever the sign of the offset it starts from |
| `GestureProperties.PointerSwitchBouncesBack` | elasticity-lib/src/main/java/xander/elasticity/ElasticityBounceEffectBase.java:245-248 | another pointer goes straight to the bounce-back, without idle in between, leaving the view unchanged |
| `GestureProperties.ReleaseBouncesBack` | elasticity-lib/src/main/java/xander/elasticity/ElasticityBounceEffectBase.java:286-290 | up/cancel while dragging starts a bounce-back from the current offset |
| `GestureProperties.DragSwallowsRejectedSample` | elasticity-lib/src/main/java/xander/elasticity/ElasticityBounceEffectBase.java:250-254 | a rejected sample while dragging is consumed and changes nothing |
| `GestureProperties.StaleVelocityCarriesOver` | elasticity-lib/src/main/java/xander/elasticity/ElasticityBounceEffectBase.java:275-278 | a gesture whose drag step has dt = 0 plans its slow-down with an earlier gesture's velocity |
| `GestureProperties.BounceBackSwallowsTouches` | elasticity-lib/src/main/java/xander/elasticity/ElasticityBounceEffectBase.java:333-343 | during the bounce-back every move/up/cancel is consumed and nothing changes |
| `GestureProperties.LastTickRestsTheView` | elasticity-lib/src/main/java/xander/elasticity/ElasticityBounceEffectBase.java:351-354 | the final tick of any bounce-back plan puts the view at offset 0. For a positive width and a cap ≥ 1, the stretched axis' scale is back to 1 |
| `GestureProperties.DetachWarnsUnlessIdle` | elasticity-lib/src/main/java/xander/elasticity/ElasticityBounceEffectBase.java:479-482 | detach warns exactly when `getCurrentState()` is not the idle id |
| `GestureProperties.TransitionNotesTrackState` | elasticity-lib/src/main/java/xander/elasticity/ElasticityBounceEffectBase.java:467-471 | a transition's state call goes from the id reported before to the one reported after, and the machine stays consistent |
| `GestureProperties.DragNotesTrackState` | elasticity-lib/src/main/java/xander/elasticity/ElasticityBounceEffectBase.java:241-284 | the drag handler's calls chain from the id before to the id after |
| `GestureProperties.TouchNotesTrackState` | elasticity-lib/src/main/java/xander/elasticity/ElasticityBounceEffectBase.java:434-445 | every touch's calls chain from the id before to the id after, and the machine stays consistent |
| `GestureProperties.Apply` | elasticity-lib/src/main/java/xander/elasticity/ElasticityBounceEffectBase.java:346-363 | animation callbacks arrive only while bouncing back |
| `GestureProperties.ApplyNotesTrackState` | elasticity-lib/src/main/java/xander/elasticity/ElasticityBounceEffectBase.java:346-363 | any single touch or animation callback keeps the call chain and the consistency |
| `GestureProperties.RunNotesTrackState` | elasticity-lib/src/main/java/xander/elasticity/ElasticityBounceEffectBase.java:160-417 | over any input run, the listener calls form a chain. Each state call leaves the id the previous one arrived in, each update names the current id, and the chain ends at the id `getCurrentState()` reports |
| `GestureProperties.InitialIsConsistent` | elasticity-lib/src/main/java/xander/elasticity/ElasticityBounceEffectBase.java:419-431 | a new effect satisfies the machine invariant |
| `GestureProperties.IdleIgnoresEventsWithoutHistory` | elasticity-lib/src/main/java/xander/elasticity/HorizontalElasticityBounceEffect.java:22-24 | any run of touch events without history leaves an idle decorator exactly as it was, with no calls |
| `GestureProperties.ExampleFirstMove` | elasticity-lib/src/main/java/xander/elasticity/ElasticityBounceEffectBase.java:182-191 | a 30-pixel forward move at the start edge enters the drag at offset 10 with velocity 10/16 |
| `GestureProperties.ExampleSecondMove` | elasticity-lib/src/main/java/xander/elasticity/ElasticityBounceEffectBase.java:256-283 | the next 30-pixel move reaches offset 20, where scaleX is capped at 1.2 |
| `GestureProperties.ExampleRelease` | elasticity-lib/src/main/java/xander/elasticity/ElasticityBounceEffectBase.java:369-398 | the release plans a 0 ms slow-down of 0.09765625 and a 500 ms bounce |
| `GestureProperties.HorizontalGestureExample` | elasticity-lib/src/main/java/xander/elasticity/ElasticityBounceEffectBase.java:434-445 | the complete gesture gives the six listener calls in order and ends idle at offset 0, scale 1, with the velocity kept |
| `Decorator.GetViewOffset` | elasticity-lib/src/main/java/xander/elasticity/ElasticityBounceEffectBase.java:495-500 | returns the tag's value, or 0 while it is unset |
| `Decorator.SetViewOffset` | elasticity-lib/src/main/java/xander/elasticity/ElasticityBounceEffectBase.java:502-504 | the view's tag holds the offset and nothing else changes |
| `Decorator.MotionAttributes.Init` | elasticity-lib/src/main/java/xander/elasticity/HorizontalElasticityBounceEffect.java:18-44 | returns true exactly when the orientation's sampling accepts the event, then holds the sample. A rejection leaves the fields as they were |
| `Decorator.AnimationAttributes.Init` | elasticity-lib/src/main/java/xander/elasticity/VerticalElasticityBounceEffect.java:49-53 | holds the stored offset and the width (horizontal) or height (vertical) |
| `Decorator.ElasticityBounceEffect.constructor` | elasticity-lib/src/main/java/xander/elasticity/ElasticityBounceEffectBase.java:419-431 | the effect starts as `StateMachine.Initial`, attached, with no calls made |
| `Decorator.ElasticityBounceEffect.TranslateView` | elasticity-lib/src/main/java/xander/elasticity/VerticalElasticityBounceEffect.java:97-113 | the view ends as the orientation's `TranslateView` says |
| `Decorator.ElasticityBounceEffect.TranslateViewAndEvent` | elasticity-lib/src/main/java/xander/elasticity/VerticalElasticityBounceEffect.java:115-122 | the view as `TranslateView`, and the returned event as the orientation's `AdjustEvent` |
| `Decorator.ElasticityBounceEffect.CreateBounceBackAnimator` | elasticity-lib/src/main/java/xander/elasticity/ElasticityBounceEffectBase.java:408-416 | the bounce segment ends at 0 and lasts `BounceBackDuration` of its start over the animation extent, ≥ 500 ms |
| `Decorator.ElasticityBounceEffect.CreateAnimator` | elasticity-lib/src/main/java/xander/elasticity/ElasticityBounceEffectBase.java:369-398 | the plan built step by step is `CreatePlan` of the velocity, start direction and the view's animation attributes |
| `Decorator.ElasticityBounceEffect.IssueStateTransition` | elasticity-lib/src/main/java/xander/elasticity/ElasticityBounceEffectBase.java:467-471 | the fields and the call record change as `StateMachine.IssueStateTransition` says |
| `Decorator.ElasticityBounceEffect.DragHandleMove` | elasticity-lib/src/main/java/xander/elasticity/ElasticityBounceEffectBase.java:241-284 | fields, return value, event and calls as `StateMachine.DragMove` |
| `Decorator.ElasticityBounceEffect.IdleHandleMove` | elasticity-lib/src/main/java/xander/elasticity/ElasticityBounceEffectBase.java:174-195 | fields, return value, event and calls as `StateMachine.IdleMove`, including the replay into the drag handler |
| `Decorator.ElasticityBounceEffect.OnTouch` | elasticity-lib/src/main/java/xander/elasticity/ElasticityBounceEffectBase.java:434-445 | fields, return value, event and calls as `StateMachine.OnTouch` |
| `Decorator.ElasticityBounceEffect.HandleUpOrCancel` | elasticity-lib/src/main/java/xander/elasticity/ElasticityBounceEffectBase.java:197-343 | fields, return value and calls as `StateMachine.UpOrCancel` for each of the three states |
| `Decorator.ElasticityBounceEffect.OnAnimationUpdate` | elasticity-lib/src/main/java/xander/elasticity/ElasticityBounceEffectBase.java:351-354 | fields and calls as `StateMachine.OnAnimationUpdate` |
| `Decorator.ElasticityBounceEffect.OnAnimationEnd` | elasticity-lib/src/main/java/xander/elasticity/ElasticityBounceEffectBase.java:346-348 | fields and calls as `StateMachine.OnAnimationEnd` |
| `Decorator.ElasticityBounceEffect.OnAnimationCancel` | elasticity-lib/src/main/java/xander/elasticity/ElasticityBounceEffectBase.java:361-363 | the same as the end: back to idle |
| `Decorator.ElasticityBounceEffect.GetCurrentState` | elasticity-lib/src/main/java/xander/elasticity/ElasticityBounceEffectBase.java:457-460 | the current state's id: idle, the drag id, or bounce-back |
| `Decorator.ElasticityBounceEffect.Detach` | elasticity-lib/src/main/java/xander/elasticity/ElasticityBounceEffectBase.java:479-485 | warns iff not idle, detaches, and leaves the machine and the calls untouched |
| `ListEdgeProbe.CanScrollListUp` | elasticity-lib/src/main/java/xander/elasticity/adapters/AbsListViewElasticityAdapter.java:41-46 | requires at least one child, because it reads child 0 and is only called behind the `childCount > 0 &&` of line 33. It holds iff firstPosition > 0 ∨ firstTop < paddingTop |
| `ListEdgeProbe.CanScrollListDown` | elasticity-lib/src/main/java/xander/elasticity/adapters/AbsListViewElasticityAdapter.java:48-56 | requires at least one child, because it reads child childCount − 1 and is only called behind the `childCount > 0 &&` of line 38. It holds iff firstPosition + childCount < itemsCount ∨ lastBottom > height − paddingBottom |
| `ListEdgeProbe.IsInAbsoluteStart` | elasticity-lib/src/main/java/xander/elasticity/adapters/AbsListViewElasticityAdapter.java:31-46 | at start ⇔ children > 0 ∧ firstPosition ≤ 0 ∧ firstTop ≥ paddingTop. With children it is exactly ¬canScrollListUp, and the child is only read when there is one |
| `ListEdgeProbe.IsInAbsoluteEnd` | elasticity-lib/src/main/java/xander/elasticity/adapters/AbsListViewElasticityAdapter.java:36-56 | at end ⇔ children > 0 ∧ firstPosition + childCount ≥ itemsCount ∧ lastBottom ≤ height − paddingBottom. With children it is exactly ¬canScrollListDown |
| `ListEdgeProbe.EmptyListIsAtNeitherEdge` | elasticity-lib/src/main/java/xander/elasticity/adapters/AbsListViewElasticityAdapter.java:32-39 | with no children the list is neither at start nor at end |
| `ListEdgeProbe.FullyVisibleListIsAtBothEdges` | elasticity-lib/src/main/java/xander/elasticity/adapters/AbsListViewElasticityAdapter.java:41-56 | a list showing all its items within its padding is at both edges |
| `ListEdgeProbe.ScrolledListIsNotAtStart` | elasticity-lib/src/main/java/xander/elasticity/adapters/AbsListViewElasticityAdapter.java:41-46 | a list whose first visible position is past 0 is not at its start |

## Left out

- **Android's animation machinery** (`ValueAnimator`, `AnimatorSet`, the bounce and
  decelerate interpolators) is foreign code. The plan is data, and tick values are
  inputs.
  - The framework's delivery order is not modelled: an update possibly delivered
    synchronously by `start()`, and a cancel followed by an end. The callbacks are
    separate inputs, and `GestureProperties.Apply` delivers them only during the
    bounce-back.
  - A tick while idle (`StateMachine.OnAnimationUpdate` has no such guard) is not ruled
    out by the class layer.
- **IEEE float rounding.** Values are exact reals. Only the `(int)` casts are modelled,
  together with infinity and NaN from a zero view extent.
- **Zero drag ratios or a zero deceleration.** These would make a Java float
  division produce infinities in the drag offsets and the slow-down. The constructor
  requires them to be non-zero instead.
- **32-bit overflow of Java `int` and `long`** in the list geometry (firstPosition +
  childCount) and in the event-time difference. Both are unbounded integers here.
- **View side effects:**
  - `Log` calls;
  - `requestDisallowInterceptTouchEvent`;
  - `setOnTouchListener` and `setOverScrollMode` in attach/detach, which are
    represented only by an `attached` flag;
  - `postInvalidate`.

  Pivot and scale are computed and stored as view state, and drawing is not modelled.
- **The event adjustment.** It is modelled as a returned event, not as mutation of the
  caller's object. Android's `offsetLocation` shifts the historical samples together
  with the current one.
- **The adapter queries.** `isInAbsoluteStart`/`isInAbsoluteEnd` are inputs of each
  touch (`atStart`, `atEnd`) rather than calls into an adapter object.
  - `ListEdgeProbe` models the list-view adapter.
  - The scroll-view adapters only call the framework's `canScrollVertically`/
    `canScrollHorizontally`, so they are not modelled.
  - The static adapter always answers true, which is the case `atStart = atEnd = true`.
- **Outside the core.** `ElasticityHelper` (widget wiring), the listener interfaces and
  their no-op stubs, the listener setters, and the demo application are not part of
  this model. Listener calls are the ghost `notifications` record.
- **State ids.** The numeric values of `IElasticityState` are not part of this model.
  The ids are a datatype. The over-scrolling state's id before its first entry is never
  observable and is set to idle.
- `GestureProperties.Apply`: drops animation callbacks outside the bounce-back, on the
  assumption that the framework only calls them while the animation started by the
  bounce-back entry runs.
