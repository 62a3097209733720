# AnimateObject playback engine in Dafny

This project models the playback engine of the Unity component `AnimateObject`. The component animates a UI object's local scale, local position, Z rotation and colour. It samples inspector-authored curves against a normalized clock. `Animate()` restarts the clock and the animation coroutine. Each frame, the coroutine does three things in order. It advances the clock by `deltaTime / animationPeriod`. It writes every enabled property, sampled at the new time. Then it either loops (the clock resets to exactly 0) or stops once the clock reaches 1.

The project has three files:

- `playback.dfy` (module `Playback`) states one frame of the loop on values. `Tick` is one frame, `Animate` is the restart plus the first frame, and `Run` is a sequence of frames. Curves and gradients are opaque total functions of the normalized time.
- `playback_facts.dfy` (module `PlaybackFacts`) proves what the engine promises. It covers the order within a frame, the completion rule and the restart semantics. It also proves what any run of frames does to the clock and to the target.
- `animate_object.dfy` (module `AnimateObjects`) holds the component as a class. It has the inspector fields, the private `time` and `defaultPos`, and a `running` flag that stands for the coroutine. Its methods `Awake`, `OnEnable`, `Animate` and `Tick` change the fields and the target's transform and `Graphic` in place. `Animate` and `Tick` are proved to match the value-level functions of the same name. `OnEnable` is proved to match `Playback.Animate` when `animateOnEnable` is set and to change nothing otherwise. `Awake` states its effect on `colorObj` and `defaultPos` directly.

Behaviour of the code that the model keeps as written:

- Unity's `StartCoroutine` runs the coroutine body at once, up to its first `yield return null`. So `Animate(dt)` performs the first frame itself, using the current frame's delta time. A frame's samples are taken after the clock advances. With `dt > 0`, no frame ever writes the values for time 0.
- A non-looping animation with colour off, or with a Graphic bound, stops with the clock at the last sample time, which is at least 1. The last frame's writes are sampled there. Without a Graphic, colour enabled ends the loop at the first frame instead (see the last item).
- A loop reset discards the overshoot. The number of resets therefore depends on the frame rate. With a 1 s period, three frames of 5/6 s (2.5 s in all) reset only once (`OvershootCanCostAReset`). `RunWithLoop` proves the bound: resets plus the clock never exceed the normalized time elapsed.
- The code has no deactivate-on-completion policy. Completion only loops or stops.
- The scale branch is correct: independent X/Y curves apply exactly when `linkedScale` is false.
- With colour enabled and no `Graphic` bound, the write at line 81 dereferences null. The model treats this as the exception ending the coroutine. The transform writes of that frame have happened, and the clock has advanced without being settled.

## Model

| member | source | states |
|---|---|---|
| `Playback.Advance` | AnimateObject.cs:65 | The clock advance never moves time backwards for `dt >= 0` and moves it strictly forward for `dt > 0` (backwards only for a negative `dt`). |
| `PlaybackFacts.TickWhenStoppedIsNoOp` | AnimateObject.cs:86 | Once the loop has ended (`yield break`), a frame changes neither the clock nor any property. |
| `PlaybackFacts.TickAdvancesThenSamples` | AnimateObject.cs:62-81 | In a running frame, every write uses the advanced time `time + dt / animationPeriod`, never the old time. This includes a frame that throws at the colour write. From a non-negative clock with `dt > 0`, the frame's writes are the samples at a positive time. |
| `PlaybackFacts.TickCompletionRule` | AnimateObject.cs:83-89 | After the writes: at `t >= 1` with loop, the clock becomes exactly 0 and the loop keeps running. At `t >= 1` without loop, the clock stays at `t` and the loop stops. At `t < 1`, the clock is `t` and the loop keeps running. |
| `PlaybackFacts.WrapsIsTickReset` | AnimateObject.cs:83-85 | A running frame counts as a loop reset exactly when loop is set, the advanced clock reaches 1, and the frame leaves the loop running with the clock at exactly 0. |
| `PlaybackFacts.MissingGraphicEndsLoop` | AnimateObject.cs:81 | With colour enabled and no Graphic, the frame writes scale, position and rotation. The loop then ends with the clock advanced and not reset. |
| `PlaybackFacts.LinkedScaleIgnoresY` | AnimateObject.cs:68-72 | Linked scale is `(xScale(t), xScale(t))` and does not change when `yScale` is replaced. Unlinked scale is `(xScale(t), yScale(t))`. |
| `PlaybackFacts.PositionDoesNotAccumulate` | AnimateObject.cs:75 | A position frame writes `defaultPos + (xPos(t), yPos(t))` whatever the position was before. |
| `PlaybackFacts.SampleIdempotent` | AnimateObject.cs:67-81 | Writing one frame's samples twice at the same time leaves the same properties as writing them once. |
| `PlaybackFacts.AnimateWhenInactiveIsNoOp` | AnimateObject.cs:53 | On an object inactive in the hierarchy, `Animate()` leaves the clock, the loop and every property unchanged. |
| `PlaybackFacts.AnimateForgetsPreviousRun` | AnimateObject.cs:55-57 | On an active object, `Animate()` gives a result that depends neither on the old clock nor on whether a loop was running. A restart never layers a second loop. |
| `PlaybackFacts.AnimateFirstSample` | AnimateObject.cs:55-65 | The first frame after a restart writes the samples at `dt / animationPeriod`. For `dt > 0` it writes the samples at a positive time, never those at 0. This holds whether or not a Graphic is bound. |
| `PlaybackFacts.AnimateTwiceIsOnce` | AnimateObject.cs:51-58 | Calling `Animate()` twice in one frame gives the same clock, loop state and properties as calling it once. |
| `PlaybackFacts.ElapsedIsSecondsOverPeriod` | AnimateObject.cs:65 | Over a sequence of frames, the accumulated advance is the elapsed seconds divided by the period. |
| `PlaybackFacts.RunWhenStoppedIsNoOp` | AnimateObject.cs:86 | After the loop has stopped, no number of later frames writes anything or moves the clock. |
| `PlaybackFacts.RunLeavesDisabledUntouched` | AnimateObject.cs:68-81 | Over any run of frames, each property whose flag is off (scale, position, rotation, colour) keeps its value. |
| `PlaybackFacts.RunKeepsClockInRange` | AnimateObject.cs:62-90 | With non-negative delta times, the clock stays non-negative, and a running loop's clock stays below 1. |
| `PlaybackFacts.RunWithoutLoop` | AnimateObject.cs:83-86 | Without loop, colour off or a Graphic bound, and a running clock starting below 1, the animation is still running exactly when its accumulated normalized time is below 1, and its clock then equals that time. Once stopped, the clock is at least 1. After at least one frame, the target shows the samples at the clock's time. |
| `PlaybackFacts.RunWithLoop` | AnimateObject.cs:83-89 | With loop, colour off or a Graphic bound, and a running clock starting in [0, 1), the animation never stops and its clock stays in [0, 1). The number of resets plus the clock never exceeds the accumulated normalized time. |
| `PlaybackFacts.RunShowsOneSample` | AnimateObject.cs:67-81 | Once a running loop has had a frame, every enabled property shows its curve at one common time. |
| `PlaybackFacts.OneSampleMeaning` | AnimateObject.cs:70-81 | When the properties show the samples at time `t`: linked scale is uniform and equals `xScale(t)`, unlinked scale is `(xScale(t), yScale(t))`, position is `defaultPos` plus the offset at `t`, rotation is `zRot(t)`, and a bound colour is `colorGradient(t)`. |
| `PlaybackFacts.OvershootCanCostAReset` | AnimateObject.cs:85 | With a 1 s period and three 5/6 s frames (2.5 s), a looping animation resets once, not twice, and ends with the clock at 5/6. |
| `AnimateObjects.AnimateObject.constructor` | AnimateObject.cs:10-37 | A new component has the field initializers' defaults: no loop, a 1 s period, every feature off, scale curves at 1, position and rotation curves at 0, a white gradient, no Graphic, clock at 0, no loop running, and `defaultPos` at (0, 0) until Awake captures it. |
| `AnimateObjects.AnimateObject.Awake` | AnimateObject.cs:39-43 | Awake binds the object's own Graphic only when none was assigned. It captures the current local position as `defaultPos`. |
| `AnimateObjects.AnimateObject.OnEnable` | AnimateObject.cs:45-48 | OnEnable has the effect of `Animate()` if `animateOnEnable` is set, and changes nothing otherwise. |
| `AnimateObjects.AnimateObject.Animate` | AnimateObject.cs:51-58 | The new clock, loop state, transform and colour equal `Playback.Animate` of the old ones: a no-op when inactive, and otherwise a restart from 0 followed by the first frame. |
| `AnimateObjects.AnimateObject.Tick` | AnimateObject.cs:62-90 | One frame's in-place writes to the clock, the loop flag, the transform and the Graphic equal `Playback.Tick` of the old state. No setting and no `defaultPos` changes. |
| `AnimateObjects.AnimateObject.SampleScale` | AnimateObject.cs:68-72 | With scale on, the local scale becomes the linked or per-axis sample at the current time. With scale off, it is unchanged. Only the scale is written. |
| `AnimateObjects.AnimateObject.SamplePosition` | AnimateObject.cs:75 | With position on, the local position becomes `defaultPos` plus the sampled offset. With position off, it is unchanged. Only the position is written. |
| `AnimateObjects.AnimateObject.SampleRotation` | AnimateObject.cs:78 | With rotation on, the Z angle becomes `zRot` at the current time. With rotation off, it is unchanged. Only the rotation is written. |

## Left out

- `AnimateObjectEditor` (AnimateObject.cs:94-192): this is inspector GUI code and has no playback logic.
- `AnimationCurve.Evaluate` and `Gradient.Evaluate` are Unity library code. They are opaque total functions of the normalized time, so keyframe interpolation and clamping are not modelled.
- `Quaternion.Euler` and the other Euler angles: rotation is the single Z angle written at line 78. The model does not capture that the X and Y angles are also set to 0.
- Vector z components: vectors are pairs of reals. Assigning a `Vector2` to `localScale` or `localPosition` also sets z to 0, and `defaultPos` drops the z of the captured position. The model does not capture either.
- Float precision: time and curve values are reals.
- `animationPeriod <= 0`: the methods that divide by it require it to be positive. In C# a zero period gives an infinite or NaN clock, and that is not modelled.
- Coroutine scheduling: `Time.deltaTime` is the parameter `dt`, and the resumption of the coroutine each frame is a call of `Tick`. The engine's own stopping of coroutines when the GameObject is deactivated is not part of this code, so it is not modelled. The same goes for the exception log written when the colour write throws.
- `GetComponent<Graphic>()` (line 41) becomes the `ownGraphic` parameter of `Awake`.
- Subclasses overriding the virtual `Animate` are not modelled.
