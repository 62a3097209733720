/**
 * The playback engine of AnimateObject, stated on values: one iteration of the
 * coroutine's `while (true)` body (advance the normalized clock, write the
 * sampled curves to the enabled target properties, then apply the completion
 * rule), the restart performed by Animate(), and a run of many frames.
 *
 * Unity's AnimationCurve and Gradient are opaque total functions of the
 * normalized time; vectors are pairs of reals; rotation is the Z Euler angle.
 */
module Playback {

  datatype Option<T> = None | Some(value: T)

  datatype Vec2 = Vec2(x: real, y: real) {
    function Plus(other: Vec2): Vec2 {
      Vec2(x + other.x, y + other.y)
    }
  }

  datatype Color = Color(r: real, g: real, b: real, a: real)

  /** AnimationCurve.Evaluate, as a function of the normalized time. */
  type Curve = real -> real

  /** Gradient.Evaluate, as a function of the normalized time. */
  type Gradient = real -> Color

  /** The inspector settings the loop reads on every iteration. */
  datatype Settings = Settings(
    loop: bool,
    animationPeriod: real,
    animateScale: bool, linkedScale: bool, xScale: Curve, yScale: Curve,
    animatePos: bool, xPos: Curve, yPos: Curve,
    animateRotation: bool, zRot: Curve,
    animateColor: bool, colorGradient: Gradient)

  /**
   * The target properties the loop writes: the transform's local scale, local
   * position and Z rotation, and the colour of the bound Graphic (None when no
   * Graphic is bound).
   */
  datatype Pose = Pose(scale: Vec2, position: Vec2, rotationZ: real, color: Option<Color>)

  /** The normalized clock, whether the animation loop is alive, and the target. */
  datatype State = State(time: real, running: bool, pose: Pose)

  /** The clock advance at the top of each iteration: `time += deltaTime / animationPeriod`. */
  function Advance(time: real, dt: real, period: real): (t: real)
    requires period > 0.0
    ensures dt >= 0.0 ==> t >= time
    ensures dt > 0.0 ==> t > time
    ensures dt < 0.0 ==> t < time
  {
    time + dt / period
  }

  /** The scale written at normalized time `t`: uniform from xScale when linked, per axis otherwise. */
  function ScaleAt(s: Settings, t: real): Vec2 {
    if s.linkedScale then Vec2(s.xScale(t), s.xScale(t))
    else Vec2(s.xScale(t), s.yScale(t))
  }

  /** The position written at normalized time `t`: an offset from the captured default position. */
  function PositionAt(s: Settings, defaultPos: Vec2, t: real): Vec2 {
    defaultPos.Plus(Vec2(s.xPos(t), s.yPos(t)))
  }

  function WriteScale(s: Settings, t: real, p: Pose): Pose {
    if s.animateScale then p.(scale := ScaleAt(s, t)) else p
  }

  function WritePosition(s: Settings, defaultPos: Vec2, t: real, p: Pose): Pose {
    if s.animatePos then p.(position := PositionAt(s, defaultPos, t)) else p
  }

  function WriteRotation(s: Settings, t: real, p: Pose): Pose {
    if s.animateRotation then p.(rotationZ := s.zRot(t)) else p
  }

  /** The transform writes of one iteration (scale, then position, then rotation). */
  function WriteTransform(s: Settings, defaultPos: Vec2, t: real, p: Pose): Pose {
    WriteRotation(s, t, WritePosition(s, defaultPos, t, WriteScale(s, t, p)))
  }

  /** Colour is enabled but no Graphic is bound: the colour write dereferences null. */
  predicate ColourFault(s: Settings, p: Pose) {
    s.animateColor && p.color.None?
  }

  /** The colour write of one iteration. */
  function WriteColour(s: Settings, t: real, p: Pose): Pose {
    if s.animateColor && p.color.Some? then p.(color := Some(s.colorGradient(t))) else p
  }

  /** Every write of one iteration, all sampled at the same normalized time `t`. */
  function Sample(s: Settings, defaultPos: Vec2, t: real, p: Pose): Pose {
    WriteColour(s, t, WriteTransform(s, defaultPos, t, p))
  }

  /**
   * The completion rule after the writes: at `t >= 1` a looping animation
   * resets the clock to exactly 0 (overshoot discarded) and goes on, a
   * non-looping one ends with the clock left at `t`; below 1 it goes on.
   */
  function Settle(s: Settings, t: real, p: Pose): State {
    if t >= 1.0 then
      if s.loop then State(0.0, true, p) else State(t, false, p)
    else State(t, true, p)
  }

  /**
   * One frame of the animation loop. A stopped loop does nothing. A running
   * loop advances the clock, writes the samples, and settles; when colour is
   * enabled without a Graphic, the NullReferenceException at the colour write
   * ends the loop after the transform writes, before the completion rule.
   */
  function Tick(s: Settings, defaultPos: Vec2, st: State, dt: real): State
    requires st.running ==> s.animationPeriod > 0.0
  {
    if !st.running then st
    else
      var t := Advance(st.time, dt, s.animationPeriod);
      var p := WriteTransform(s, defaultPos, t, st.pose);
      if ColourFault(s, p) then State(t, false, p)
      else Settle(s, t, WriteColour(s, t, p))
  }

  /** StopAllCoroutines, `time = 0` and StartCoroutine: a fresh loop from the origin. */
  function Restart(st: State): State {
    st.(time := 0.0, running := true)
  }

  /**
   * Animate(): a no-op on an object inactive in the hierarchy; otherwise the
   * clock restarts and the new loop runs its first iteration at once, with
   * the current frame's delta time, up to its first `yield return null`.
   */
  function Animate(s: Settings, defaultPos: Vec2, active: bool, st: State, dt: real): State
    requires active ==> s.animationPeriod > 0.0
  {
    if !active then st else Tick(s, defaultPos, Restart(st), dt)
  }

  /** The loop resumed once per frame, with the given delta times, in order. */
  function Run(s: Settings, defaultPos: Vec2, st: State, dts: seq<real>): State
    requires s.animationPeriod > 0.0
    decreases |dts|
  {
    if |dts| == 0 then st
    else Run(s, defaultPos, Tick(s, defaultPos, st, dts[0]), dts[1..])
  }

  /** Whether the frame with delta time `dt` ends in a loop reset. */
  predicate Wraps(s: Settings, defaultPos: Vec2, st: State, dt: real)
    requires s.animationPeriod > 0.0
  {
    st.running && s.loop
    && !ColourFault(s, WriteTransform(s, defaultPos, Advance(st.time, dt, s.animationPeriod), st.pose))
    && Advance(st.time, dt, s.animationPeriod) >= 1.0
  }

  /** How many loop resets a run performs. */
  function WrapCount(s: Settings, defaultPos: Vec2, st: State, dts: seq<real>): nat
    requires s.animationPeriod > 0.0
    decreases |dts|
  {
    if |dts| == 0 then 0
    else
      (if Wraps(s, defaultPos, st, dts[0]) then 1 else 0)
      + WrapCount(s, defaultPos, Tick(s, defaultPos, st, dts[0]), dts[1..])
  }

  /** Normalized time the frames add up to: the sum of `dt / animationPeriod`. */
  function Elapsed(dts: seq<real>, period: real): real
    requires period > 0.0
    decreases |dts|
  {
    if |dts| == 0 then 0.0 else dts[0] / period + Elapsed(dts[1..], period)
  }

  /** Seconds the frames add up to. */
  function Seconds(dts: seq<real>): real
    decreases |dts|
  {
    if |dts| == 0 then 0.0 else dts[0] + Seconds(dts[1..])
  }

  /** Delta times are never negative. */
  predicate NonNegative(dts: seq<real>) {
    forall i :: 0 <= i < |dts| ==> dts[i] >= 0.0
  }
}
