/**
 * The AnimateObject component itself: its inspector fields, the private clock
 * and default position, and the Unity messages and public method that drive
 * the animation loop. Each method is specified by the value-level model in
 * module Playback, whose properties are proved in module PlaybackFacts.
 *
 * The coroutine becomes the `running` flag: StopAllCoroutines followed by
 * StartCoroutine leaves exactly one loop alive, and the scheduler resuming
 * that loop once per frame is a call of Tick with the frame's delta time.
 */
module AnimateObjects {
  import opened Playback

  /** The parts of the GameObject's transform the animation writes. */
  class Transform {
    var localScale: Vec2
    var localPosition: Vec2
    var rotationZ: real

    constructor (scale: Vec2, position: Vec2, rotationZ: real)
      ensures localScale == scale && localPosition == position && this.rotationZ == rotationZ
    {
      localScale := scale;
      localPosition := position;
      this.rotationZ := rotationZ;
    }
  }

  /** A UI Graphic: the colour sink. */
  class Graphic {
    var color: Color

    constructor (color: Color)
      ensures this.color == color
    {
      this.color := color;
    }
  }

  class AnimateObject {
    // Animation settings.
    var loop: bool
    var animateOnEnable: bool
    /** Seconds per pass of the curves over [0, 1]. */
    var animationPeriod: real

    var animateScale: bool
    var linkedScale: bool
    var xScale: Curve
    var yScale: Curve

    var animatePos: bool
    var xPos: Curve
    var yPos: Curve

    var animateRotation: bool
    var zRot: Curve

    var animateColor: bool
    var colorGradient: Gradient
    var colorObj: Graphic?

    /** The normalized clock. */
    var time: real
    /** The local position captured by Awake; position curves are offsets from it. */
    var defaultPos: Vec2

    /** Whether the AnimationLoop coroutine is alive. */
    var running: bool

    /** The transform of the GameObject this component sits on. */
    const transform: Transform
    /** gameObject.activeInHierarchy, maintained by the scene. */
    var activeInHierarchy: bool

    /** A freshly added component, with the field initializers' defaults. */
    constructor (transform: Transform, activeInHierarchy: bool)
      ensures this.transform == transform && this.activeInHierarchy == activeInHierarchy
      ensures !loop && !animateOnEnable && animationPeriod == 1.0
      ensures !animateScale && !linkedScale && !animatePos && !animateRotation && !animateColor
      ensures forall t :: xScale(t) == 1.0 && yScale(t) == 1.0
      ensures forall t :: xPos(t) == 0.0 && yPos(t) == 0.0 && zRot(t) == 0.0
      ensures forall t :: colorGradient(t) == Color(1.0, 1.0, 1.0, 1.0)
      ensures colorObj == null && time == 0.0 && !running
      ensures defaultPos == Vec2(0.0, 0.0)
    {
      loop := false;
      animateOnEnable := false;
      animationPeriod := 1.0;
      animateScale := false;
      linkedScale := false;
      xScale := t => 1.0;
      yScale := t => 1.0;
      animatePos := false;
      xPos := t => 0.0;
      yPos := t => 0.0;
      animateRotation := false;
      zRot := t => 0.0;
      animateColor := false;
      colorGradient := t => Color(1.0, 1.0, 1.0, 1.0);
      colorObj := null;
      time := 0.0;
      defaultPos := Vec2(0.0, 0.0);
      running := false;
      this.transform := transform;
      this.activeInHierarchy := activeInHierarchy;
    }

    /** The settings the loop reads. */
    function Config(): Settings
      reads this
    {
      Settings(loop, animationPeriod,
        animateScale, linkedScale, xScale, yScale,
        animatePos, xPos, yPos,
        animateRotation, zRot,
        animateColor, colorGradient)
    }

    /** The target properties as they stand. */
    function Target(): Pose
      reads this, transform, colorObj
    {
      Pose(transform.localScale, transform.localPosition, transform.rotationZ,
        if colorObj == null then None else Some(colorObj.color))
    }

    /** Clock, loop liveness and target properties. */
    function Snapshot(): State
      reads this, transform, colorObj
    {
      State(time, running, Target())
    }

    /**
     * Awake: bind the GameObject's own Graphic when none was assigned, and
     * capture the current local position as the origin of position offsets.
     */
    method Awake(ownGraphic: Graphic?)
      modifies this`colorObj, this`defaultPos
      ensures colorObj == (if old(colorObj) == null then ownGraphic else old(colorObj))
      ensures defaultPos == transform.localPosition
    {
      if colorObj == null {
        colorObj := ownGraphic;
      }
      defaultPos := transform.localPosition;
    }

    /** OnEnable: animate when `animateOnEnable` is set, and otherwise do nothing. */
    method OnEnable(dt: real)
      requires animateOnEnable && activeInHierarchy ==> animationPeriod > 0.0
      modifies this`time, this`running, transform, colorObj
      ensures Snapshot()
           == if old(animateOnEnable) then Playback.Animate(old(Config()), defaultPos, activeInHierarchy, old(Snapshot()), dt)
              else old(Snapshot())
    {
      if animateOnEnable {
        Animate(dt);
      }
    }

    /**
     * Animate: nothing on an inactive object; otherwise reset the clock, stop
     * any running loop and start a new one, which runs its first iteration
     * at once with the current frame's delta time `dt`.
     */
    method Animate(dt: real)
      requires activeInHierarchy ==> animationPeriod > 0.0
      modifies this`time, this`running, transform, colorObj
      ensures Snapshot() == Playback.Animate(old(Config()), defaultPos, activeInHierarchy, old(Snapshot()), dt)
    {
      if !activeInHierarchy {
        return;
      }
      time := 0.0;
      running := true;
      Tick(dt);
    }

    /**
     * One iteration of the animation loop, for a frame of `dt` seconds:
     * advance the clock, write the enabled properties sampled at the new
     * time, then loop or stop at time 1. A stopped loop is not resumed.
     */
    method Tick(dt: real)
      requires running ==> animationPeriod > 0.0
      modifies this`time, this`running, transform, colorObj
      ensures Snapshot() == Playback.Tick(old(Config()), defaultPos, old(Snapshot()), dt)
    {
      if !running {
        return;
      }
      time := time + dt / animationPeriod;
      SampleScale();
      SamplePosition();
      SampleRotation();
      assert Target() == WriteTransform(Config(), defaultPos, time, old(Target()));

      if animateColor {
        if colorObj == null {
          // The null dereference throws, and the exception ends the coroutine.
          running := false;
          return;
        }
        colorObj.color := colorGradient(time);
      }

      if time >= 1.0 {
        if loop {
          time := 0.0;
        } else {
          running := false;
        }
      }
    }

    /** The scale block of the loop body: linked or per-axis scale at the current time. */
    method SampleScale()
      modifies transform`localScale
      ensures transform.localScale == if animateScale then ScaleAt(Config(), time) else old(transform.localScale)
    {
      if animateScale {
        if linkedScale {
          transform.localScale := Vec2(xScale(time), xScale(time));
        } else {
          transform.localScale := Vec2(xScale(time), yScale(time));
        }
      }
    }

    /** The position block of the loop body: the default position plus the sampled offset. */
    method SamplePosition()
      modifies transform`localPosition
      ensures transform.localPosition
           == if animatePos then PositionAt(Config(), defaultPos, time) else old(transform.localPosition)
    {
      if animatePos {
        transform.localPosition := defaultPos.Plus(Vec2(xPos(time), yPos(time)));
      }
    }

    /** The rotation block of the loop body: the Z angle at the current time. */
    method SampleRotation()
      modifies transform`rotationZ
      ensures transform.rotationZ == if animateRotation then zRot(time) else old(transform.rotationZ)
    {
      if animateRotation {
        transform.rotationZ := zRot(time);
      }
    }
  }
}
