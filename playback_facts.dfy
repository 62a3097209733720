/**
 * What the playback engine promises: the order of one frame (advance, sample,
 * settle), the restart semantics of Animate(), and what a run of frames does
 * to the clock and to the target properties.
 */
module PlaybackFacts {
  import opened Playback

  // ---------------------------------------------------------------------------
  // One frame
  // ---------------------------------------------------------------------------

  /** A stopped loop is never resumed: the frame writes nothing and keeps the clock. */
  lemma TickWhenStoppedIsNoOp(s: Settings, defaultPos: Vec2, st: State, dt: real)
    requires !st.running
    ensures Tick(s, defaultPos, st, dt) == st
  {
  }

  /**
   * A frame advances the clock first and samples afterwards: every write uses
   * the advanced time, so with a positive delta time from a non-negative clock
   * no frame writes the values for time 0.
   */
  lemma TickAdvancesThenSamples(s: Settings, defaultPos: Vec2, st: State, dt: real)
    requires st.running && s.animationPeriod > 0.0
    ensures Tick(s, defaultPos, st, dt).pose == Sample(s, defaultPos, st.time + dt / s.animationPeriod, st.pose)
    ensures st.time >= 0.0 && dt > 0.0 ==>
              exists t :: t > 0.0 && Tick(s, defaultPos, st, dt).pose == Sample(s, defaultPos, t, st.pose)
  {
  }

  /**
   * The completion rule, applied to the advanced time t: at t >= 1 a looping
   * animation restarts from exactly 0 and keeps running, a non-looping one
   * stops with the clock at t (so its last writes were sampled at t >= 1);
   * below 1 the loop keeps running at t.
   */
  lemma TickCompletionRule(s: Settings, defaultPos: Vec2, st: State, dt: real)
    requires st.running && s.animationPeriod > 0.0
    requires !ColourFault(s, st.pose)
    ensures var t := st.time + dt / s.animationPeriod;
            var r := Tick(s, defaultPos, st, dt);
            (t >= 1.0 && s.loop ==> r.time == 0.0 && r.running)
            && (t >= 1.0 && !s.loop ==> r.time == t && !r.running)
            && (t < 1.0 ==> r.time == t && r.running)
  {
  }

  /**
   * Enabled but unbound colour: the frame writes the transform, then the null
   * dereference ends the loop with the clock advanced and not settled.
   */
  lemma MissingGraphicEndsLoop(s: Settings, defaultPos: Vec2, st: State, dt: real)
    requires st.running && s.animationPeriod > 0.0
    requires ColourFault(s, st.pose)
    ensures var t := st.time + dt / s.animationPeriod;
            Tick(s, defaultPos, st, dt) == State(t, false, WriteTransform(s, defaultPos, t, st.pose))
  {
  }

  /**
   * Linked scale applies xScale to both axes and never consults yScale;
   * unlinked scale samples each axis from its own curve.
   */
  lemma LinkedScaleIgnoresY(s: Settings, t: real, otherY: Curve)
    ensures s.linkedScale ==> ScaleAt(s, t) == Vec2(s.xScale(t), s.xScale(t))
    ensures s.linkedScale ==> ScaleAt(s.(yScale := otherY), t) == ScaleAt(s, t)
    ensures !s.linkedScale ==> ScaleAt(s, t) == Vec2(s.xScale(t), s.yScale(t))
  {
  }

  /**
   * The position written by a frame is the default position plus the sampled
   * offset, whatever the position was before: offsets never accumulate.
   */
  lemma PositionDoesNotAccumulate(s: Settings, defaultPos: Vec2, st: State, before: Vec2, dt: real)
    requires st.running && s.animationPeriod > 0.0 && s.animatePos
    ensures var t := st.time + dt / s.animationPeriod;
            var other := st.(pose := st.pose.(position := before));
            Tick(s, defaultPos, st, dt).pose.position == PositionAt(s, defaultPos, t)
            && Tick(s, defaultPos, other, dt).pose.position == PositionAt(s, defaultPos, t)
  {
  }

  /** Writing the same samples twice is writing them once. */
  lemma SampleIdempotent(s: Settings, defaultPos: Vec2, t: real, p: Pose)
    ensures Sample(s, defaultPos, t, Sample(s, defaultPos, t, p)) == Sample(s, defaultPos, t, p)
  {
  }

  /** A frame counts as a reset exactly when Tick takes the loop branch of the completion rule. */
  lemma WrapsIsTickReset(s: Settings, defaultPos: Vec2, st: State, dt: real)
    requires st.running && s.animationPeriod > 0.0
    ensures var r := Tick(s, defaultPos, st, dt);
            Wraps(s, defaultPos, st, dt)
            <==> s.loop && Advance(st.time, dt, s.animationPeriod) >= 1.0 && r.running && r.time == 0.0
  {
  }

  // ---------------------------------------------------------------------------
  // Animate(): restart semantics
  // ---------------------------------------------------------------------------

  /** On an object inactive in the hierarchy, Animate() changes nothing. */
  lemma AnimateWhenInactiveIsNoOp(s: Settings, defaultPos: Vec2, st: State, dt: real)
    ensures Animate(s, defaultPos, false, st, dt) == st
  {
  }

  /**
   * On an active object, Animate() discards the previous run: the result does
   * not depend on the old clock or on whether a loop was already running, so
   * at most one loop is ever alive.
   */
  lemma AnimateForgetsPreviousRun(s: Settings, defaultPos: Vec2, st: State, oldTime: real, wasRunning: bool, dt: real)
    requires s.animationPeriod > 0.0
    ensures Animate(s, defaultPos, true, st, dt)
         == Animate(s, defaultPos, true, st.(time := oldTime, running := wasRunning), dt)
  {
  }

  /**
   * The first frame of a fresh loop runs inside Animate() and samples at
   * dt / animationPeriod, never at time 0 when dt > 0.
   */
  lemma AnimateFirstSample(s: Settings, defaultPos: Vec2, st: State, dt: real)
    requires s.animationPeriod > 0.0
    ensures Animate(s, defaultPos, true, st, dt).pose == Sample(s, defaultPos, dt / s.animationPeriod, st.pose)
    ensures dt > 0.0 ==>
              exists t :: t > 0.0 && Animate(s, defaultPos, true, st, dt).pose == Sample(s, defaultPos, t, st.pose)
  {
  }

  /** Two calls of Animate() in the same frame leave the state of one call. */
  lemma AnimateTwiceIsOnce(s: Settings, defaultPos: Vec2, active: bool, st: State, dt: real)
    requires active ==> s.animationPeriod > 0.0
    ensures var once := Animate(s, defaultPos, active, st, dt);
            Animate(s, defaultPos, active, once, dt) == once
  {
  }

  // ---------------------------------------------------------------------------
  // Runs of many frames
  // ---------------------------------------------------------------------------

  lemma {:induction false} ElapsedNonNegative(dts: seq<real>, period: real)
    requires period > 0.0 && NonNegative(dts)
    ensures Elapsed(dts, period) >= 0.0
    decreases |dts|
  {
    if |dts| > 0 {
      ElapsedNonNegative(dts[1..], period);
    }
  }

  /** The normalized clock advances by the seconds elapsed divided by the period. */
  lemma {:induction false} ElapsedIsSecondsOverPeriod(dts: seq<real>, period: real)
    requires period > 0.0
    ensures Elapsed(dts, period) == Seconds(dts) / period
    decreases |dts|
  {
    if |dts| > 0 {
      ElapsedIsSecondsOverPeriod(dts[1..], period);
      assert (dts[0] + Seconds(dts[1..])) / period == dts[0] / period + Seconds(dts[1..]) / period;
    }
  }

  /** Once the loop has stopped, no later frame writes anything. */
  lemma {:induction false} RunWhenStoppedIsNoOp(s: Settings, defaultPos: Vec2, st: State, dts: seq<real>)
    requires s.animationPeriod > 0.0 && !st.running
    ensures Run(s, defaultPos, st, dts) == st
    decreases |dts|
  {
    if |dts| > 0 {
      RunWhenStoppedIsNoOp(s, defaultPos, st, dts[1..]);
    }
  }

  /** A property whose flag is off keeps its value over any number of frames. */
  lemma {:induction false} RunLeavesDisabledUntouched(s: Settings, defaultPos: Vec2, st: State, dts: seq<real>)
    requires s.animationPeriod > 0.0
    ensures var r := Run(s, defaultPos, st, dts).pose;
            (!s.animateScale ==> r.scale == st.pose.scale)
            && (!s.animatePos ==> r.position == st.pose.position)
            && (!s.animateRotation ==> r.rotationZ == st.pose.rotationZ)
            && (!s.animateColor ==> r.color == st.pose.color)
    decreases |dts|
  {
    if |dts| > 0 {
      RunLeavesDisabledUntouched(s, defaultPos, Tick(s, defaultPos, st, dts[0]), dts[1..]);
    }
  }

  /** The clock is never negative, and a live loop's clock is below 1. */
  predicate ClockInRange(st: State) {
    0.0 <= st.time && (st.running ==> st.time < 1.0)
  }

  /** With non-negative delta times, every frame keeps the clock in range. */
  lemma {:induction false} RunKeepsClockInRange(s: Settings, defaultPos: Vec2, st: State, dts: seq<real>)
    requires s.animationPeriod > 0.0 && NonNegative(dts) && ClockInRange(st)
    ensures ClockInRange(Run(s, defaultPos, st, dts))
    decreases |dts|
  {
    if |dts| > 0 {
      RunKeepsClockInRange(s, defaultPos, Tick(s, defaultPos, st, dts[0]), dts[1..]);
    }
  }

  /**
   * Without loop, a live animation whose clock is below 1, with colour off or a
   * Graphic bound, stops exactly when the normalized time it has accumulated
   * reaches 1: while below 1 it is still running with the
   * clock at the accumulated time; once stopped the clock shows the last
   * sample time, which is at least 1. After a frame, either way the target shows the samples
   * taken at the clock's time.
   */
  lemma {:induction false} RunWithoutLoop(s: Settings, defaultPos: Vec2, st: State, dts: seq<real>)
    requires s.animationPeriod > 0.0 && !s.loop && NonNegative(dts)
    requires st.running && st.time < 1.0 && !ColourFault(s, st.pose)
    ensures var r := Run(s, defaultPos, st, dts);
            var t := st.time + Elapsed(dts, s.animationPeriod);
            (r.running <==> t < 1.0)
            && (r.running ==> r.time == t)
            && (!r.running ==> r.time >= 1.0)
            && (|dts| > 0 ==> r.pose == Sample(s, defaultPos, r.time, r.pose))
    decreases |dts|
  {
    if |dts| > 0 {
      var p := s.animationPeriod;
      var t1 := Advance(st.time, dts[0], p);
      var next := Tick(s, defaultPos, st, dts[0]);
      assert next == Settle(s, t1, Sample(s, defaultPos, t1, st.pose));
      SampleIdempotent(s, defaultPos, t1, st.pose);
      assert NonNegative(dts[1..]) by {
        forall i | 0 <= i < |dts[1..]| ensures dts[1..][i] >= 0.0 {
          assert dts[1..][i] == dts[i + 1];
        }
      }
      ElapsedNonNegative(dts[1..], p);
      assert Elapsed(dts, p) == dts[0] / p + Elapsed(dts[1..], p);
      if t1 >= 1.0 {
        RunWhenStoppedIsNoOp(s, defaultPos, next, dts[1..]);
      } else {
        RunWithoutLoop(s, defaultPos, next, dts[1..]);
      }
    }
  }

  /**
   * With loop, a live animation whose clock is in [0, 1), with colour off or a
   * Graphic bound, never stops, its clock stays in [0, 1), and
   * each reset costs at least one whole period: resets plus the clock never
   * exceed the normalized time accumulated, because overshoot is discarded.
   */
  lemma {:induction false} RunWithLoop(s: Settings, defaultPos: Vec2, st: State, dts: seq<real>)
    requires s.animationPeriod > 0.0 && s.loop && NonNegative(dts)
    requires st.running && 0.0 <= st.time < 1.0 && !ColourFault(s, st.pose)
    ensures var r := Run(s, defaultPos, st, dts);
            r.running && 0.0 <= r.time < 1.0
            && r.time + WrapCount(s, defaultPos, st, dts) as real <= st.time + Elapsed(dts, s.animationPeriod)
    decreases |dts|
  {
    if |dts| > 0 {
      var next := Tick(s, defaultPos, st, dts[0]);
      assert NonNegative(dts[1..]) by {
        forall i | 0 <= i < |dts[1..]| ensures dts[1..][i] >= 0.0 {
          assert dts[1..][i] == dts[i + 1];
        }
      }
      RunWithLoop(s, defaultPos, next, dts[1..]);
    }
  }

  /** The target shows the samples of one common normalized time t. */
  ghost predicate ShowsOneSample(s: Settings, defaultPos: Vec2, p: Pose) {
    exists t :: p == Sample(s, defaultPos, t, p)
  }

  /**
   * After at least one frame of a live loop, and for as long as that stays
   * true, every enabled property shows its curve at one common time: linked
   * scale is uniform, the position is the default position plus one offset.
   */
  lemma {:induction false} RunShowsOneSample(s: Settings, defaultPos: Vec2, st: State, dts: seq<real>)
    requires s.animationPeriod > 0.0
    requires ShowsOneSample(s, defaultPos, st.pose) || (st.running && |dts| > 0)
    ensures ShowsOneSample(s, defaultPos, Run(s, defaultPos, st, dts).pose)
    decreases |dts|
  {
    if |dts| > 0 {
      var next := Tick(s, defaultPos, st, dts[0]);
      if st.running {
        var t1 := Advance(st.time, dts[0], s.animationPeriod);
        SampleIdempotent(s, defaultPos, t1, st.pose);
        assert next.pose == Sample(s, defaultPos, t1, next.pose);
      }
      RunShowsOneSample(s, defaultPos, next, dts[1..]);
    }
  }

  /** What showing one sample at time t means for each enabled property. */
  lemma OneSampleMeaning(s: Settings, defaultPos: Vec2, t: real, p: Pose)
    requires p == Sample(s, defaultPos, t, p)
    ensures s.animateScale && s.linkedScale ==> p.scale.x == p.scale.y == s.xScale(t)
    ensures s.animateScale && !s.linkedScale ==> p.scale == Vec2(s.xScale(t), s.yScale(t))
    ensures s.animatePos ==> p.position == PositionAt(s, defaultPos, t)
    ensures s.animateRotation ==> p.rotationZ == s.zRot(t)
    ensures s.animateColor && p.color.Some? ==> p.color == Some(s.colorGradient(t))
  {
  }

  /**
   * Discarding overshoot can cost a reset: with a one-second period and three
   * frames of 5/6 s (2.5 s in all) a looping animation resets only once.
   */
  lemma OvershootCanCostAReset(s: Settings, defaultPos: Vec2, st: State)
    requires s.loop && s.animationPeriod == 1.0
    requires st.running && st.time == 0.0 && !ColourFault(s, st.pose)
    ensures var dts := [5.0 / 6.0, 5.0 / 6.0, 5.0 / 6.0];
            Seconds(dts) == 2.5
            && WrapCount(s, defaultPos, st, dts) == 1
            && Run(s, defaultPos, st, dts).time == 5.0 / 6.0
  {
  }
}
