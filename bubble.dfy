/** The bubble's animation controller: elapsed time, the idle bob and spin,
    and the lift-off state machine that climbs, shrinks and fades the bubble
    and then notifies its owner once. The scene-graph values it writes (group
    position, scale and rotation, the two material opacities, the shader's
    time uniform) are plain fields here. */
module Bubble {
  import opened Easing
  import opened FrameClock

  datatype Option<T> = None | Some(value: T)

  /** A completion callback, identified by a token. */
  datatype Callback = Callback(id: nat)

  /** Rotation about the vertical axis added by every tick. */
  const Spin: real := 0.003
  /** Angular frequency and amplitude of the idle sideways bob. */
  const BobFreq: real := 0.4
  const BobAmp: real := 0.2

  /** Sideways offset of the group at animation time `time`, given the sine. */
  function Bob(sin: real -> real, time: real): (b: real)
    ensures -1.0 <= sin(time * BobFreq) <= 1.0 ==> -BobAmp <= b <= BobAmp
  {
    sin(time * BobFreq) * BobAmp
  }

  /** If the sine repeats with some period, the bob repeats with that period
      divided by its frequency. */
  lemma BobPeriodic(sin: real -> real, period: real, time: real)
    requires forall a :: sin(a + period) == sin(a)
    ensures Bob(sin, time + period / BobFreq) == Bob(sin, time)
  {
    var a := time * BobFreq;
    assert (time + period / BobFreq) * BobFreq == a + period;
    assert sin(a + period) == sin(a);
  }

  class ProductionBubble {
    /** The sine the bob is computed with (the runtime's Math.sin). */
    const sin: real -> real
    /** Height the group is anchored at. */
    const startY: real

    var time: real
    var lastFrameTime: real
    var lifting: bool
    var liftStart: real
    var onLiftComplete: Option<Callback>

    var x: real
    var y: real
    var scale: real
    var rotationY: real
    var carrierOpacity: real
    var filmOpacity: real
    /** The shader's time uniform; None until the film shader is compiled. */
    var shaderTime: Option<real>

    /** Number of lift-offs started, and every callback invoked so far. */
    ghost var starts: nat
    ghost var fired: seq<Callback>

    /** A callback is pending only during a lift-off, and every lift-off
        accounts for at most one callback, fired or pending. */
    ghost predicate Valid()
      reads this
    {
      (!lifting ==> onLiftComplete == None) &&
      |fired| + (if onLiftComplete.Some? then 1 else 0) <= starts
    }

    function ClockState(): Clock
      reads this
    {
      Clock(time, lastFrameTime)
    }

    function CurrentPose(): Pose
      reads this
    {
      Pose(y, scale, carrierOpacity, filmOpacity)
    }

    constructor (sin: real -> real)
      ensures Valid()
      ensures this.sin == sin && startY == 0.0
      ensures time == 0.0 && lastFrameTime == 0.0
      ensures !lifting && liftStart == 0.0 && onLiftComplete == None
      ensures x == 0.0 && rotationY == 0.0 && CurrentPose() == RestPose(startY)
      ensures shaderTime == None
      ensures starts == 0 && fired == []
    {
      this.sin := sin;
      startY := 0.0;
      time, lastFrameTime := 0.0, 0.0;
      lifting, liftStart, onLiftComplete := false, 0.0, None;
      x, y, scale, rotationY := 0.0, 0.0, 1.0, 0.0;
      filmOpacity, carrierOpacity := 1.0, CarrierOpacity;
      shaderTime := None;
      starts, fired := 0, [];
    }

    /** The film material's shader is compiled: its time uniform appears,
        starting at 0. */
    method CompileShader()
      modifies this
      ensures shaderTime == Some(0.0)
      ensures time == old(time) && lastFrameTime == old(lastFrameTime)
      ensures lifting == old(lifting) && liftStart == old(liftStart)
      ensures onLiftComplete == old(onLiftComplete)
      ensures x == old(x) && rotationY == old(rotationY) && CurrentPose() == old(CurrentPose())
      ensures starts == old(starts) && fired == old(fired)
    {
      shaderTime := Some(0.0);
    }

    /** Begins the lift-off unless one is already running; a second request
        during a lift-off changes nothing, so its callback is never stored. */
    method StartLift(cb: Option<Callback>)
      requires Valid()
      modifies this
      ensures Valid()
      ensures old(lifting) ==> unchanged(this)
      ensures !old(lifting) ==>
        lifting && liftStart == time && onLiftComplete == cb && starts == old(starts) + 1
      ensures time == old(time) && lastFrameTime == old(lastFrameTime)
      ensures x == old(x) && rotationY == old(rotationY) && CurrentPose() == old(CurrentPose())
      ensures shaderTime == old(shaderTime) && fired == old(fired)
    {
      if !lifting {
        liftStart := time;
        lifting := true;
        onLiftComplete := cb;
        starts := starts + 1;
      }
    }

    /** One frame at timestamp t (milliseconds): advance the clock, step the
        lift-off, then apply the idle motion. Returns the completion
        callback this tick invokes, if any. */
    method Animate(t: real) returns (invoked: Option<Callback>)
      requires Valid()
      modifies this
      ensures Valid()
      ensures ClockState() == Tick(old(ClockState()), t)
      ensures liftStart == old(liftStart) && starts == old(starts)
      // not lifting: the lift-off state and the pose are left alone
      ensures !old(lifting) ==>
        !lifting && invoked == None && onLiftComplete == old(onLiftComplete) &&
        CurrentPose() == old(CurrentPose())
      // lifting, within the duration: the eased pose
      ensures old(lifting) && time - liftStart < LiftDur ==>
        lifting && invoked == None && onLiftComplete == old(onLiftComplete) &&
        CurrentPose() == LiftPose(startY, time - liftStart)
      // lifting, duration run out: pinned final pose, callback fired once and cleared
      ensures old(lifting) && time - liftStart >= LiftDur ==>
        !lifting && invoked == old(onLiftComplete) && onLiftComplete == None &&
        CurrentPose() == FinalPose(startY)
      ensures old(lifting) && 0.0 <= time - liftStart ==>
        CurrentPose() == PoseAt(startY, time - liftStart)
      ensures fired == old(fired) + (if invoked.Some? then [invoked.value] else [])
      // idle motion and shader time, whatever the phase
      ensures x == Bob(sin, time)
      ensures rotationY == old(rotationY) + Spin
      ensures shaderTime == (if old(shaderTime).Some? then Some(time) else None)
    {
      AdvanceClock(t);
      invoked := StepLift();
      IdleMotion();
    }

    /** Turns the timestamp into accumulated seconds; a stored timestamp of
        0 means there was no previous frame, so nothing is added. */
    method AdvanceClock(t: real)
      modifies this`time, this`lastFrameTime
      ensures ClockState() == Tick(old(ClockState()), t)
    {
      if lastFrameTime == 0.0 {
        lastFrameTime := t;
      }
      var deltaTime := (t - lastFrameTime) / 1000.0;
      time := time + deltaTime;
      lastFrameTime := t;
    }

    /** The lift-off part of a tick, at the already advanced time. */
    method StepLift() returns (invoked: Option<Callback>)
      requires Valid()
      modifies this`lifting, this`onLiftComplete, this`fired,
        this`y, this`scale, this`carrierOpacity, this`filmOpacity
      ensures Valid()
      ensures !old(lifting) ==>
        !lifting && invoked == None && onLiftComplete == old(onLiftComplete) &&
        CurrentPose() == old(CurrentPose())
      ensures old(lifting) && time - liftStart < LiftDur ==>
        lifting && invoked == None && onLiftComplete == old(onLiftComplete) &&
        CurrentPose() == LiftPose(startY, time - liftStart)
      ensures old(lifting) && time - liftStart >= LiftDur ==>
        !lifting && invoked == old(onLiftComplete) && onLiftComplete == None &&
        CurrentPose() == FinalPose(startY)
      ensures fired == old(fired) + (if invoked.Some? then [invoked.value] else [])
    {
      invoked := None;
      if lifting {
        var elapsed := time - liftStart;
        if elapsed < LiftDur {
          // progress elapsed / LiftDur, eased, drives height, scale and fade
          var pose := LiftPose(startY, elapsed);
          y, scale := pose.y, pose.scale;
          carrierOpacity, filmOpacity := pose.carrierOpacity, pose.filmOpacity;
        } else {
          lifting := false;
          y := startY + LiftDist;
          scale := FinalScale;
          carrierOpacity := 0.0;
          filmOpacity := 0.0;
          if onLiftComplete.Some? {
            invoked := onLiftComplete;
            fired := fired + [onLiftComplete.value];
            onLiftComplete := None;
          }
        }
      }
    }

    /** Pushes the time into the shader, if compiled, and applies the
        sideways bob and the spin. */
    method IdleMotion()
      modifies this`shaderTime, this`x, this`rotationY
      ensures x == Bob(sin, time)
      ensures rotationY == old(rotationY) + Spin
      ensures shaderTime == (if old(shaderTime).Some? then Some(time) else None)
    {
      if shaderTime.Some? {
        shaderTime := Some(time);
      }
      x := Bob(sin, time);
      rotationY := rotationY + Spin;
    }
  }

  /** A click starts the lift-off with the widget's completion callback,
      and the page's own click handler then asks again with its navigation
      callback. Frames come at t0 (the first frame), at the click t1, some
      time tm during the lift-off, a frame t2 at least 2.5 s after the click
      and a later frame t3. Only the first callback is stored; it fires once,
      on the frame at t2, and the later frame fires nothing. */
  method DoubleClickLift(sin: real -> real, onLiftComplete: Callback, goMain: Callback,
                         t0: real, t1: real, tm: real, t2: real, t3: real)
    returns (midCall: Option<Callback>, completingCall: Option<Callback>, laterCall: Option<Callback>,
             during: Pose, after: Pose)
    requires 0.0 < t0 <= t1 <= tm < t1 + 2500.0 <= t2 <= t3
    ensures midCall == None && completingCall == Some(onLiftComplete) && laterCall == None
    ensures 0.0 <= during.y < LiftDist && FinalScale < during.scale <= 1.0
    ensures 0.0 < during.filmOpacity <= 1.0 && 0.0 < during.carrierOpacity <= CarrierOpacity
    ensures after == FinalPose(0.0)
  {
    var b := new ProductionBubble(sin);
    var c := b.Animate(t0);
    c := b.Animate(t1);
    assert b.time == (t1 - t0) / 1000.0;
    b.StartLift(Some(onLiftComplete));
    b.StartLift(Some(goMain));
    midCall := b.Animate(tm);
    during := b.CurrentPose();
    completingCall := b.Animate(t2);
    laterCall := b.Animate(t3);
    after := b.CurrentPose();
  }
}
