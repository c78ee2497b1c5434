/**
 * The parts of body/body_v2.py that are its own: the s-curve interpolation and the smooth
 * multi-servo move built on it, the normalising geared rotation, and the look-up/look-down
 * gestures guarded by the `is_looking_up` flag. Reading, moving, spinning and the mode
 * switches are the shared tracker of module BodyShared.
 */
module BodyV2 {
  import opened Numeric
  import opened Wrappers
  import opened Dynamixel
  import opened BodyShared

  // ---------------------------------------------------------------- s-curve

  /** The smoothstep `3s^2 - 2s^3`. */
  function Smooth(s: real): real
  {
    3.0 * s * s - 2.0 * s * s * s
  }

  /** `_scurve_interpolate`: `int(start + (end - start) * smooth(s))`. */
  function Interpolate(start: int, end: int, s: real): (r: int)
    ensures s == 0.0 ==> r == start
    ensures s == 1.0 ==> r == end
  {
    assert Smooth(0.0) == 0.0 && Smooth(1.0) == 1.0;
    assert (end - start) as real * 0.0 == 0.0;
    assert (end - start) as real * 1.0 == (end - start) as real;
    Trunc(Lerp(start, end, Smooth(s)))
  }

  /** The point a fraction `h` of the way from `start` to `end`, before truncation. */
  function Lerp(start: int, end: int, h: real): real
  {
    start as real + (end - start) as real * h
  }

  /** Over [0, 1] the smoothstep rises from 0 to 1 and never leaves [0, 1]. */
  lemma SmoothInUnit(s: real)
    requires 0.0 <= s <= 1.0
    ensures 0.0 <= Smooth(s) <= 1.0
  {
    assert Smooth(s) == (s * s) * (3.0 - 2.0 * s);
    MulNonNegative(s, s);
    MulNonNegative(s * s, 3.0 - 2.0 * s);
    assert 1.0 - Smooth(s) == ((1.0 - s) * (1.0 - s)) * (1.0 + 2.0 * s);
    MulNonNegative(1.0 - s, 1.0 - s);
    MulNonNegative((1.0 - s) * (1.0 - s), 1.0 + 2.0 * s);
  }

  /** The curve starts exactly at `start` and would end exactly at `end`. */
  lemma InterpolateEnds(start: int, end: int)
    ensures Interpolate(start, end, 0.0) == start
    ensures Interpolate(start, end, 1.0) == end
  {
    assert Smooth(0.0) == 0.0 && Smooth(1.0) == 1.0;
    assert (end - start) as real * 0.0 == 0.0;
    assert (end - start) as real * 1.0 == (end - start) as real;
  }

  /** Truncating a point between two integers stays between them. */
  lemma LerpBetween(start: int, end: int, h: real)
    requires 0.0 <= h <= 1.0
    ensures Min(start, end) <= Trunc(Lerp(start, end, h)) <= Max(start, end)
  {
    LerpBounds(start, end, h);
    TruncBetween(Lerp(start, end, h), Min(start, end), Max(start, end));
  }

  /** A fraction in [0, 1] of the way between two points lies between them. */
  lemma LerpBounds(start: int, end: int, h: real)
    requires 0.0 <= h <= 1.0
    ensures Min(start, end) as real <= Lerp(start, end, h) <= Max(start, end) as real
  {
    var d := (end - start) as real;
    if start <= end {
      ScaleInRange(h, d);
      assert h * d == d * h;
    } else {
      ScaleInRange(h, -d);
      assert h * -d == -(d * h);
    }
  }

  /**
   * The curve starts exactly at `start`, would end exactly at `end`, and in between never
   * overshoots either endpoint.
   */
  lemma InterpolateBetween(start: int, end: int, s: real)
    requires 0.0 <= s <= 1.0
    ensures Interpolate(start, end, 0.0) == start
    ensures Interpolate(start, end, 1.0) == end
    ensures Min(start, end) <= Interpolate(start, end, s) <= Max(start, end)
  {
    InterpolateEnds(start, end);
    SmoothInUnit(s);
    LerpBetween(start, end, Smooth(s));
  }

  // ---------------------------------------------------------------- smooth move

  /** One `(dxl_id, start_pos, end_pos, speed)` entry of `layer_configs`. */
  datatype LayerConfig = LayerConfig(id: int, startPos: int, endPos: int, speed: int)

  /** The writes of one step at parameter `t`: speed then goal for every layer, in order. */
  function StepWrites(cs: seq<LayerConfig>, t: real): (r: seq<Access>)
    ensures |r| == 2 * |cs|
  {
    if cs == [] then []
    else
      var c := cs[|cs| - 1];
      StepWrites(cs[..|cs| - 1], t)
        + [WriteWord(c.id, AddrMovingSpeed, Clamp(c.speed, 0, 1023)),
           WriteWord(c.id, AddrGoalPosition, Clamp(Interpolate(c.startPos, c.endPos, t), 0, 1023))]
  }

  /** The estimates after one step at parameter `t`: each layer's clamped interpolated goal. */
  function StepTracked(m: map<int, int>, cs: seq<LayerConfig>, t: real): map<int, int>
  {
    if cs == [] then m
    else
      var c := cs[|cs| - 1];
      StepTracked(m, cs[..|cs| - 1], t)[c.id := Clamp(Interpolate(c.startPos, c.endPos, t), 0, 1023)]
  }

  /** The parameter of step `i` out of `steps`: `i / steps`. */
  function StepParam(i: int, steps: int): real
    requires steps > 0
  {
    i as real / steps as real
  }

  /** The writes of steps `0 .. n - 1`. */
  function SmoothWrites(cs: seq<LayerConfig>, steps: int, n: nat): seq<Access>
    requires steps > 0
  {
    if n == 0 then [] else SmoothWrites(cs, steps, n - 1) + StepWrites(cs, StepParam(n - 1, steps))
  }

  /** The estimate a step leaves for a layer does not depend on the estimates before it. */
  lemma {:induction false} StepTrackedAt(m1: map<int, int>, m2: map<int, int>, cs: seq<LayerConfig>, t: real, id: int)
    ensures id in StepTracked(m1, cs, t) <==> id in m1 || exists k :: 0 <= k < |cs| && cs[k].id == id
    ensures (exists k :: 0 <= k < |cs| && cs[k].id == id) ==>
              id in StepTracked(m1, cs, t) && id in StepTracked(m2, cs, t)
              && StepTracked(m1, cs, t)[id] == StepTracked(m2, cs, t)[id]
    ensures (forall k :: 0 <= k < |cs| ==> cs[k].id != id) && id in m1 ==> StepTracked(m1, cs, t)[id] == m1[id]
  {
    if cs != [] {
      var init := cs[..|cs| - 1];
      StepTrackedAt(m1, m2, init, t, id);
      if cs[|cs| - 1].id != id {
        if exists k :: 0 <= k < |cs| && cs[k].id == id {
          var k :| 0 <= k < |cs| && cs[k].id == id;
          assert init[k].id == id;
        }
        if exists k :: 0 <= k < |init| && init[k].id == id {
          var k :| 0 <= k < |init| && init[k].id == id;
          assert cs[k].id == id;
        }
      }
    }
  }

  /** Each step overwrites the estimates of the same servos, so a later step erases an earlier one. */
  lemma StepOverwrites(m: map<int, int>, cs: seq<LayerConfig>, t1: real, t2: real)
    ensures StepTracked(StepTracked(m, cs, t1), cs, t2) == StepTracked(m, cs, t2)
  {
    var a := StepTracked(StepTracked(m, cs, t1), cs, t2);
    var b := StepTracked(m, cs, t2);
    forall id ensures (id in a <==> id in b) && (id in a ==> a[id] == b[id]) {
      StepTrackedAt(StepTracked(m, cs, t1), m, cs, t2, id);
      StepTrackedAt(m, m, cs, t1, id);
      StepTrackedAt(m, m, cs, t2, id);
    }
  }

  /** With distinct servos, a step leaves each layer at its own clamped interpolated goal. */
  lemma {:induction false} StepTrackedLayer(m: map<int, int>, cs: seq<LayerConfig>, t: real, k: nat)
    requires k < |cs|
    requires forall i, j :: 0 <= i < j < |cs| ==> cs[i].id != cs[j].id
    ensures cs[k].id in StepTracked(m, cs, t)
    ensures StepTracked(m, cs, t)[cs[k].id] == Clamp(Interpolate(cs[k].startPos, cs[k].endPos, t), 0, 1023)
  {
    if k < |cs| - 1 {
      StepTrackedLayer(m, cs[..|cs| - 1], t, k);
    }
  }

  /**
   * `move_positions_smooth` ends one step short of the target: the last parameter is
   * `(steps - 1) / steps`, so a 0-to-1000 move in the default 50 steps stops at 998.
   */
  lemma SmoothStopsShort()
    ensures StepParam(49, 50) < 1.0
    ensures Interpolate(0, 1000, StepParam(49, 50)) == 998
  {
    assert StepParam(49, 50) == 0.98;
    assert Smooth(0.98) == 0.998816;
  }

  /** The inner loop of `move_positions_smooth`: one `move_position` per layer at parameter `t`. */
  method MoveLayers(b: Body, cs: seq<LayerConfig>, t: real)
    requires b.Valid()
    modifies b, b.bus
    ensures b.Valid() && b.currentMode == old(b.currentMode) && b.isLookingUp == old(b.isLookingUp)
    ensures b.trackedPositions == StepTracked(old(b.trackedPositions), cs, t)
    ensures b.bus.log == old(b.bus.log) + StepWrites(cs, t)
    ensures b.bus.replies == old(b.bus.replies)
  {
    var j := 0;
    while j < |cs|
      invariant j <= |cs| && b.Valid() && b.currentMode == old(b.currentMode) && b.isLookingUp == old(b.isLookingUp)
      invariant b.trackedPositions == StepTracked(old(b.trackedPositions), cs[..j], t)
      invariant b.bus.log == old(b.bus.log) + StepWrites(cs[..j], t)
      invariant b.bus.replies == old(b.bus.replies)
    {
      var c := cs[j];
      var pos := Interpolate(c.startPos, c.endPos, t);
      b.MovePosition(c.id, pos, c.speed);
      assert cs[..j + 1][..j] == cs[..j];
      j := j + 1;
    }
    assert cs[..|cs|] == cs;
  }

  /**
   * `move_positions_smooth` (the sleeps aside): steps `0 .. steps - 1`, each moving every
   * layer to its interpolated position. The estimates end at the last step's positions.
   */
  method MovePositionsSmooth(b: Body, cs: seq<LayerConfig>, steps: int)
    requires b.Valid()
    modifies b, b.bus
    ensures b.Valid() && b.currentMode == old(b.currentMode) && b.isLookingUp == old(b.isLookingUp)
    ensures steps <= 0 ==> b.trackedPositions == old(b.trackedPositions) && b.bus.log == old(b.bus.log)
    ensures steps > 0 ==>
      && b.trackedPositions == StepTracked(old(b.trackedPositions), cs, StepParam(steps - 1, steps))
      && b.bus.log == old(b.bus.log) + SmoothWrites(cs, steps, steps)
    ensures b.bus.replies == old(b.bus.replies)
  {
    if steps <= 0 {
      return;
    }
    ghost var m0 := b.trackedPositions;
    var i := 0;
    while i < steps
      invariant 0 <= i <= steps && b.Valid()
      invariant b.currentMode == old(b.currentMode) && b.isLookingUp == old(b.isLookingUp)
      invariant b.trackedPositions == SmoothTracked(m0, cs, steps, i)
      invariant b.bus.log == old(b.bus.log) + SmoothWrites(cs, steps, i)
      invariant b.bus.replies == old(b.bus.replies)
    {
      SmoothStep(b, cs, steps, i, m0);
      assert SmoothWrites(cs, steps, i + 1) == SmoothWrites(cs, steps, i) + StepWrites(cs, StepParam(i, steps));
      i := i + 1;
    }
  }

  /** The estimates after the first `n` steps of `move_positions_smooth`. */
  ghost function SmoothTracked(m0: map<int, int>, cs: seq<LayerConfig>, steps: int, n: int): map<int, int>
    requires steps > 0
  {
    if n <= 0 then m0 else StepTracked(m0, cs, StepParam(n - 1, steps))
  }

  /** Step `i` of `move_positions_smooth`: every layer moves to its position at `i / steps`. */
  method SmoothStep(b: Body, cs: seq<LayerConfig>, steps: int, i: int, ghost m0: map<int, int>)
    requires b.Valid() && 0 <= i < steps
    requires b.trackedPositions == SmoothTracked(m0, cs, steps, i)
    modifies b, b.bus
    ensures b.Valid() && b.currentMode == old(b.currentMode) && b.isLookingUp == old(b.isLookingUp)
    ensures b.trackedPositions == SmoothTracked(m0, cs, steps, i + 1)
    ensures b.bus.log == old(b.bus.log) + StepWrites(cs, StepParam(i, steps))
    ensures b.bus.replies == old(b.bus.replies)
  {
    var t := i as real / steps as real;
    MoveLayers(b, cs, t);
    if i > 0 {
      StepOverwrites(m0, cs, StepParam(i - 1, steps), t);
    }
  }

  /** With distinct servos, every layer's estimate ends at its interpolated position at `(steps - 1) / steps`. */
  lemma SmoothFinalPositions(m: map<int, int>, cs: seq<LayerConfig>, steps: int, k: nat)
    requires steps > 0 && k < |cs|
    requires forall i, j :: 0 <= i < j < |cs| ==> cs[i].id != cs[j].id
    ensures cs[k].id in StepTracked(m, cs, StepParam(steps - 1, steps))
    ensures StepTracked(m, cs, StepParam(steps - 1, steps))[cs[k].id]
         == Clamp(Interpolate(cs[k].startPos, cs[k].endPos, StepParam(steps - 1, steps)), 0, 1023)
  {
    StepTrackedLayer(m, cs, StepParam(steps - 1, steps), k);
  }

  // ---------------------------------------------------------------- normalising geared rotation

  /** Cylinder teeth over servo teeth; this version divides the target by the ratio. */
  const BaseRatio: real := 32.0 / 10.0
  const BodyRatio: real := 32.0 / 16.0
  const HeadRatio: real := 24.0 / 11.0

  /** `max(abs(v) for v in servo_rot.values()) or 1`. */
  function MaxRot(a: real, b: real, c: real): (r: real)
    ensures r > 0.0
    ensures RealAbs(a) <= r && RealAbs(b) <= r && RealAbs(c) <= r
    ensures r == RealAbs(a) || r == RealAbs(b) || r == RealAbs(c) || (r == 1.0 && a == b == c == 0.0)
  {
    var m := if RealAbs(a) >= RealAbs(b) && RealAbs(a) >= RealAbs(c) then RealAbs(a)
             else if RealAbs(b) >= RealAbs(c) then RealAbs(b) else RealAbs(c);
    if m == 0.0 then 1.0 else m
  }

  /** `int(relative * max_speed * direction)` for one servo rotation. */
  function NormalisedSpeed(deg: real, maxRot: real, maxSpeed: int): (r: int)
    requires maxRot > 0.0
    ensures RealAbs(deg) <= maxRot && maxSpeed >= 0 ==> -maxSpeed <= r <= maxSpeed
  {
    var direction := if deg >= 0.0 then 1.0 else -1.0;
    var scaled := RealAbs(deg) / maxRot * maxSpeed as real;
    assert scaled * 1.0 == scaled && scaled * -1.0 == -scaled;
    if RealAbs(deg) <= maxRot && maxSpeed >= 0 then
      FractionInUnit(RealAbs(deg), maxRot);
      ScaledTrunc(RealAbs(deg) / maxRot, maxSpeed);
      Trunc(scaled * direction)
    else Trunc(scaled * direction)
  }


  /** `servo_rot`: each target divided by its ratio, in dictionary order: base, body, head. */
  function Rotations(baseDeg: real, bodyDeg: real, headDeg: real): (r: seq<real>)
    ensures |r| == 3
  {
    [baseDeg / BaseRatio, bodyDeg / BodyRatio, headDeg / HeadRatio]
  }

  /** The commands in dictionary order: base, body, head. */
  function PlanV2(baseDeg: real, bodyDeg: real, headDeg: real, maxSpeed: int): (r: seq<Command>)
    ensures |r| == 3 && r[0].id == BaseId && r[1].id == BodyId && r[2].id == HeadId
  {
    var rots := Rotations(baseDeg, bodyDeg, headDeg);
    var mr := MaxRot(rots[0], rots[1], rots[2]);
    [ Command(BaseId, NormalisedSpeed(rots[0], mr, maxSpeed)),
      Command(BodyId, NormalisedSpeed(rots[1], mr, maxSpeed)),
      Command(HeadId, NormalisedSpeed(rots[2], mr, maxSpeed)) ]
  }

  /** The speed of a rotation is the truncated scaled fraction, negated for a negative rotation. */
  lemma NormalisedSpeedUnfold(deg: real, maxRot: real, maxSpeed: int)
    requires maxRot > 0.0
    ensures NormalisedSpeed(deg, maxRot, maxSpeed) ==
      if deg >= 0.0 then Trunc(RealAbs(deg) / maxRot * maxSpeed as real)
      else Trunc(-(RealAbs(deg) / maxRot * maxSpeed as real))
  {
    var x := RealAbs(deg) / maxRot * maxSpeed as real;
    assert x * 1.0 == x && x * -1.0 == -x;
  }

  /** A fraction of the cap, truncated either way round, stays within the cap. */
  lemma ScaledTrunc(rel: real, maxSpeed: int)
    requires 0.0 <= rel <= 1.0 && maxSpeed >= 0
    ensures 0 <= Trunc(rel * maxSpeed as real) <= maxSpeed
    ensures -maxSpeed <= Trunc(-(rel * maxSpeed as real)) <= 0
  {
    ScaleInRange(rel, maxSpeed as real);
    TruncBetween(rel * maxSpeed as real, 0, maxSpeed);
    TruncBetween(-(rel * maxSpeed as real), -maxSpeed, 0);
  }

  /** A rotation no larger than the largest gets at most the cap, with the rotation's sign. */
  lemma NormalisedSpeedBounds(deg: real, maxRot: real, maxSpeed: int)
    requires maxRot > 0.0 && RealAbs(deg) <= maxRot && maxSpeed >= 0
    ensures Abs(NormalisedSpeed(deg, maxRot, maxSpeed)) <= maxSpeed
    ensures deg > 0.0 ==> NormalisedSpeed(deg, maxRot, maxSpeed) >= 0
    ensures deg < 0.0 ==> NormalisedSpeed(deg, maxRot, maxSpeed) <= 0
    ensures deg == 0.0 ==> NormalisedSpeed(deg, maxRot, maxSpeed) == 0
  {
    NormalisedSpeedUnfold(deg, maxRot, maxSpeed);
    FractionInUnit(RealAbs(deg), maxRot);
    ScaledTrunc(RealAbs(deg) / maxRot, maxSpeed);
    if deg == 0.0 {
      assert RealAbs(deg) / maxRot == 0.0;
      assert RealAbs(deg) / maxRot * maxSpeed as real == 0.0;
    }
  }

  /** The largest rotation runs at exactly the cap, in its own direction. */
  lemma NormalisedSpeedFull(deg: real, maxSpeed: int)
    requires deg != 0.0
    ensures NormalisedSpeed(deg, RealAbs(deg), maxSpeed) == if deg >= 0.0 then maxSpeed else -maxSpeed
  {
    var a := RealAbs(deg);
    assert a > 0.0;
    NormalisedSpeedUnfold(deg, a, maxSpeed);
    assert a / a == 1.0;
    assert a / a * maxSpeed as real == maxSpeed as real;
  }

  /**
   * Every planned speed is within the cap with its rotation's sign, and the joint with the
   * largest rotation runs at exactly the cap.
   */
  lemma PlanV2Bounds(baseDeg: real, bodyDeg: real, headDeg: real, maxSpeed: int, k: nat)
    requires maxSpeed >= 0 && k < 3
    ensures var p := PlanV2(baseDeg, bodyDeg, headDeg, maxSpeed);
      var rots := Rotations(baseDeg, bodyDeg, headDeg);
      && Abs(p[k].speed) <= maxSpeed
      && (rots[k] > 0.0 ==> p[k].speed >= 0)
      && (rots[k] < 0.0 ==> p[k].speed <= 0)
      && ((rots[k] != 0.0 && forall j :: 0 <= j < 3 ==> RealAbs(rots[j]) <= RealAbs(rots[k]))
          ==> p[k].speed == if rots[k] >= 0.0 then maxSpeed else -maxSpeed)
  {
    var rots := Rotations(baseDeg, bodyDeg, headDeg);
    var mr := MaxRot(rots[0], rots[1], rots[2]);
    assert RealAbs(rots[k]) <= mr;
    NormalisedSpeedBounds(rots[k], mr, maxSpeed);
    if rots[k] != 0.0 && forall j :: 0 <= j < 3 ==> RealAbs(rots[j]) <= RealAbs(rots[k]) {
      assert mr == RealAbs(rots[k]);
      NormalisedSpeedFull(rots[k], maxSpeed);
    }
  }

  /** All-zero targets plan all-zero speeds: the `or 1` guard keeps the division defined. */
  lemma PlanV2Zero(maxSpeed: int)
    ensures PlanV2(0.0, 0.0, 0.0, maxSpeed) == [Command(BaseId, 0), Command(BodyId, 0), Command(HeadId, 0)]
  {
    assert Rotations(0.0, 0.0, 0.0) == [0.0, 0.0, 0.0];
    assert MaxRot(0.0, 0.0, 0.0) == 1.0;
  }

  /** `time.sleep` refuses a negative length with `ValueError`. */
  datatype SleepError = NegativeSleep

  /**
   * `rotate_wheel_geared`: wheel mode, the planned speeds, a stop, the negated speeds, a
   * stop, and joint mode, which re-reads every tracked position. A negative `total_time`
   * makes the first sleep raise right after the planned speeds are sent, leaving the
   * servos spinning in wheel mode with the estimates not re-read.
   */
  method RotateWheelGeared(b: Body, baseDeg: real, bodyDeg: real, headDeg: real, totalTime: real, maxSpeed: int)
    returns (r: Outcome<SleepError>)
    requires b.Valid()
    modifies b, b.bus
    ensures totalTime < 0.0 ==>
      && r == Fail(NegativeSleep)
      && b.Valid() && b.currentMode == Wheel && b.isLookingUp == old(b.isLookingUp)
      && b.trackedPositions == old(b.trackedPositions)
      && b.bus.log == old(b.bus.log) + ForEach(b.ids, WheelModeOf) + SpeedWrites(PlanV2(baseDeg, bodyDeg, headDeg, maxSpeed), false)
      && b.bus.replies == old(b.bus.replies)
    ensures totalTime >= 0.0 ==>
      var plan := PlanV2(baseDeg, bodyDeg, headDeg, maxSpeed);
      && r == Pass
      && b.Valid() && b.currentMode == Joint && b.isLookingUp == old(b.isLookingUp)
      && b.trackedPositions == Resync(old(b.trackedPositions), b.ids, old(b.bus.replies), |b.ids|)
      && b.bus.log == old(b.bus.log) + ForEach(b.ids, WheelModeOf) + SpeedWrites(plan, false) + ForEach(b.ids, StopOf)
                      + SpeedWrites(plan, true) + ForEach(b.ids, StopOf) + ForEach(b.ids, JointModeOf)
      && b.bus.replies == Drop(old(b.bus.replies), |b.ids|)
  {
    b.SetWheelMode();
    var plan := PlanV2(baseDeg, bodyDeg, headDeg, maxSpeed);
    DriveLeg(b, plan, false);
    if totalTime < 0.0 {
      return Fail(NegativeSleep);
    }
    b.StopWheels();
    DriveLeg(b, plan, true);
    b.StopWheels();
    b.SetJointMode();
    return Pass;
  }

  // ---------------------------------------------------------------- look up / look down

  /** One `(dxl_id, speed, duration)` entry of a wheel movement; the duration only times a stop. */
  datatype WheelConfig = WheelConfig(id: int, speed: int, duration: real)

  function StartCommands(cs: seq<WheelConfig>): (r: seq<Command>)
    ensures |r| == |cs|
    ensures forall k :: 0 <= k < |cs| ==> r[k] == Command(cs[k].id, cs[k].speed)
  {
    if cs == [] then [] else StartCommands(cs[..|cs| - 1]) + [Command(cs[|cs| - 1].id, cs[|cs| - 1].speed)]
  }

  /** `look_up`'s movement: base backwards, head forwards. */
  const LookUpMoves: seq<WheelConfig> := [WheelConfig(BaseId, -600, 2.0), WheelConfig(HeadId, 500, 2.0)]

  /** `look_down`'s movement: the reverse of `look_up`'s. */
  const LookDownMoves: seq<WheelConfig> := [WheelConfig(BaseId, 600, 2.0), WheelConfig(HeadId, -500, 2.0)]

  /** The look-down movement drives each servo at the negation of the look-up movement. */
  lemma LookDownUndoesLookUp()
    ensures StartCommands(LookDownMoves) == [Command(BaseId, 600), Command(HeadId, -500)]
    ensures forall k :: 0 <= k < 2 ==>
      (StartCommands(LookDownMoves)[k].id == StartCommands(LookUpMoves)[k].id
       && StartCommands(LookDownMoves)[k].speed == -StartCommands(LookUpMoves)[k].speed)
  {
  }

  // ---------------------------------------------------------------- the polling loop

  /** Each configured servo at speed 0, in configuration order. */
  function Halts(cs: seq<WheelConfig>): (r: seq<Command>)
    ensures |r| == |cs|
    ensures forall k :: 0 <= k < |cs| ==> r[k] == Command(cs[k].id, 0)
  {
    if cs == [] then [] else Halts(cs[..|cs| - 1]) + [Command(cs[|cs| - 1].id, 0)]
  }

  /** The `wheel_speed(id, 0)` calls of one polling pass: each configuration whose duration has passed at `t`. */
  function DueStops(cs: seq<WheelConfig>, t: real): seq<Command>
  {
    if cs == [] then []
    else
      var c := cs[|cs| - 1];
      DueStops(cs[..|cs| - 1], t) + (if c.duration <= t then [Command(c.id, 0)] else [])
  }

  /** `all_servos_stopped` after a pass at `t`: every duration has passed. */
  predicate AllDue(cs: seq<WheelConfig>, t: real)
  {
    forall k :: 0 <= k < |cs| ==> cs[k].duration <= t
  }

  /** The loop stops after a pass at `t` when every servo is due or three seconds have gone by. */
  predicate PollEnds(cs: seq<WheelConfig>, t: real)
  {
    AllDue(cs, t) || t >= 3.0
  }

  /**
   * The writes of the polling loop, pass by pass, where `clock` holds the successive readings
   * of `time.time() - start`; readings after the pass that ends the loop are never taken.
   */
  function Polling(cs: seq<WheelConfig>, clock: seq<real>): seq<Access>
  {
    if clock == [] then []
    else SpeedWrites(DueStops(cs, clock[0]), false) + (if PollEnds(cs, clock[0]) then [] else Polling(cs, clock[1..]))
  }

  /** The clock eventually reads three seconds, so the polling loop ends. */
  predicate ReachesLimit(clock: seq<real>)
  {
    exists q :: 0 <= q < |clock| && clock[q] >= 3.0
  }

  lemma {:induction false} DueStopsAllDue(cs: seq<WheelConfig>, t: real)
    requires AllDue(cs, t)
    ensures DueStops(cs, t) == Halts(cs)
  {
    if cs != [] {
      DueStopsAllDue(cs[..|cs| - 1], t);
    }
  }

  lemma {:induction false} DueStopsNoneDue(cs: seq<WheelConfig>, t: real)
    requires forall k :: 0 <= k < |cs| ==> t < cs[k].duration
    ensures DueStops(cs, t) == []
  {
    if cs != [] {
      DueStopsNoneDue(cs[..|cs| - 1], t);
    }
  }

  /**
   * When every configuration has the same duration of at most three seconds, the polling loop
   * writes nothing until that duration has passed, then speed 0 to each servo once, in
   * configuration order, and stops, however the clock advances.
   */
  lemma {:induction false} PollingUniform(cs: seq<WheelConfig>, d: real, clock: seq<real>)
    requires forall k :: 0 <= k < |cs| ==> cs[k].duration == d
    requires d <= 3.0
    requires ReachesLimit(clock)
    ensures Polling(cs, clock) == SpeedWrites(Halts(cs), false)
  {
    var q :| 0 <= q < |clock| && clock[q] >= 3.0;
    if AllDue(cs, clock[0]) {
      DueStopsAllDue(cs, clock[0]);
    } else {
      DueStopsNoneDue(cs, clock[0]);
      assert q != 0;
      assert clock[1..][q - 1] == clock[q];
      PollingUniform(cs, d, clock[1..]);
    }
  }

  lemma DueStopsStep(cs: seq<WheelConfig>, k: nat, t: real)
    requires k < |cs|
    ensures DueStops(cs[..k + 1], t) == DueStops(cs[..k], t) + (if cs[k].duration <= t then [Command(cs[k].id, 0)] else [])
  {
    assert cs[..k + 1][..k] == cs[..k];
  }

  lemma AllDueStep(cs: seq<WheelConfig>, k: nat, t: real)
    requires k < |cs|
    ensures AllDue(cs[..k + 1], t) == (AllDue(cs[..k], t) && cs[k].duration <= t)
  {
    assert forall j :: 0 <= j < k ==> cs[..k + 1][j] == cs[..k][j];
  }

  /** A pass that does not end the loop hands the remaining writes on to the next reading. */
  lemma PollingAdvance(cs: seq<WheelConfig>, clock: seq<real>, p: nat, before: seq<Access>)
    requires p < |clock| && !PollEnds(cs, clock[p])
    ensures before + Polling(cs, clock[p..])
         == (before + SpeedWrites(DueStops(cs, clock[p]), false)) + Polling(cs, clock[p + 1..])
  {
    assert clock[p..][0] == clock[p] && clock[p..][1..] == clock[p + 1..];
  }

  /** The pass that ends the loop makes its writes and nothing more. */
  lemma PollingFinish(cs: seq<WheelConfig>, clock: seq<real>, p: nat, before: seq<Access>)
    requires p < |clock| && PollEnds(cs, clock[p])
    ensures before + Polling(cs, clock[p..]) == before + SpeedWrites(DueStops(cs, clock[p]), false)
  {
    assert clock[p..][0] == clock[p];
  }

  /** A pass's writes grow by one halt exactly when the next configuration is due. */
  lemma PassWritesStep(cs: seq<WheelConfig>, k: nat, t: real)
    requires k < |cs|
    ensures cs[k].duration <= t ==>
      SpeedWrites(DueStops(cs[..k + 1], t), false)
        == SpeedWrites(DueStops(cs[..k], t), false) + [WriteWord(cs[k].id, AddrMovingSpeed, WheelWord(0))]
    ensures cs[k].duration > t ==> SpeedWrites(DueStops(cs[..k + 1], t), false) == SpeedWrites(DueStops(cs[..k], t), false)
  {
    DueStopsStep(cs, k, t);
    var ds := DueStops(cs[..k], t);
    if cs[k].duration <= t {
      assert (ds + [Command(cs[k].id, 0)])[..|ds|] == ds;
    } else {
      assert ds + [] == ds;
    }
  }

  /** One pass of the polling loop at elapsed time `t`: speed 0 to every servo that is due. */
  method PollPass(b: Body, cs: seq<WheelConfig>, t: real) returns (allStopped: bool)
    modifies b.bus
    ensures allStopped == AllDue(cs, t)
    ensures b.bus.log == old(b.bus.log) + SpeedWrites(DueStops(cs, t), false)
    ensures b.bus.replies == old(b.bus.replies)
  {
    allStopped := true;
    var k := 0;
    while k < |cs|
      invariant k <= |cs|
      invariant allStopped == AllDue(cs[..k], t)
      invariant b.bus.log == old(b.bus.log) + SpeedWrites(DueStops(cs[..k], t), false)
      invariant b.bus.replies == old(b.bus.replies)
    {
      PassWritesStep(cs, k, t);
      AllDueStep(cs, k, t);
      if cs[k].duration <= t {
        b.WheelSpeed(cs[k].id, 0);
      } else {
        allStopped := false;
      }
      k := k + 1;
    }
    assert cs[..k] == cs;
  }

  /** A reading below three seconds does not end the loop, so the limit is still ahead. */
  lemma ReachesLimitTail(clock: seq<real>, p: nat)
    requires p < |clock| && ReachesLimit(clock[p..]) && clock[p] < 3.0
    ensures p + 1 < |clock| && ReachesLimit(clock[p + 1..])
  {
    var q :| 0 <= q < |clock[p..]| && clock[p..][q] >= 3.0;
    assert q != 0;
    assert clock[p + 1..][q - 1] == clock[p..][q];
  }

  /** The polling loop: passes at the successive clock readings until one ends it. */
  method Poll(b: Body, cs: seq<WheelConfig>, clock: seq<real>)
    requires ReachesLimit(clock)
    modifies b.bus
    ensures b.bus.log == old(b.bus.log) + Polling(cs, clock)
    ensures b.bus.replies == old(b.bus.replies)
  {
    var p := 0;
    assert clock[0..] == clock;
    while true
      invariant p < |clock| && ReachesLimit(clock[p..])
      invariant b.bus.log + Polling(cs, clock[p..]) == old(b.bus.log) + Polling(cs, clock)
      invariant b.bus.replies == old(b.bus.replies)
      decreases |clock| - p
    {
      var elapsed := clock[p];
      ghost var before := b.bus.log;
      var allStopped := PollPass(b, cs, elapsed);
      if allStopped || elapsed >= 3.0 {
        PollingFinish(cs, clock, p, before);
        break;
      }
      PollingAdvance(cs, clock, p, before);
      ReachesLimitTail(clock, p);
      p := p + 1;
    }
  }

  // ---------------------------------------------------------------- look up / look down

  /**
   * `_run_wheel_movements(cs, go_back=False)`: wheel mode, each start speed, the polling loop
   * at the readings of `clock`, a stop of every servo, then joint mode.
   */
  method RunWheelMovements(b: Body, cs: seq<WheelConfig>, clock: seq<real>)
    requires b.Valid()
    requires ReachesLimit(clock)
    modifies b, b.bus
    ensures b.Valid() && b.currentMode == Joint && b.isLookingUp == old(b.isLookingUp)
    ensures b.trackedPositions == Resync(old(b.trackedPositions), b.ids, old(b.bus.replies), |b.ids|)
    ensures b.bus.log == old(b.bus.log) + ForEach(b.ids, WheelModeOf) + SpeedWrites(StartCommands(cs), false)
                         + Polling(cs, clock) + ForEach(b.ids, StopOf) + ForEach(b.ids, JointModeOf)
    ensures b.bus.replies == Drop(old(b.bus.replies), |b.ids|)
  {
    b.SetWheelMode();
    DriveLeg(b, StartCommands(cs), false);
    Poll(b, cs, clock);
    b.StopWheels();
    b.SetJointMode();
  }

  /**
   * `look_up`: nothing when already looking up; otherwise wheel mode, the look-up movement,
   * and the flag set. Both configurations last two seconds, so the polling loop halts each
   * servo exactly once. A second call is a no-op.
   */
  method LookUp(b: Body, clock: seq<real>)
    requires b.Valid()
    requires ReachesLimit(clock)
    modifies b, b.bus
    ensures b.Valid() && b.isLookingUp
    ensures old(b.isLookingUp) ==> unchanged(b) && unchanged(b.bus)
    ensures !old(b.isLookingUp) ==>
      && b.currentMode == Joint
      && b.trackedPositions == Resync(old(b.trackedPositions), b.ids, old(b.bus.replies), |b.ids|)
      && b.bus.log == old(b.bus.log) + ForEach(b.ids, WheelModeOf) + ForEach(b.ids, WheelModeOf)
                      + SpeedWrites(StartCommands(LookUpMoves), false) + SpeedWrites(Halts(LookUpMoves), false)
                      + ForEach(b.ids, StopOf) + ForEach(b.ids, JointModeOf)
      && b.bus.replies == Drop(old(b.bus.replies), |b.ids|)
  {
    if b.isLookingUp {
      return;
    }
    b.SetWheelMode();
    PollingUniform(LookUpMoves, 2.0, clock);
    RunWheelMovements(b, LookUpMoves, clock);
    b.isLookingUp := true;
  }

  /**
   * `look_down`: nothing unless looking up; otherwise wheel mode, the look-down movement,
   * and the flag cleared. Both configurations last two seconds, so the polling loop halts
   * each servo exactly once. A second call is a no-op.
   */
  method LookDown(b: Body, clock: seq<real>)
    requires b.Valid()
    requires ReachesLimit(clock)
    modifies b, b.bus
    ensures b.Valid() && !b.isLookingUp
    ensures !old(b.isLookingUp) ==> unchanged(b) && unchanged(b.bus)
    ensures old(b.isLookingUp) ==>
      && b.currentMode == Joint
      && b.trackedPositions == Resync(old(b.trackedPositions), b.ids, old(b.bus.replies), |b.ids|)
      && b.bus.log == old(b.bus.log) + ForEach(b.ids, WheelModeOf) + ForEach(b.ids, WheelModeOf)
                      + SpeedWrites(StartCommands(LookDownMoves), false) + SpeedWrites(Halts(LookDownMoves), false)
                      + ForEach(b.ids, StopOf) + ForEach(b.ids, JointModeOf)
      && b.bus.replies == Drop(old(b.bus.replies), |b.ids|)
  {
    if !b.isLookingUp {
      return;
    }
    b.SetWheelMode();
    PollingUniform(LookDownMoves, 2.0, clock);
    RunWheelMovements(b, LookDownMoves, clock);
    b.isLookingUp := false;
  }
}
