/**
 * The geared wheel-mode planner of body/body_v3.py (`rotate_wheel_geared`): each cylinder's
 * target angle is turned into a servo rotation by multiplying by its gear ratio, the rotation
 * into a rate over the given duration, and the rate into a Moving Speed value relative to
 * 360 deg/s at full speed, truncated and capped. The servos then spin out, stop, optionally
 * spin back by the exact negation, stop, and the body returns to joint mode.
 */
module BodyV3 {
  import opened Numeric
  import opened Wrappers
  import opened Dynamixel
  import opened BodyShared

  /** Cylinder teeth over servo teeth. */
  const BaseRatio: real := 32.0 / 10.0
  const BodyRatio: real := 32.0 / 16.0
  const HeadRatio: real := 24.0 / 11.0

  /** The rate, in degrees per second, that `max_speed` stands for. */
  const DegPerSecAtMaxSpeed: real := 360.0

  /**
   * How `rotate_wheel_geared` raises: `ZeroDivisionError` from dividing by a zero duration,
   * before the bus is touched, or `ValueError` from `time.sleep` given a negative length.
   */
  datatype RotateError = ZeroDivision | NegativeSleep

  /** `min(speed_value, max_speed) * direction` for one cylinder. */
  function SignedSpeed(targetDeg: real, ratio: real, duration: real, maxSpeed: int): (r: int)
    requires duration != 0.0
    ensures duration > 0.0 && maxSpeed >= 0 ==>
      && -maxSpeed <= r <= maxSpeed
      && (targetDeg * ratio >= 0.0 ==> r >= 0)
      && (targetDeg * ratio < 0.0 ==> r <= 0)
  {
    var rotation := targetDeg * ratio;
    var degPerSec := RealAbs(rotation) / duration;
    assert duration > 0.0 && maxSpeed >= 0 ==> degPerSec / DegPerSecAtMaxSpeed * maxSpeed as real >= 0.0;
    var speedValue := Trunc(degPerSec / DegPerSecAtMaxSpeed * maxSpeed as real);
    var direction := if rotation >= 0.0 then 1 else -1;
    Min(speedValue, maxSpeed) * direction
  }

  /** The commands in the order the dictionary yields them: base, body, head. */
  function Plan(baseDeg: real, bodyDeg: real, headDeg: real, duration: real, maxSpeed: int): (r: seq<Command>)
    requires duration != 0.0
    ensures |r| == 3 && r[0].id == BaseId && r[1].id == BodyId && r[2].id == HeadId
  {
    [ Command(BaseId, SignedSpeed(baseDeg, BaseRatio, duration, maxSpeed)),
      Command(BodyId, SignedSpeed(bodyDeg, BodyRatio, duration, maxSpeed)),
      Command(HeadId, SignedSpeed(headDeg, HeadRatio, duration, maxSpeed)) ]
  }

  /**
   * For a positive duration and a non-negative cap, a command is at most the cap in
   * magnitude, is the truncated rate when that is below the cap, and has the sign of
   * target times ratio (zero for a zero target).
   */
  lemma SignedSpeedBounds(targetDeg: real, ratio: real, duration: real, maxSpeed: int)
    requires duration > 0.0 && maxSpeed >= 0
    ensures var s := SignedSpeed(targetDeg, ratio, duration, maxSpeed);
      var rotation := targetDeg * ratio;
      && Abs(s) <= maxSpeed
      && Abs(s) == Min(Trunc(RealAbs(rotation) / duration / DegPerSecAtMaxSpeed * maxSpeed as real), maxSpeed)
      && (rotation > 0.0 ==> s >= 0)
      && (rotation < 0.0 ==> s <= 0)
      && (rotation == 0.0 ==> s == 0)
  {
    var rotation := targetDeg * ratio;
    var x := RealAbs(rotation) / duration / DegPerSecAtMaxSpeed * maxSpeed as real;
    assert RealAbs(rotation) / duration >= 0.0;
    assert x >= 0.0;
    if rotation == 0.0 {
      assert RealAbs(rotation) == 0.0;
      assert x == 0.0;
    }
  }

  /** Every command of the plan is capped and signed as its target times ratio. */
  lemma PlanBounds(baseDeg: real, bodyDeg: real, headDeg: real, duration: real, maxSpeed: int)
    requires duration > 0.0 && maxSpeed >= 0
    ensures var p := Plan(baseDeg, bodyDeg, headDeg, duration, maxSpeed);
      && (forall k :: 0 <= k < 3 ==> Abs(p[k].speed) <= maxSpeed)
      && (baseDeg * BaseRatio > 0.0 ==> p[0].speed >= 0) && (baseDeg * BaseRatio < 0.0 ==> p[0].speed <= 0)
      && (bodyDeg * BodyRatio > 0.0 ==> p[1].speed >= 0) && (bodyDeg * BodyRatio < 0.0 ==> p[1].speed <= 0)
      && (headDeg * HeadRatio > 0.0 ==> p[2].speed >= 0) && (headDeg * HeadRatio < 0.0 ==> p[2].speed <= 0)
      && (headDeg == 0.0 ==> p[2].speed == 0)
  {
    SignedSpeedBounds(baseDeg, BaseRatio, duration, maxSpeed);
    SignedSpeedBounds(bodyDeg, BodyRatio, duration, maxSpeed);
    SignedSpeedBounds(headDeg, HeadRatio, duration, maxSpeed);
  }

  /**
   * Base 180, body -180 over 2 s at full speed: the base needs 576 servo degrees (288 deg/s,
   * 0.8 of full speed), the body 360 (180 deg/s, half speed), the head nothing.
   */
  lemma WorkedExample()
    ensures Plan(180.0, -180.0, 0.0, 2.0, 1023) == [Command(BaseId, 818), Command(BodyId, -511), Command(HeadId, 0)]
  {
    assert 180.0 * BaseRatio == 576.0;
    assert RealAbs(576.0) / 2.0 / DegPerSecAtMaxSpeed * 1023.0 == 818.4;
    assert -180.0 * BodyRatio == -360.0;
    assert RealAbs(-360.0) / 2.0 / DegPerSecAtMaxSpeed * 1023.0 == 511.5;
    assert 0.0 * HeadRatio == 0.0;
  }

  /**
   * With a positive duration and a cap within the servo's range, the `k`-th write of the
   * return leg goes to the same servo as the `k`-th outbound write, at the same magnitude
   * and, for a non-zero command, in the opposite direction.
   */
  lemma PlanLegsReverse(baseDeg: real, bodyDeg: real, headDeg: real, duration: real, maxSpeed: int, k: nat)
    requires duration > 0.0 && 0 <= maxSpeed <= MaxWord && k < 3
    ensures var p := Plan(baseDeg, bodyDeg, headDeg, duration, maxSpeed);
      && SpeedWrites(p, false)[k] == WriteWord(p[k].id, AddrMovingSpeed, WheelWord(p[k].speed))
      && SpeedWrites(p, true)[k] == WriteWord(p[k].id, AddrMovingSpeed, WheelWord(-p[k].speed))
      && DecodeWheelWord(WheelWord(p[k].speed)).0 == DecodeWheelWord(WheelWord(-p[k].speed)).0 == Abs(p[k].speed)
      && (p[k].speed != 0 ==> DecodeWheelWord(WheelWord(p[k].speed)).1 != DecodeWheelWord(WheelWord(-p[k].speed)).1)
  {
    var p := Plan(baseDeg, bodyDeg, headDeg, duration, maxSpeed);
    PlanBounds(baseDeg, bodyDeg, headDeg, duration, maxSpeed);
    SpeedWritesAt(p, false, k);
    SpeedWritesAt(p, true, k);
    NegatedWordReverses(p[k].speed);
  }

  /** The return leg: the negated commands and a stop when `return_to_start` is set, nothing otherwise. */
  function ReturnLeg(plan: seq<Command>, ids: seq<int>, returnToStart: bool): seq<Access>
  {
    if returnToStart then SpeedWrites(plan, true) + ForEach(ids, StopOf) else []
  }

  /**
   * `rotate_wheel_geared`: wheel mode, the outbound commands, a stop, optionally the negated
   * commands and a stop, then joint mode, which re-reads every tracked position. A zero
   * duration fails in the division, before any bus traffic. `time.sleep` refuses a negative
   * length, so a negative duration fails after the outbound commands, and a negative hold
   * after the first stop: either way the servos are left in wheel mode and the estimates
   * are not re-read.
   */
  method RotateWheelGeared(b: Body, baseDeg: real, bodyDeg: real, headDeg: real,
                           duration: real, maxSpeed: int, holdDuration: real, returnToStart: bool)
    returns (r: Outcome<RotateError>)
    requires b.Valid()
    modifies b, b.bus
    ensures duration == 0.0 ==> r == Fail(ZeroDivision) && unchanged(b) && unchanged(b.bus)
    ensures duration < 0.0 ==>
      && r == Fail(NegativeSleep)
      && b.Valid() && b.currentMode == Wheel && b.isLookingUp == old(b.isLookingUp)
      && b.trackedPositions == old(b.trackedPositions)
      && b.bus.log == old(b.bus.log) + ForEach(b.ids, WheelModeOf)
                      + SpeedWrites(Plan(baseDeg, bodyDeg, headDeg, duration, maxSpeed), false)
      && b.bus.replies == old(b.bus.replies)
    ensures duration > 0.0 && holdDuration < 0.0 ==>
      && r == Fail(NegativeSleep)
      && b.Valid() && b.currentMode == Wheel && b.isLookingUp == old(b.isLookingUp)
      && b.trackedPositions == old(b.trackedPositions)
      && b.bus.log == old(b.bus.log) + ForEach(b.ids, WheelModeOf)
                      + SpeedWrites(Plan(baseDeg, bodyDeg, headDeg, duration, maxSpeed), false) + ForEach(b.ids, StopOf)
      && b.bus.replies == old(b.bus.replies)
    ensures duration > 0.0 && holdDuration >= 0.0 ==>
      var plan := Plan(baseDeg, bodyDeg, headDeg, duration, maxSpeed);
      && r == Pass
      && b.Valid() && b.currentMode == Joint && b.isLookingUp == old(b.isLookingUp)
      && b.trackedPositions == Resync(old(b.trackedPositions), b.ids, old(b.bus.replies), |b.ids|)
      && b.bus.log == old(b.bus.log) + ForEach(b.ids, WheelModeOf) + SpeedWrites(plan, false) + ForEach(b.ids, StopOf)
                      + ReturnLeg(plan, b.ids, returnToStart) + ForEach(b.ids, JointModeOf)
      && b.bus.replies == Drop(old(b.bus.replies), |b.ids|)
  {
    if duration == 0.0 {
      return Fail(ZeroDivision);
    }
    var plan := Plan(baseDeg, bodyDeg, headDeg, duration, maxSpeed);
    b.SetWheelMode();
    DriveLeg(b, plan, false);
    if duration < 0.0 {
      return Fail(NegativeSleep);
    }
    b.StopWheels();
    if holdDuration < 0.0 {
      return Fail(NegativeSleep);
    }
    ghost var outbound := b.bus.log;
    ReturnAndRejoin(b, plan, returnToStart);
    assert b.bus.log == outbound + ReturnLeg(plan, b.ids, returnToStart) + ForEach(b.ids, JointModeOf);
    return Pass;
  }

  /** The end of `rotate_wheel_geared` after the hold: the optional return leg, then joint mode. */
  method ReturnAndRejoin(b: Body, plan: seq<Command>, returnToStart: bool)
    requires b.Valid()
    modifies b, b.bus
    ensures b.Valid() && b.currentMode == Joint && b.isLookingUp == old(b.isLookingUp)
    ensures b.trackedPositions == Resync(old(b.trackedPositions), b.ids, old(b.bus.replies), |b.ids|)
    ensures b.bus.log == old(b.bus.log) + ReturnLeg(plan, b.ids, returnToStart) + ForEach(b.ids, JointModeOf)
    ensures b.bus.replies == Drop(old(b.bus.replies), |b.ids|)
  {
    if returnToStart {
      DriveLeg(b, plan, true);
      b.StopWheels();
      assert b.bus.log == old(b.bus.log) + ReturnLeg(plan, b.ids, returnToStart);
    }
    b.SetJointMode();
  }
}
