/**
 * The module-level helpers of servos/test_servos_movement.py, the bench script the body
 * drivers grew out of. Each helper is one computation followed by one bus transaction.
 */
module ServoTest {
  import opened Numeric
  import opened Wrappers
  import opened Dynamixel
  import BodyShared

  /** `wheel_speed`'s value: the direction bit set for a reverse speed, the magnitude capped at 1023. */
  function WheelSpeedValue(speed: int): (r: int)
    ensures 0 <= r <= 2047
    ensures r == Min(Abs(speed), 1023) + (if speed < 0 then 1024 else 0)
  {
    var direction := if speed < 0 then 1 else 0;
    var magnitude := if speed < 0 then -speed else speed;
    var capped := if magnitude > 1023 then 1023 else magnitude;
    assert capped == Min(Abs(speed), 1023) && direction * 1024 == (if speed < 0 then 1024 else 0);
    DirectionBit(capped, speed < 0);
    PyOr(capped, direction * 1024)
  }

  /** A forward speed sends `min(s, 1023)`, a reverse one `min(-s, 1023) + 1024`; always in [0, 2047]. */
  lemma WheelSpeedValueCases(speed: int)
    ensures speed >= 0 ==> WheelSpeedValue(speed) == Min(speed, 1023)
    ensures speed < 0 ==> WheelSpeedValue(speed) == Min(-speed, 1023) + 1024
    ensures 0 <= WheelSpeedValue(speed) <= 2047
  {
    DirectionBit(Min(Abs(speed), 1023), speed < 0);
  }

  /** The bench helper and the drivers of body_v2.py and body_v3.py send the same word for every speed. */
  lemma SameAsDriverWord(speed: int)
    ensures WheelSpeedValue(speed) == BodyShared.WheelWord(speed)
  {
    WheelSpeedValueCases(speed);
    BodyShared.WheelWordValue(speed);
  }

  /** The speed a Moving Speed word stands for: `value & 1023`, negated when `value >> 10` is set. */
  function DecodeSpeed(value: int): int
    requires 0 <= value
  {
    var magnitude := value % 1024;
    if value / 1024 == 1 then -magnitude else magnitude
  }

  /** Within range, decoding the sent word gives back the speed, magnitude and direction both. */
  lemma WheelSpeedRoundTrip(speed: int)
    requires -1023 <= speed <= 1023
    ensures 0 <= WheelSpeedValue(speed)
    ensures WheelSpeedValue(speed) % 1024 == Abs(speed)
    ensures WheelSpeedValue(speed) / 1024 == (if speed < 0 then 1 else 0)
    ensures DecodeSpeed(WheelSpeedValue(speed)) == speed
  {
    WheelSpeedValueCases(speed);
  }

  /** `wheel_speed`. */
  method WheelSpeed(bus: Bus, id: int, speed: int)
    modifies bus
    ensures bus.log == old(bus.log) + [WriteWord(id, AddrMovingSpeed, WheelSpeedValue(speed))]
    ensures bus.replies == old(bus.replies)
  {
    var s := speed;
    var direction := 0;
    if s < 0 {
      direction := 1;
      s := -s;
    }
    if s > 1023 {
      s := 1023;
    }
    var value := PyOr(s, direction * 1024);
    bus.WriteWord(id, AddrMovingSpeed, value);
  }

  /** `move_position`: the goal clamped to [0, 1023]. */
  method MovePosition(bus: Bus, id: int, pos: int)
    modifies bus
    ensures bus.log == old(bus.log) + [WriteWord(id, AddrGoalPosition, Clamp(pos, 0, MaxWord))]
    ensures bus.replies == old(bus.replies)
  {
    bus.WriteWord(id, AddrGoalPosition, Max(0, Min(1023, pos)));
  }

  /** `set_torque_limit`: the limit clamped to [0, 1023]. */
  method SetTorqueLimit(bus: Bus, id: int, limit: int)
    modifies bus
    ensures bus.log == old(bus.log) + [WriteWord(id, AddrTorqueLimit, Clamp(limit, 0, MaxWord))]
    ensures bus.replies == old(bus.replies)
  {
    bus.WriteWord(id, AddrTorqueLimit, Max(0, Min(1023, limit)));
  }

  /** `read_pos`: the present position when the read succeeded, `None` otherwise. */
  method ReadPos(bus: Bus, id: int) returns (pos: Option<int>)
    modifies bus
    ensures pos == ReadValue(ReplyAt(old(bus.replies), 0))
    ensures bus.log == old(bus.log) + [Read(id, AddrPresentPosition)] && bus.replies == Drop(old(bus.replies), 1)
  {
    var r := bus.Read(id, AddrPresentPosition);
    pos := if r.commOk && r.err == 0 then Some(r.value) else None;
  }
}
