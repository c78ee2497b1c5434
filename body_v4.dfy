/**
 * The rewritten driver of body/body_v4.py: a `DynamixelInterface` that pings, reads and
 * writes, and a `Body` that keeps a mode and a map of position estimates.
 *
 * The draft is unfinished, and several of its paths name attributes that do not exist:
 * `ControlTable.CWC_ANGLE_LIMIT` in `set_mode(JOINT)` and `self._clamo` in
 * `move_to_position`. Python raises `AttributeError` there, after whatever transactions
 * precede the faulty line; the model returns `Fail(AttributeError)` at the same point.
 */
module BodyV4 {
  import opened Numeric
  import opened Wrappers
  import opened Dynamixel
  import BodyShared

  /** `ServoID`: HEAD, BODY and BASE, in definition order; all three have the value 0. */
  const ServoIdValues: seq<int> := [0, 0, 0]

  const HomePosition := 512
  const MaxPos := 1023
  const MaxSpeed := 1023

  datatype OperationMode = Joint | Wheel

  datatype BodyError = NoServosDetected | AttributeError

  /** The place of the first occurrence of `x` in `values`. */
  function FirstIndex(values: seq<int>, x: int): (k: nat)
    requires x in values
    ensures k < |values| && values[k] == x && x !in values[..k]
  {
    if values[0] == x then 0
    else
      var k := 1 + FirstIndex(values[1..], x);
      assert values[..k] == [values[0]] + values[1..][..k - 1];
      k
  }

  /** A place holding `x` with no earlier `x` is the first occurrence. */
  lemma FirstIndexUnique(values: seq<int>, x: int, k: nat)
    requires k < |values| && values[k] == x && x !in values[..k]
    ensures FirstIndex(values, x) == k
  {
  }

  /** Within a prefix that contains `x`, the first occurrence is the same as in the whole. */
  lemma FirstIndexPrefix(values: seq<int>, m: nat, x: int)
    requires m <= |values| && x in values[..m]
    ensures FirstIndex(values[..m], x) == FirstIndex(values, x) < m
  {
    var k := FirstIndex(values[..m], x);
    assert values[..m][..k] == values[..k];
    FirstIndexUnique(values, x, k);
  }

  /**
   * The values of the members an `Enum` iterates over. A member whose value repeats an
   * earlier one is an alias and is skipped, so each value appears once, and the values come
   * in the order of their first occurrences.
   */
  function EnumMembers(values: seq<int>): (r: seq<int>)
    ensures forall x :: x in r <==> x in values
    ensures forall i, j :: 0 <= i < j < |r| ==> r[i] != r[j]
    ensures forall i, j :: 0 <= i < j < |r| ==> FirstIndex(values, r[i]) < FirstIndex(values, r[j])
  {
    if values == [] then []
    else
      var n := |values| - 1;
      var init := EnumMembers(values[..n]);
      var last := values[n];
      assert values[..n + 1] == values;
      assert forall x :: x in init ==> FirstIndex(values[..n], x) == FirstIndex(values, x) < n by {
        forall x | x in init {
          FirstIndexPrefix(values, n, x);
        }
      }
      if last in values[..n] then init
      else
        FirstIndexUnique(values, last, n);
        init + [last]
  }

  /** The start-up scan `[s.value for s in ServoID]` probes id 0 only: BODY and BASE are aliases of HEAD. */
  lemma ScanProbesHeadOnly()
    ensures EnumMembers(ServoIdValues) == [0]
  {
    var two := ServoIdValues[..2];
    assert two == [0, 0] && two[..1] == [0] && [0][..0] == [];
    assert EnumMembers([0]) == [0];
    assert EnumMembers(two) == [0];
  }

  /** `tracked_positions.get(servo_id, HOME_POSITION)`. */
  function TrackedOr(m: map<int, int>, id: int): (r: int)
    ensures id in m ==> r == m[id]
    ensures id !in m ==> r == HomePosition
  {
    if id in m then m[id] else HomePosition
  }

  /** `speed_value | (direction << 10)` with `direction` 1 or -1: the shifted direction is 1024 or -1024. */
  function SpeedValue(speed: int): (r: int)
    ensures speed >= 0 ==> r == Min(speed, MaxSpeed) + 1024
    ensures speed < 0 ==> r == Max(speed, -MaxSpeed) && r < 0
  {
    var value := Clamp(speed, -MaxSpeed, MaxSpeed);
    var shifted := if speed >= 0 then 1024 else -1024;
    if speed >= 0 then DirectionBit(value, true); PyOr(value, shifted)
    else NegativeDirectionMask(value); PyOr(value, shifted)
  }

  /**
   * A non-negative speed sends its clamped value plus 1024, a negative one its clamped
   * (negative) value unchanged, because `v | -1024 == v` for `-1024 <= v < 0`. A stop
   * therefore sends 1024, and a negative speed a value no 10-bit register can hold.
   */
  lemma SpeedValueCases(speed: int)
    ensures speed >= 0 ==> SpeedValue(speed) == Min(speed, MaxSpeed) + 1024
    ensures speed < 0 ==> SpeedValue(speed) == Max(speed, -MaxSpeed) && SpeedValue(speed) < 0
    ensures -MaxSpeed <= SpeedValue(speed) <= MaxSpeed + 1024
  {
    if speed >= 0 {
      DirectionBit(Min(speed, MaxSpeed), true);
    } else {
      NegativeDirectionMask(Max(speed, -MaxSpeed));
    }
  }

  lemma StopSends1024()
    ensures SpeedValue(0) == 1024
  {
    SpeedValueCases(0);
  }

  /**
   * The direction bit is the opposite of the older drivers': for a forward speed within
   * range this driver sends the word `wheel_speed` of body_v3.py sends for the reverse one.
   */
  lemma SpeedValueOppositeOfWheelWord(speed: int)
    requires 0 < speed <= MaxSpeed
    ensures SpeedValue(speed) == BodyShared.WheelWord(-speed)
    ensures BodyShared.DecodeWheelWord(SpeedValue(speed)) == (speed, true)
    ensures BodyShared.DecodeWheelWord(BodyShared.WheelWord(speed)) == (speed, false)
  {
    SpeedValueCases(speed);
    BodyShared.WheelWordValue(-speed);
    BodyShared.WheelWordValue(speed);
  }

  /** `_enable_all_servos` for one servo. */
  function EnableOf(id: int): seq<Access>
  {
    [WriteByte(id, AddrTorqueEnable, 1)]
  }

  /** `DynamixelInterface.read_word`: the value of a successful read, `None` otherwise. */
  method ReadWord(bus: Bus, id: int, addr: int) returns (v: Option<int>)
    modifies bus
    ensures v == ReadValue(ReplyAt(old(bus.replies), 0))
    ensures bus.replies == Drop(old(bus.replies), 1) && bus.log == old(bus.log) + [Read(id, addr)]
  {
    var r := bus.Read(id, addr);
    v := ReadValue(r);
  }

  /** `DynamixelInterface.scan_servos`: the ids that answered, in order, or an error when none did. */
  method ScanServos(bus: Bus, ids: seq<int>) returns (r: Result<seq<int>, BodyError>)
    modifies bus
    ensures Answered(ids, old(bus.replies)) == [] ==> r == Err(NoServosDetected)
    ensures Answered(ids, old(bus.replies)) != [] ==> r == Ok(Answered(ids, old(bus.replies)))
    ensures bus.replies == Drop(old(bus.replies), |ids|) && bus.log == old(bus.log) + ForEach(ids, PingOf)
  {
    var found := Scan(bus, ids);
    if found == [] {
      return Err(NoServosDetected);
    }
    return Ok(found);
  }

  class Body {
    const bus: Bus
    /** The servos found by `start`; empty until a scan succeeds. */
    var servos: seq<int>
    var trackedPositions: map<int, int>
    var currentMode: OperationMode

    /** `__init__`: joint mode, no estimates, no servos. */
    constructor (bus: Bus)
      ensures this.bus == bus && servos == [] && trackedPositions == map[] && currentMode == Joint
    {
      this.bus := bus;
      servos := [];
      trackedPositions := map[];
      currentMode := Joint;
    }

    /**
     * `_read_position`: in wheel mode the estimate (or home) with no bus traffic; otherwise
     * one read, falling back to the estimate (or home) when it fails. The estimates are never
     * written, which the frame (only the bus may change) states.
     */
    method ReadPosition(id: int) returns (pos: int)
      modifies bus
      ensures currentMode == Wheel ==> pos == TrackedOr(trackedPositions, id) && unchanged(bus)
      ensures currentMode == Joint ==>
        && pos == (match ReadValue(ReplyAt(old(bus.replies), 0))
                   case Some(v) => v
                   case None => TrackedOr(trackedPositions, id))
        && bus.replies == Drop(old(bus.replies), 1)
        && bus.log == old(bus.log) + [Read(id, AddrPresentPosition)]
    {
      if currentMode == Wheel {
        return TrackedOr(trackedPositions, id);
      }
      var v := ReadWord(bus, id, AddrPresentPosition);
      if v.None? {
        return TrackedOr(trackedPositions, id);
      }
      return v.value;
    }

    /**
     * `set_mode`: wheel mode clears both angle limits of every servo and then records the
     * mode. Joint mode writes the first servo's CW limit and then fails on the misspelt CCW
     * address, before any estimate or the mode changes; with no servos it just records the mode.
     */
    method SetMode(mode: OperationMode) returns (r: Outcome<BodyError>)
      modifies this, bus
      ensures servos == old(servos) && trackedPositions == old(trackedPositions)
      ensures bus.replies == old(bus.replies)
      ensures mode == Wheel ==>
        r == Pass && currentMode == Wheel && bus.log == old(bus.log) + ForEach(servos, BodyShared.WheelModeOf)
      ensures mode == Joint && servos == [] ==> r == Pass && currentMode == Joint && bus.log == old(bus.log)
      ensures mode == Joint && servos != [] ==>
        && r == Fail(AttributeError) && currentMode == old(currentMode)
        && bus.log == old(bus.log) + [WriteWord(servos[0], AddrCwAngleLimit, 0)]
    {
      var i := 0;
      while i < |servos|
        invariant i <= |servos| && (mode == Joint ==> i == 0) && servos == old(servos)
        invariant currentMode == old(currentMode) && trackedPositions == old(trackedPositions)
        invariant bus.log == old(bus.log) + ForEach(servos[..i], BodyShared.WheelModeOf)
        invariant bus.replies == old(bus.replies)
      {
        if mode == Joint {
          bus.WriteWord(servos[i], AddrCwAngleLimit, 0);
          return Fail(AttributeError);
        }
        bus.WriteWord(servos[i], AddrCwAngleLimit, 0);
        bus.WriteWord(servos[i], AddrCcwAngleLimit, 0);
        ForEachStep(servos, i, BodyShared.WheelModeOf);
        i := i + 1;
      }
      ForEachAll(servos, BodyShared.WheelModeOf);
      currentMode := mode;
      return Pass;
    }

    /**
     * `move_to_position`: nothing outside joint mode; in joint mode it fails on `_clamo`
     * before any write, so no call changes the estimates or touches the bus.
     */
    method MoveToPosition(id: int, position: int, speed: int) returns (r: Outcome<BodyError>)
      ensures currentMode != Joint ==> r == Pass
      ensures currentMode == Joint ==> r == Fail(AttributeError)
    {
      if currentMode != Joint {
        return Pass;
      }
      var clamped := Clamp(position, 0, MaxPos);
      return Fail(AttributeError);
    }

    /** `set_wheel_speed`: nothing outside wheel mode; otherwise one byte write of the encoded speed. */
    method SetWheelSpeed(id: int, speed: int)
      modifies bus
      ensures currentMode != Wheel ==> unchanged(bus)
      ensures currentMode == Wheel ==>
        bus.log == old(bus.log) + [WriteByte(id, AddrMovingSpeed, SpeedValue(speed))] && bus.replies == old(bus.replies)
    {
      if currentMode != Wheel {
        return;
      }
      var direction := if speed >= 0 then 1 else -1;
      var speedValue := Clamp(speed, -MaxSpeed, MaxSpeed);
      var value := PyOr(speedValue, direction * 1024);
      bus.WriteByte(id, AddrMovingSpeed, value);
    }

    /**
     * `rotate_geared`: switches to wheel mode when not already there and stops; its angle,
     * duration and speed arguments are never used.
     */
    method RotateGeared()
      modifies this, bus
      ensures currentMode == Wheel && servos == old(servos) && trackedPositions == old(trackedPositions)
      ensures old(currentMode) == Wheel ==> bus.log == old(bus.log)
      ensures old(currentMode) != Wheel ==> bus.log == old(bus.log) + ForEach(servos, BodyShared.WheelModeOf)
      ensures bus.replies == old(bus.replies)
    {
      if currentMode != Wheel {
        var outcome := SetMode(Wheel);
      }
    }

    /** `_enable_all_servos`: torque on for every servo. */
    method EnableAllServos()
      modifies bus
      ensures bus.log == old(bus.log) + ForEach(servos, EnableOf) && bus.replies == old(bus.replies)
    {
      var i := 0;
      while i < |servos|
        invariant i <= |servos|
        invariant bus.log == old(bus.log) + ForEach(servos[..i], EnableOf)
        invariant bus.replies == old(bus.replies)
      {
        bus.WriteByte(servos[i], AddrTorqueEnable, 1);
        ForEachStep(servos, i, EnableOf);
        i := i + 1;
      }
      ForEachAll(servos, EnableOf);
    }

    /**
     * `start` once the port is open: the scan, torque on, then `set_mode(JOINT)`. It cannot
     * succeed: either nothing answers, or the servos found make `set_mode` fail.
     */
    method Start() returns (r: Outcome<BodyError>)
      modifies this, bus
      ensures r.Fail?
      ensures var found := Answered(EnumMembers(ServoIdValues), old(bus.replies));
        && (found == [] ==> r == Fail(NoServosDetected) && servos == old(servos)
                            && bus.log == old(bus.log) + ForEach(EnumMembers(ServoIdValues), PingOf))
        && (found != [] ==> r == Fail(AttributeError) && servos == found
                            && bus.log == old(bus.log) + ForEach(EnumMembers(ServoIdValues), PingOf)
                                          + ForEach(found, EnableOf) + [WriteWord(found[0], AddrCwAngleLimit, 0)])
      ensures currentMode == old(currentMode) && trackedPositions == old(trackedPositions)
    {
      ScanProbesHeadOnly();
      var scanned := ScanServos(bus, EnumMembers(ServoIdValues));
      if scanned.Err? {
        return Fail(scanned.error);
      }
      servos := scanned.value;
      EnableAllServos();
      r := SetMode(Joint);
    }
  }
}
