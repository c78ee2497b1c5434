/**
 * The position tracker of the `BODY` class, in the part that body/body_v2.py and
 * body/body_v3.py share word for word: reading, moving and spinning one servo, the two
 * mode switches, the torque limit and the face-tracking nudge.
 *
 * A servo in wheel mode reports no usable position, so the class keeps its own estimate
 * per servo (`trackedPositions`), reads the hardware only outside wheel mode, and
 * resynchronises every estimate from the hardware when it enters joint mode.
 */
module BodyShared {
  import opened Numeric
  import opened Wrappers
  import opened Dynamixel

  const HeadId := 0
  const BodyId := 3
  const BaseId := 1

  /** `SERVOS`: the ids probed at start-up. */
  const Roster: seq<int> := [HeadId, BodyId, BaseId]

  /** Every entry of `HOME_POSITIONS`. */
  const Home := 512

  /** `current_mode`: `None` until the first mode switch, then "joint" or "wheel". */
  datatype Mode = Unset | Joint | Wheel

  datatype BodyError = NoServosDetected

  /** `speed | (direction << 10)` with `direction` 1 for a negative speed: the Moving Speed word of wheel mode. */
  function WheelWord(speed: int): (r: int)
    ensures 0 <= r < 2048
    ensures r % 1024 == Min(1023, Abs(speed)) && (r >= 1024 <==> speed < 0)
  {
    DirectionBit(Min(1023, Abs(speed)), speed < 0);
    PyOr(Min(1023, Abs(speed)), if speed >= 0 then 0 else 1024)
  }

  /** Bits 0-9 (`value & 1023`) carry the magnitude and bit 10 (`value >> 10`) the direction of a Moving Speed word. */
  function DecodeWheelWord(w: int): (int, bool)
  {
    (w % 1024, w / 1024 == 1)
  }

  /** The word is the capped magnitude plus 1024 for a negative speed, so it always lies in [0, 2048). */
  lemma WheelWordValue(speed: int)
    ensures WheelWord(speed) == Min(1023, Abs(speed)) + (if speed < 0 then 1024 else 0)
    ensures 0 <= WheelWord(speed) < 2048
  {
    DirectionBit(Min(1023, Abs(speed)), speed < 0);
  }

  /** A speed within the servo's range is recovered exactly from its word: magnitude and direction. */
  lemma WheelWordRoundTrip(speed: int)
    requires -1023 <= speed <= 1023
    ensures DecodeWheelWord(WheelWord(speed)) == (Abs(speed), speed < 0)
  {
    WheelWordValue(speed);
  }

  /** The transactions of one servo's switch to joint mode: both angle limits, then a position read. */
  function JointModeOf(id: int): seq<Access>
  {
    [WriteWord(id, AddrCwAngleLimit, 0), WriteWord(id, AddrCcwAngleLimit, 1023), Read(id, AddrPresentPosition)]
  }

  /** The transactions of one servo's switch to wheel mode: both angle limits cleared. */
  function WheelModeOf(id: int): seq<Access>
  {
    [WriteWord(id, AddrCwAngleLimit, 0), WriteWord(id, AddrCcwAngleLimit, 0)]
  }

  /** `wheel_speed(id, 0)`. */
  function StopOf(id: int): seq<Access>
  {
    [WriteWord(id, AddrMovingSpeed, WheelWord(0))]
  }

  function TorqueOf(limit: int): int -> seq<Access>
  {
    id => [WriteWord(id, AddrTorqueLimit, Clamp(limit, 0, 1023))]
  }

  /** The servos `set_torque_limit` writes: `[dxl_id] if dxl_id else self.ids`, where id 0 is falsy. */
  function TorqueTargets(dxlId: Option<int>, ids: seq<int>): seq<int>
  {
    if dxlId.Some? && dxlId.value != 0 then [dxlId.value] else ids
  }

  /** Asking for the head servo alone (id 0) writes every servo, exactly as asking for none. */
  lemma TorqueHeadIdWritesAll(ids: seq<int>)
    ensures TorqueTargets(Some(HeadId), ids) == ids == TorqueTargets(None, ids)
    ensures forall id :: id != 0 ==> TorqueTargets(Some(id), ids) == [id]
  {
  }

  /** The position a read leaves in the estimate: the value read when the transfer succeeded, else the old estimate. */
  function AfterRead(r: Reply, tracked: int): int
  {
    if r.commOk then r.value else tracked
  }

  /** The estimates after the first `n` servos of `ids` were re-read, the `k`-th read getting answer `ReplyAt(rs, k)`. */
  function Resync(m: map<int, int>, ids: seq<int>, rs: seq<Reply>, n: nat): (r: map<int, int>)
    requires n <= |ids|
    requires forall k :: 0 <= k < |ids| ==> ids[k] in m
    ensures forall x :: x in m ==> x in r
  {
    if n == 0 then m
    else
      var p := Resync(m, ids, rs, n - 1);
      p[ids[n - 1] := AfterRead(ReplyAt(rs, n - 1), p[ids[n - 1]])]
  }

  lemma ResyncNext(m: map<int, int>, ids: seq<int>, rs: seq<Reply>, i: nat)
    requires i < |ids|
    requires forall k :: 0 <= k < |ids| ==> ids[k] in m
    ensures var p := Resync(m, ids, rs, i);
      Resync(m, ids, rs, i + 1) == p[ids[i] := AfterRead(ReplyAt(rs, i), p[ids[i]])]
  {
  }

  /**
   * After joint mode is entered, each servo's estimate is the position its read returned,
   * and stays the old estimate only where the read failed; servos not re-read keep theirs.
   */
  lemma {:induction false} ResyncReadsBack(m: map<int, int>, ids: seq<int>, rs: seq<Reply>, n: nat, k: nat)
    requires n <= |ids| && k < |ids|
    requires forall i :: 0 <= i < |ids| ==> ids[i] in m
    requires forall i, j :: 0 <= i < j < |ids| ==> ids[i] != ids[j]
    ensures k < n ==> Resync(m, ids, rs, n)[ids[k]] == AfterRead(ReplyAt(rs, k), m[ids[k]])
    ensures n <= k ==> Resync(m, ids, rs, n)[ids[k]] == m[ids[k]]
  {
    if n > 0 {
      ResyncReadsBack(m, ids, rs, n - 1, k);
    }
  }

  /** A servo outside `ids` keeps its estimate through a resynchronisation. */
  lemma {:induction false} ResyncKeepsOthers(m: map<int, int>, ids: seq<int>, rs: seq<Reply>, n: nat, id: int)
    requires n <= |ids|
    requires forall i :: 0 <= i < |ids| ==> ids[i] in m
    requires id in m && id !in ids
    ensures Resync(m, ids, rs, n)[id] == m[id]
  {
    if n > 0 {
      ResyncKeepsOthers(m, ids, rs, n - 1, id);
    }
  }

  /** One planned wheel command: a servo and the signed speed handed to `wheel_speed`. */
  datatype Command = Command(id: int, speed: int)

  /** The Moving Speed writes of one leg, in plan order; the return leg negates every command. */
  function SpeedWrites(plan: seq<Command>, negate: bool): (r: seq<Access>)
    ensures |r| == |plan|
  {
    if plan == [] then []
    else
      var c := plan[|plan| - 1];
      SpeedWrites(plan[..|plan| - 1], negate) + [WriteWord(c.id, AddrMovingSpeed, WheelWord(if negate then -c.speed else c.speed))]
  }

  lemma SpeedWritesStep(plan: seq<Command>, i: nat, negate: bool)
    requires i < |plan|
    ensures SpeedWrites(plan[..i + 1], negate) == SpeedWrites(plan[..i], negate)
      + [WriteWord(plan[i].id, AddrMovingSpeed, WheelWord(if negate then -plan[i].speed else plan[i].speed))]
  {
    assert plan[..i + 1][..i] == plan[..i];
  }

  /** The `k`-th write of a leg goes to the `k`-th servo of the plan, with its (negated) command. */
  lemma {:induction false} SpeedWritesAt(plan: seq<Command>, negate: bool, k: nat)
    requires k < |plan|
    ensures SpeedWrites(plan, negate)[k]
         == WriteWord(plan[k].id, AddrMovingSpeed, WheelWord(if negate then -plan[k].speed else plan[k].speed))
  {
    if k < |plan| - 1 {
      SpeedWritesAt(plan[..|plan| - 1], negate, k);
    } else if |plan| > 1 {
      SpeedWritesAt(plan[..|plan| - 1], negate, 0);
    } else {
      assert plan[..0] == [];
    }
  }

  /**
   * A command and its negation drive a servo at the same magnitude in opposite directions:
   * for a speed within the servo's range, the two words decode to equal magnitudes and,
   * unless the speed is zero, opposite direction bits.
   */
  lemma NegatedWordReverses(speed: int)
    requires Abs(speed) <= MaxWord
    ensures DecodeWheelWord(WheelWord(speed)).0 == DecodeWheelWord(WheelWord(-speed)).0 == Abs(speed)
    ensures speed != 0 ==> DecodeWheelWord(WheelWord(speed)).1 != DecodeWheelWord(WheelWord(-speed)).1
  {
    WheelWordRoundTrip(speed);
    WheelWordRoundTrip(-speed);
  }

  /** One leg of a geared rotation: `wheel_speed` for every planned servo, negated on the way back. */
  method DriveLeg(b: Body, plan: seq<Command>, negate: bool)
    modifies b.bus
    ensures b.bus.log == old(b.bus.log) + SpeedWrites(plan, negate)
    ensures b.bus.replies == old(b.bus.replies)
  {
    var i := 0;
    while i < |plan|
      invariant i <= |plan|
      invariant b.bus.replies == old(b.bus.replies)
      invariant b.bus.log == old(b.bus.log) + SpeedWrites(plan[..i], negate)
    {
      b.WheelSpeed(plan[i].id, if negate then -plan[i].speed else plan[i].speed);
      SpeedWritesStep(plan, i, negate);
      i := i + 1;
    }
    assert plan[..|plan|] == plan;
  }

  /** `track_position` tries the servos in this order. */
  const TrackOrder: seq<int> := [HeadId, BodyId, BaseId]

  /** +20 when the face is at or left of centre, -20 otherwise. */
  function TrackStep(displacement: real): int
  {
    if displacement <= 0.0 then 20 else -20
  }

  /** A nudged position is sent only if it stays strictly inside (0, 1024). */
  predicate Fits(pos: int)
  {
    !(pos <= 0 || pos >= 1024)
  }

  /** The first servo of `order[from..]` whose estimate plus `step` fits, with that new position. */
  function FirstFitting(order: seq<int>, m: map<int, int>, step: int, from: nat): (r: Option<(int, int)>)
    requires forall k :: 0 <= k < |order| ==> order[k] in m
    decreases |order| - from
  {
    if from >= |order| then None
    else if Fits(m[order[from]] + step) then Some((order[from], m[order[from]] + step))
    else FirstFitting(order, m, step, from + 1)
  }

  /**
   * The servo `track_position` moves is the first, in head-body-base order, whose nudge fits;
   * no servo is moved exactly when no nudge fits.
   */
  lemma {:induction false} FirstFittingIsFirst(order: seq<int>, m: map<int, int>, step: int, from: nat)
    requires forall k :: 0 <= k < |order| ==> order[k] in m
    ensures var r := FirstFitting(order, m, step, from);
      && (r.None? <==> forall k :: from <= k < |order| ==> !Fits(m[order[k]] + step))
      && (r.Some? ==> exists k :: from <= k < |order| && r.value == (order[k], m[order[k]] + step)
                        && Fits(r.value.1)
                        && forall j :: from <= j < k ==> !Fits(m[order[j]] + step))
    decreases |order| - from
  {
    if from < |order| && !Fits(m[order[from]] + step) {
      FirstFittingIsFirst(order, m, step, from + 1);
      var r := FirstFitting(order, m, step, from);
      if r.Some? {
        var k :| from + 1 <= k < |order| && r.value == (order[k], m[order[k]] + step)
                 && Fits(r.value.1) && forall j :: from + 1 <= j < k ==> !Fits(m[order[j]] + step);
        assert forall j :: from <= j < k ==> !Fits(m[order[j]] + step);
      }
    }
  }

  class Body {
    const bus: Bus
    /** The servos that answered the start-up scan. */
    const ids: seq<int>
    var trackedPositions: map<int, int>
    var currentMode: Mode
    var isLookingUp: bool

    /** Every servo, probed or not, has an estimate; at least one servo answered the scan. */
    ghost predicate Valid()
      reads this
    {
      && |ids| > 0
      && HeadId in trackedPositions && BodyId in trackedPositions && BaseId in trackedPositions
      && (forall k :: 0 <= k < |ids| ==> ids[k] in trackedPositions)
    }

    /** `__init__` after a scan that found `found`: every estimate at home, no mode yet. */
    constructor (bus: Bus, found: seq<int>)
      requires |found| > 0 && (forall k :: 0 <= k < |found| ==> found[k] in Roster)
      ensures Valid() && this.bus == bus && ids == found
      ensures trackedPositions == map[HeadId := Home, BodyId := Home, BaseId := Home]
      ensures currentMode == Unset && !isLookingUp
    {
      this.bus := bus;
      ids := found;
      trackedPositions := map[HeadId := Home, BodyId := Home, BaseId := Home];
      currentMode := Unset;
      isLookingUp := false;
    }

    /**
     * `get_position`: in wheel mode the estimate, with no bus traffic; otherwise one read,
     * whose value (on a successful transfer) replaces the estimate and is returned; a failed
     * read returns the estimate unchanged.
     */
    method GetPosition(id: int) returns (pos: int)
      requires Valid() && id in trackedPositions
      modifies this, bus
      ensures Valid() && currentMode == old(currentMode) && isLookingUp == old(isLookingUp)
      ensures old(currentMode) == Wheel ==>
        && pos == old(trackedPositions[id])
        && trackedPositions == old(trackedPositions)
        && bus.log == old(bus.log) && bus.replies == old(bus.replies)
      ensures old(currentMode) != Wheel ==>
        && pos == AfterRead(ReplyAt(old(bus.replies), 0), old(trackedPositions[id]))
        && trackedPositions == old(trackedPositions)[id := pos]
        && bus.log == old(bus.log) + [Read(id, AddrPresentPosition)]
        && bus.replies == Drop(old(bus.replies), 1)
    {
      if currentMode == Wheel {
        pos := trackedPositions[id];
        return;
      }
      var r := bus.Read(id, AddrPresentPosition);
      if r.commOk {
        trackedPositions := trackedPositions[id := r.value];
        pos := r.value;
        return;
      }
      pos := trackedPositions[id];
    }

    /** `move_position`: clamps goal and speed to [0, 1023], writes speed then goal, and records the clamped goal. */
    method MovePosition(id: int, pos: int, speed: int)
      requires Valid()
      modifies this, bus
      ensures Valid() && currentMode == old(currentMode) && isLookingUp == old(isLookingUp)
      ensures trackedPositions == old(trackedPositions)[id := Clamp(pos, 0, 1023)]
      ensures bus.log == old(bus.log) + [WriteWord(id, AddrMovingSpeed, Clamp(speed, 0, 1023)),
                                         WriteWord(id, AddrGoalPosition, Clamp(pos, 0, 1023))]
      ensures bus.replies == old(bus.replies)
    {
      var p := Max(0, Min(1023, pos));
      var s := Max(0, Min(1023, speed));
      bus.WriteWord(id, AddrMovingSpeed, s);
      bus.WriteWord(id, AddrGoalPosition, p);
      trackedPositions := trackedPositions[id := p];
    }

    /** `wheel_speed`: one Moving Speed write; the estimates are left alone. */
    method WheelSpeed(id: int, speed: int)
      modifies bus
      ensures bus.log == old(bus.log) + [WriteWord(id, AddrMovingSpeed, WheelWord(speed))]
      ensures bus.replies == old(bus.replies)
    {
      var reverse := if speed >= 0 then 0 else 1;
      var magnitude := Min(1023, Abs(speed));
      var value := PyOr(magnitude, reverse * 1024);
      bus.WriteWord(id, AddrMovingSpeed, value);
    }

    /**
     * `set_joint_mode`: for each servo, both angle limits, then the mode, then a read that
     * resynchronises its estimate (the mode is already joint, so the read always reaches the bus).
     */
    method SetJointMode()
      requires Valid()
      modifies this, bus
      ensures Valid() && currentMode == Joint && isLookingUp == old(isLookingUp)
      ensures trackedPositions == Resync(old(trackedPositions), ids, old(bus.replies), |ids|)
      ensures bus.log == old(bus.log) + ForEach(ids, JointModeOf)
      ensures bus.replies == Drop(old(bus.replies), |ids|)
    {
      ghost var m0, rs0, log0 := trackedPositions, bus.replies, bus.log;
      var i := 0;
      while i < |ids|
        invariant i <= |ids| && Valid() && isLookingUp == old(isLookingUp)
        invariant i > 0 ==> currentMode == Joint
        invariant trackedPositions == Resync(m0, ids, rs0, i)
        invariant bus.log == log0 + ForEach(ids[..i], JointModeOf)
        invariant bus.replies == Drop(rs0, i)
      {
        JoinServo(m0, rs0, i);
        ForEachStep(ids, i, JointModeOf);
        i := i + 1;
      }
      ForEachAll(ids, JointModeOf);
    }

    /** One pass of the `set_joint_mode` loop: the `i`-th servo's limits, the mode, and its re-read. */
    method JoinServo(ghost m0: map<int, int>, ghost rs0: seq<Reply>, i: nat)
      requires Valid() && i < |ids|
      requires forall k :: 0 <= k < |ids| ==> ids[k] in m0
      requires trackedPositions == Resync(m0, ids, rs0, i) && bus.replies == Drop(rs0, i)
      modifies this, bus
      ensures Valid() && currentMode == Joint && isLookingUp == old(isLookingUp)
      ensures trackedPositions == Resync(m0, ids, rs0, i + 1) && bus.replies == Drop(rs0, i + 1)
      ensures bus.log == old(bus.log) + JointModeOf(ids[i])
    {
      var id := ids[i];
      bus.WriteWord(id, AddrCwAngleLimit, 0);
      bus.WriteWord(id, AddrCcwAngleLimit, 1023);
      currentMode := Joint;
      var pos := GetPosition(id);
      DropReplyAt(rs0, i, 0);
      DropDrop(rs0, i, 1);
      trackedPositions := trackedPositions[id := pos];
      ResyncNext(m0, ids, rs0, i);
    }

    /** `set_wheel_mode`: both angle limits cleared for each servo; the estimates are left alone. */
    method SetWheelMode()
      requires Valid()
      modifies this, bus
      ensures Valid() && currentMode == Wheel && isLookingUp == old(isLookingUp)
      ensures trackedPositions == old(trackedPositions)
      ensures bus.log == old(bus.log) + ForEach(ids, WheelModeOf)
      ensures bus.replies == old(bus.replies)
    {
      var i := 0;
      while i < |ids|
        invariant i <= |ids| && Valid() && isLookingUp == old(isLookingUp)
        invariant i > 0 ==> currentMode == Wheel
        invariant trackedPositions == old(trackedPositions)
        invariant bus.log == old(bus.log) + ForEach(ids[..i], WheelModeOf)
        invariant bus.replies == old(bus.replies)
      {
        bus.WriteWord(ids[i], AddrCwAngleLimit, 0);
        bus.WriteWord(ids[i], AddrCcwAngleLimit, 0);
        currentMode := Wheel;
        ForEachStep(ids, i, WheelModeOf);
        i := i + 1;
      }
      ForEachAll(ids, WheelModeOf);
    }

    /** `set_torque_limit`: the clamped limit to one servo, or to all when no id (or the falsy id 0) is given. */
    method SetTorqueLimit(limit: int, dxlId: Option<int>)
      requires Valid()
      modifies bus
      ensures bus.log == old(bus.log) + ForEach(TorqueTargets(dxlId, ids), TorqueOf(limit))
      ensures bus.replies == old(bus.replies)
    {
      var targets := if dxlId.Some? && dxlId.value != 0 then [dxlId.value] else ids;
      var i := 0;
      while i < |targets|
        invariant i <= |targets|
        invariant bus.log == old(bus.log) + ForEach(targets[..i], TorqueOf(limit))
        invariant bus.replies == old(bus.replies)
      {
        bus.WriteWord(targets[i], AddrTorqueLimit, Max(0, Min(1023, limit)));
        ForEachStep(targets, i, TorqueOf(limit));
        i := i + 1;
      }
      ForEachAll(targets, TorqueOf(limit));
    }

    /** `_stop_wheels`: speed 0 to every servo. */
    method StopWheels()
      modifies bus
      ensures bus.log == old(bus.log) + ForEach(ids, StopOf)
      ensures bus.replies == old(bus.replies)
    {
      var i := 0;
      while i < |ids|
        invariant i <= |ids|
        invariant bus.log == old(bus.log) + ForEach(ids[..i], StopOf)
        invariant bus.replies == old(bus.replies)
      {
        WheelSpeed(ids[i], 0);
        ForEachStep(ids, i, StopOf);
        i := i + 1;
      }
      ForEachAll(ids, StopOf);
    }

    /**
     * `track_position`: nudges the first servo, in head-body-base order, whose estimate
     * plus the step stays inside (0, 1024), at speed 100, and reports whether one moved.
     */
    method TrackPosition(displacement: real) returns (moved: bool)
      requires Valid()
      modifies this, bus
      ensures Valid() && currentMode == old(currentMode) && isLookingUp == old(isLookingUp)
      ensures var choice := FirstFitting(TrackOrder, old(trackedPositions), TrackStep(displacement), 0);
        && moved == choice.Some?
        && (choice.None? ==> trackedPositions == old(trackedPositions) && bus.log == old(bus.log))
        && (choice.Some? ==>
              && trackedPositions == old(trackedPositions)[choice.value.0 := choice.value.1]
              && bus.log == old(bus.log) + [WriteWord(choice.value.0, AddrMovingSpeed, 100),
                                            WriteWord(choice.value.0, AddrGoalPosition, choice.value.1)])
      ensures bus.replies == old(bus.replies)
    {
      var step := if displacement <= 0.0 then 20 else -20;
      var order := [HeadId, BodyId, BaseId];
      var i := 0;
      while i < |order|
        invariant i <= |order|
        invariant FirstFitting(TrackOrder, old(trackedPositions), step, 0)
               == FirstFitting(TrackOrder, old(trackedPositions), step, i)
        invariant trackedPositions == old(trackedPositions) && bus.log == old(bus.log)
        invariant bus.replies == old(bus.replies)
      {
        var pos := trackedPositions[order[i]] + step;
        if pos <= 0 || pos >= 1024 {
          i := i + 1;
          continue;
        }
        MovePosition(order[i], pos, 100);
        return true;
      }
      return false;
    }
  }

  /**
   * `scan_ids` followed by `__init__`: probes the roster, exits when no servo answers,
   * and otherwise builds the tracker over the servos found.
   */
  method Open(bus: Bus) returns (r: Result<Body, BodyError>)
    modifies bus
    ensures r.Err? <==> Answered(Roster, old(bus.replies)) == []
    ensures r.Ok? ==> fresh(r.value) && r.value.Valid() && r.value.bus == bus
                      && r.value.ids == Answered(Roster, old(bus.replies))
                      && r.value.currentMode == Unset
                      && (forall i, j :: 0 <= i < j < |r.value.ids| ==> r.value.ids[i] != r.value.ids[j])
    ensures bus.log == old(bus.log) + ForEach(Roster, PingOf)
  {
    var found := Scan(bus, Roster);
    if found == [] {
      return Err(NoServosDetected);
    }
    AnsweredSubsetOfRoster(old(bus.replies));
    var b := new Body(bus, found);
    return Ok(b);
  }

  /** The servos a start-up scan finds are distinct roster members. */
  lemma AnsweredSubsetOfRoster(rs: seq<Reply>)
    ensures var f := Answered(Roster, rs);
      && (forall k :: 0 <= k < |f| ==> f[k] in Roster)
      && (forall i, j :: 0 <= i < j < |f| ==> f[i] != f[j])
  {
    var f := Answered(Roster, rs);
    assert |Roster| == 3 && f == AnsweredPrefix(Roster, rs, 3);
    forall k | 0 <= k < |f| ensures f[k] in Roster {
      AnsweredPrefixExactly(Roster, rs, 3, f[k]);
    }
    AnsweredPrefixDistinct(Roster, rs, 3);
  }
}
