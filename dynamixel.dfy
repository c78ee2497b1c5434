/**
 * The AX-12A servo bus as the robot's drivers see it.
 *
 * The serial transport itself is not modelled. A `Bus` object stands for it: it holds the
 * answers the servos will give to the next pings and reads, in order (`replies`), and a
 * ghost log of every transaction issued (`log`). A ping or read consumes one answer; once
 * the answers run out every further ping or read times out. Writes are logged and never
 * consume an answer, because no driver looks at the status a write returns.
 */
module Dynamixel {
  import opened Numeric
  import opened Wrappers

  // AX-12A control table addresses.
  const AddrCwAngleLimit := 6
  const AddrCcwAngleLimit := 8
  const AddrTorqueEnable := 24
  const AddrGoalPosition := 30
  const AddrMovingSpeed := 32
  const AddrTorqueLimit := 34
  const AddrPresentPosition := 36

  /** Largest goal position, moving speed and torque limit the drivers send. */
  const MaxWord := 1023

  /** One answer of the packet handler: the value read, whether `comm == COMM_SUCCESS`, and the error byte. */
  datatype Reply = Reply(value: int, commOk: bool, err: int)

  /** The answer to a transaction nobody responds to. */
  const NoAnswer := Reply(0, false, 0)

  datatype Access =
    | Ping(id: int)
    | Read(id: int, addr: int)
    | WriteByte(id: int, addr: int, value: int)
    | WriteWord(id: int, addr: int, value: int)

  /** The answer to the `k`-th ping or read from now on. */
  function ReplyAt(rs: seq<Reply>, k: nat): Reply
  {
    if k < |rs| then rs[k] else NoAnswer
  }

  /** The answers left after `n` pings or reads. */
  function Drop(rs: seq<Reply>, n: nat): seq<Reply>
  {
    if n <= |rs| then rs[n..] else []
  }

  /** After `n` answers are consumed, the `k`-th next answer is the `n + k`-th of the original ones. */
  lemma DropReplyAt(rs: seq<Reply>, n: nat, k: nat)
    ensures ReplyAt(Drop(rs, n), k) == ReplyAt(rs, n + k)
  {
  }

  lemma DropDrop(rs: seq<Reply>, a: nat, b: nat)
    ensures Drop(Drop(rs, a), b) == Drop(rs, a + b)
  {
  }

  lemma DropZero(rs: seq<Reply>)
    ensures Drop(rs, 0) == rs
  {
  }

  /** `comm == COMM_SUCCESS and err == 0`: the condition under which the drivers trust an answer. */
  predicate Succeeded(r: Reply)
  {
    r.commOk && r.err == 0
  }

  /** The transactions `f(id)` for every id of `ids`, in order. */
  function ForEach(ids: seq<int>, f: int -> seq<Access>): (r: seq<Access>)
  {
    if ids == [] then [] else ForEach(ids[..|ids| - 1], f) + f(ids[|ids| - 1])
  }

  lemma ForEachStep(ids: seq<int>, i: nat, f: int -> seq<Access>)
    requires i < |ids|
    ensures ForEach(ids[..i + 1], f) == ForEach(ids[..i], f) + f(ids[i])
  {
    assert ids[..i + 1][..i] == ids[..i];
  }

  lemma ForEachAll(ids: seq<int>, f: int -> seq<Access>)
    ensures ForEach(ids[..|ids|], f) == ForEach(ids, f)
  {
    assert ids[..|ids|] == ids;
  }

  function PingOf(id: int): seq<Access> { [Ping(id)] }

  class Bus {
    /** Answers the servos will give to the coming pings and reads, oldest first. */
    var replies: seq<Reply>
    /** Every transaction issued so far, oldest first. */
    ghost var log: seq<Access>

    constructor (answers: seq<Reply>)
      ensures replies == answers && log == []
    {
      replies := answers;
      log := [];
    }

    method Ping(id: int) returns (r: Reply)
      modifies this
      ensures r == ReplyAt(old(replies), 0) && replies == Drop(old(replies), 1)
      ensures log == old(log) + [Access.Ping(id)]
    {
      if replies == [] {
        r := NoAnswer;
      } else {
        r := replies[0];
        replies := replies[1..];
      }
      log := log + [Access.Ping(id)];
    }

    /** `read2ByteTxRx`. */
    method Read(id: int, addr: int) returns (r: Reply)
      modifies this
      ensures r == ReplyAt(old(replies), 0) && replies == Drop(old(replies), 1)
      ensures log == old(log) + [Access.Read(id, addr)]
    {
      if replies == [] {
        r := NoAnswer;
      } else {
        r := replies[0];
        replies := replies[1..];
      }
      log := log + [Access.Read(id, addr)];
    }

    /** `write1ByteTxRx`. */
    method WriteByte(id: int, addr: int, value: int)
      modifies this
      ensures replies == old(replies)
      ensures log == old(log) + [Access.WriteByte(id, addr, value)]
    {
      log := log + [Access.WriteByte(id, addr, value)];
    }

    /** `write2ByteTxRx`. */
    method WriteWord(id: int, addr: int, value: int)
      modifies this
      ensures replies == old(replies)
      ensures log == old(log) + [Access.WriteWord(id, addr, value)]
    {
      log := log + [Access.WriteWord(id, addr, value)];
    }
  }

  /** The ids among the first `n` of `ids` whose ping answer succeeded, in input order. */
  function AnsweredPrefix(ids: seq<int>, rs: seq<Reply>, n: nat): seq<int>
    requires n <= |ids|
  {
    if n == 0 then []
    else AnsweredPrefix(ids, rs, n - 1) + (if Succeeded(ReplyAt(rs, n - 1)) then [ids[n - 1]] else [])
  }

  /** The ids of `ids` that answered their ping, given the answers `rs` to the pings in order. */
  function Answered(ids: seq<int>, rs: seq<Reply>): seq<int>
  {
    AnsweredPrefix(ids, rs, |ids|)
  }

  /**
   * `scan_ids`: pings every id in order and keeps those that answered without error.
   * The loop is the same in every driver; what they do with an empty result differs.
   */
  method Scan(bus: Bus, ids: seq<int>) returns (found: seq<int>)
    modifies bus
    ensures found == Answered(ids, old(bus.replies))
    ensures bus.replies == Drop(old(bus.replies), |ids|)
    ensures bus.log == old(bus.log) + ForEach(ids, PingOf)
  {
    found := [];
    var i := 0;
    while i < |ids|
      invariant i <= |ids|
      invariant found == AnsweredPrefix(ids, old(bus.replies), i)
      invariant bus.replies == Drop(old(bus.replies), i)
      invariant bus.log == old(bus.log) + ForEach(ids[..i], PingOf)
    {
      var r := bus.Ping(ids[i]);
      DropReplyAt(old(bus.replies), i, 0);
      DropDrop(old(bus.replies), i, 1);
      if Succeeded(r) {
        found := found + [ids[i]];
      }
      ForEachStep(ids, i, PingOf);
      i := i + 1;
    }
    ForEachAll(ids, PingOf);
  }

  /**
   * The scan keeps exactly the ids whose ping answer succeeded, each at most as often
   * as it was probed, and nothing else.
   */
  lemma {:induction false} AnsweredPrefixExactly(ids: seq<int>, rs: seq<Reply>, n: nat, x: int)
    requires n <= |ids|
    ensures x in AnsweredPrefix(ids, rs, n) <==>
            exists k :: 0 <= k < n && ids[k] == x && Succeeded(ReplyAt(rs, k))
    ensures |AnsweredPrefix(ids, rs, n)| <= n
  {
    if n > 0 {
      AnsweredPrefixExactly(ids, rs, n - 1, x);
      if Succeeded(ReplyAt(rs, n - 1)) && ids[n - 1] == x {
        assert x in AnsweredPrefix(ids, rs, n);
      }
    }
  }

  /** Probing distinct ids finds each servo at most once. */
  lemma {:induction false} AnsweredPrefixDistinct(ids: seq<int>, rs: seq<Reply>, n: nat)
    requires n <= |ids|
    requires forall i, j :: 0 <= i < j < |ids| ==> ids[i] != ids[j]
    ensures var f := AnsweredPrefix(ids, rs, n); forall i, j :: 0 <= i < j < |f| ==> f[i] != f[j]
  {
    if n > 0 {
      AnsweredPrefixDistinct(ids, rs, n - 1);
      AnsweredPrefixExactly(ids, rs, n - 1, ids[n - 1]);
    }
  }

  /** A scan finds nothing exactly when no probed servo answered successfully. */
  lemma AnsweredEmpty(ids: seq<int>, rs: seq<Reply>)
    ensures Answered(ids, rs) == [] <==> forall k :: 0 <= k < |ids| ==> !Succeeded(ReplyAt(rs, k))
  {
    if Answered(ids, rs) != [] {
      var x := Answered(ids, rs)[0];
      AnsweredPrefixExactly(ids, rs, |ids|, x);
    } else {
      forall k | 0 <= k < |ids| ensures !Succeeded(ReplyAt(rs, k)) {
        AnsweredPrefixExactly(ids, rs, |ids|, ids[k]);
      }
    }
  }

  /** The word the drivers read back is trusted only when the transaction succeeded. */
  function ReadValue(r: Reply): (v: Option<int>)
    ensures v.Some? <==> r.commOk && r.err == 0
    ensures v.Some? ==> v.value == r.value
  {
    if Succeeded(r) then Some(r.value) else None
  }

}
