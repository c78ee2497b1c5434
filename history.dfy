/**
 * The pieces both emotion debouncers (robot.py and robot_v2.py) are built from: a
 * time-stamped observation, the `collections.deque` with a `maxlen` that holds them, the
 * two-second recency filter, and `queue.Queue` as a value.
 */
module EmotionHistory {
  /** Observations older than this many seconds are dropped from the history. */
  const RecencyWindow: real := 2.0

  /** One accepted observation: name, confidence and time stamp. */
  datatype Entry = Entry(name: string, confidence: real, time: real)

  /** A `queue.Queue`: the items, oldest first, and `maxsize` (unbounded when not positive). */
  datatype Queue<T> = Queue(items: seq<T>, maxsize: int)
  {
    /** The queue holds no more than `maxsize` items. */
    predicate Bounded()
    {
      maxsize <= 0 || |items| <= maxsize
    }

    /** `Queue.full()`. */
    predicate Full()
    {
      maxsize > 0 && |items| >= maxsize
    }
  }

  /** Every entry carries the first one's name. */
  predicate AllSameName(recent: seq<Entry>)
    requires recent != []
  {
    forall i :: 0 <= i < |recent| ==> recent[i].name == recent[0].name
  }

  /** The entries younger than the recency window, in order. */
  function Recent(h: seq<Entry>, now: real): (r: seq<Entry>)
    ensures |r| <= |h|
  {
    if h == [] then []
    else
      var rest := Recent(h[..|h| - 1], now);
      if now - h[|h| - 1].time < RecencyWindow then rest + [h[|h| - 1]] else rest
  }

  /** A `deque` with `maxlen` `n` built from `s`: its last `n` elements. */
  function LastN<T>(s: seq<T>, n: nat): (r: seq<T>)
    ensures |r| == if |s| <= n then |s| else n
    ensures forall i :: 0 <= i < |r| ==> r[i] == s[|s| - |r| + i]
  {
    if |s| <= n then s else s[|s| - n..]
  }

  /** Appending an entry to the history appends it to the recent entries exactly when it is recent itself. */
  lemma {:induction false} RecentSnoc(h: seq<Entry>, e: Entry, now: real)
    ensures Recent(h + [e], now) == Recent(h, now) + (if now - e.time < RecencyWindow then [e] else [])
  {
    assert (h + [e])[..|h + [e]| - 1] == h;
  }

  /** Every entry the recency filter keeps is younger than the window. */
  lemma {:induction false} RecentIsRecent(h: seq<Entry>, now: real)
    ensures forall i :: 0 <= i < |Recent(h, now)| ==> now - Recent(h, now)[i].time < RecencyWindow
  {
    if h != [] {
      RecentIsRecent(h[..|h| - 1], now);
    }
  }

  /** The recency filter keeps exactly the recent entries of the history. */
  lemma {:induction false} RecentMembers(h: seq<Entry>, now: real, x: Entry)
    ensures x in Recent(h, now) <==> x in h && now - x.time < RecencyWindow
  {
    if h != [] {
      RecentMembers(h[..|h| - 1], now, x);
      assert h == h[..|h| - 1] + [h[|h| - 1]];
    }
  }

  /** A history whose entries are all recent passes the filter whole. */
  lemma {:induction false} RecentAll(h: seq<Entry>, now: real)
    requires forall i :: 0 <= i < |h| ==> now - h[i].time < RecencyWindow
    ensures Recent(h, now) == h
  {
    if h != [] {
      RecentAll(h[..|h| - 1], now);
      assert h == h[..|h| - 1] + [h[|h| - 1]];
    }
  }

  /** A sequence of at least two elements is its front followed by its last two. */
  lemma SplitLastTwo<T>(a: seq<T>)
    requires |a| >= 2
    ensures a == a[..|a| - 2] + [a[|a| - 2]] + [a[|a| - 1]]
  {
  }
}
