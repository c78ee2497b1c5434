/**
 * The coordinator of robot_v2.py, run sequentially: one call of the emotion debouncer, the
 * request/commit pair of state changes, the terminal-command dispatcher, and one iteration
 * of the state loop. Every `time.time()` of one call is the same `now` parameter; threads,
 * locks, the camera and the hardware calls are not modelled, except that the body calls a
 * command makes are recorded in order.
 */
module RobotV2 {
  import opened Wrappers
  import opened EmotionHistory

  /** `EMOTIONS`: the labels the robot reacts to, with their confidence thresholds. */
  const Emotions: map<string, real> := map["happy" := 0.95, "angry" := 0.6, "sad" := 0.5, "suprise" := 0.6, "fear" := 0.5]

  datatype RobotState = Idle | Tracking | Emotion | Transition

  /** `min_consitent_frames`. */
  const MinConsistentFrames := 2
  /** The `maxlen` of the history deque before the first rebuild. */
  const InitialHistoryCap := 5
  /** `state_cooldown`. */
  const StateCooldown: real := 0.5
  /** The grace period before a lost face sends the robot back to idle. */
  const FaceGrace: real := 10.0
  /** How long an emotion is held before returning to idle. */
  const EmotionHold: real := 4.0

  /** `_update_queue`: takes the oldest item if there is one, then puts `item` unless the queue is full. */
  function UpdateQueue<T>(q: Queue<T>, item: T): (r: Queue<T>)
    ensures r.maxsize == q.maxsize
    ensures q.Bounded() ==> r.Bounded() && r.items != [] && r.items[|r.items| - 1] == item
  {
    var drained := if q.items == [] then [] else q.items[1..];
    if q.maxsize > 0 && |drained| >= q.maxsize then q.(items := drained) else q.(items := drained + [item])
  }

  /**
   * On a queue within its bound the new item is always put, last, and the queue keeps its
   * length (at least one): a single-slot queue then holds exactly the new item, and an
   * unbounded queue loses its oldest pending item.
   */
  lemma UpdateQueueKeepsNewest<T>(q: Queue<T>, item: T)
    requires q.Bounded()
    ensures UpdateQueue(q, item).Bounded() && UpdateQueue(q, item).maxsize == q.maxsize
    ensures var r := UpdateQueue(q, item).items;
      && |r| == (if q.items == [] then 1 else |q.items|)
      && r[|r| - 1] == item
      && (q.items != [] ==> r[..|r| - 1] == q.items[1..])
    ensures q.maxsize == 1 ==> UpdateQueue(q, item).items == [item]
  {
  }

  // ---------------------------------------------------------------------------------------
  // The emotion debouncer

  /** An observation passes when its name has a threshold and its confidence reaches it. */
  predicate Accepted(name: string, confidence: real)
  {
    name in Emotions && confidence >= Emotions[name]
  }

  /** The debouncer's state: the history deque, its `maxlen`, and the single-slot emotion queue. */
  datatype Debouncer = Debouncer(history: seq<Entry>, cap: nat, queue: Queue<string>)

  /** The history after an accepted observation: appended, then rebuilt from its recent entries with `maxlen` 4. */
  function Kept(d: Debouncer, name: string, confidence: real, now: real): seq<Entry>
  {
    LastN(Recent(LastN(d.history + [Entry(name, confidence, now)], d.cap), now), MinConsistentFrames * 2)
  }

  /** The last `min_consitent_frames` kept entries share one name, and the queue is empty. */
  predicate Emits(d: Debouncer, name: string, confidence: real, now: real)
  {
    var kept := Kept(d, name, confidence, now);
    && Accepted(name, confidence)
    && |kept| >= MinConsistentFrames
    && AllSameName(kept[|kept| - MinConsistentFrames..])
    && d.queue.items == []
  }

  /** `_proccess_emotion_detection`. */
  function Observe(d: Debouncer, name: string, confidence: real, now: real): (r: Debouncer)
    ensures !Accepted(name, confidence) ==> r == d
    ensures Accepted(name, confidence) ==>
      |r.history| <= 4 && forall i :: 0 <= i < |r.history| ==> now - r.history[i].time < 2.0
  {
    if !Accepted(name, confidence) then d
    else
      KeptFacts(d, name, confidence, now);
      var kept := Kept(d, name, confidence, now);
      if Emits(d, name, confidence, now)
      then Debouncer([], MinConsistentFrames * 2, UpdateQueue(d.queue, kept[|kept| - MinConsistentFrames].name))
      else Debouncer(kept, MinConsistentFrames * 2, d.queue)
  }

  /**
   * After an observation the rebuilt history holds at most four entries, all younger than
   * two seconds, and, while the deque has room for anything, ends with the observation itself.
   */
  lemma KeptFacts(d: Debouncer, name: string, confidence: real, now: real)
    ensures var kept := Kept(d, name, confidence, now);
      && |kept| <= 4
      && (forall i :: 0 <= i < |kept| ==> now - kept[i].time < 2.0)
      && (d.cap > 0 ==> kept != [] && kept[|kept| - 1] == Entry(name, confidence, now))
  {
    var e := Entry(name, confidence, now);
    var appended := LastN(d.history + [e], d.cap);
    RecentIsRecent(appended, now);
    if d.cap > 0 {
      assert appended == appended[..|appended| - 1] + [e];
      RecentSnoc(appended[..|appended| - 1], e, now);
    }
  }

  /**
   * An accepted observation emits exactly when the entry kept before it carries the same
   * name and the queue is empty.
   */
  lemma EmitsIff(d: Debouncer, name: string, confidence: real, now: real)
    requires d.cap > 0 && Accepted(name, confidence)
    ensures var kept := Kept(d, name, confidence, now);
      Emits(d, name, confidence, now) <==> d.queue.items == [] && |kept| >= 2 && kept[|kept| - 2].name == name
  {
    KeptFacts(d, name, confidence, now);
    var kept := Kept(d, name, confidence, now);
    if |kept| >= 2 {
      var recent := kept[|kept| - 2..];
      assert recent[0] == kept[|kept| - 2] && recent[1] == kept[|kept| - 1];
    }
  }

  /**
   * A rejected observation changes nothing. An accepted one sets the deque's `maxlen` to
   * four; when it emits, the queue holds just the observed name and the history is cleared,
   * and otherwise the queue is untouched and the history is the rebuilt one.
   */
  lemma ObserveFacts(d: Debouncer, name: string, confidence: real, now: real)
    requires d.cap > 0
    ensures !Accepted(name, confidence) ==> Observe(d, name, confidence, now) == d
    ensures Accepted(name, confidence) ==>
      var r := Observe(d, name, confidence, now);
      && r.cap == 4
      && (Emits(d, name, confidence, now) ==> r.queue.items == [name] && r.history == [])
      && (!Emits(d, name, confidence, now) ==> r.queue == d.queue && r.history == Kept(d, name, confidence, now))
  {
    if Accepted(name, confidence) {
      EmitsIff(d, name, confidence, now);
    }
  }

  /**
   * Two accepted observations of one name less than two seconds apart make the second one
   * emit, provided the first left the queue empty.
   */
  lemma TwoInARowEmit(d: Debouncer, name: string, c1: real, t1: real, c2: real, t2: real)
    requires d.cap > 0
    requires Accepted(name, c1) && Accepted(name, c2) && t2 - t1 < RecencyWindow
    requires Observe(d, name, c1, t1).queue.items == []
    ensures Observe(Observe(d, name, c1, t1), name, c2, t2).queue.items == [name]
  {
    var d1 := Observe(d, name, c1, t1);
    var e1 := Entry(name, c1, t1);
    ObserveFacts(d, name, c1, t1);
    KeptFacts(d, name, c1, t1);
    assert d1.history != [] && d1.history[|d1.history| - 1] == e1;
    KeptAfterRecent(d1, name, c2, t2, e1);
    EmitsIff(d1, name, c2, t2);
    ObserveFacts(d1, name, c2, t2);
  }

  /** A recent last entry of the history is the one kept just before a new observation. */
  lemma KeptAfterRecent(d: Debouncer, name: string, confidence: real, now: real, last: Entry)
    requires d.cap == 4 && d.history != [] && d.history[|d.history| - 1] == last
    requires now - last.time < RecencyWindow
    ensures var kept := Kept(d, name, confidence, now);
      |kept| >= 2 && kept[|kept| - 2] == last
  {
    var e := Entry(name, confidence, now);
    var h := d.history + [e];
    var appended := LastN(h, 4);
    assert |appended| >= 2;
    assert appended[|appended| - 1] == h[|h| - 1] == e;
    assert appended[|appended| - 2] == h[|h| - 2] == last;
    var front := appended[..|appended| - 2];
    SplitLastTwo(appended);
    RecentSnoc(front, last, now);
    RecentSnoc(front + [last], e, now);
    var rec := Recent(appended, now);
    assert rec == Recent(front, now) + [last] + [e];
    assert rec[|rec| - 2] == last;
  }

  // ---------------------------------------------------------------------------------------
  // The robot's state record

  /** A body movement a command asks for. */
  datatype BodyCall = LookUp | LookNeutral | HomePosition

  /**
   * `close()` joins every started thread, the state loop's own among them, and Python
   * refuses to join the current thread.
   */
  datatype CommandError = CannotJoinCurrentThread

  datatype RobotData = RobotData(
    current: RobotState,
    requested: Option<RobotState>,
    emotion: Option<string>,
    emotionQueue: Queue<string>,
    commandQueue: Queue<string>,
    running: bool,
    faceDetected: bool,
    sequenceRunning: bool,
    history: seq<Entry>,
    historyCap: nat,
    lastFaceTime: real,
    emotionStartTime: real,
    lastStateChange: real,
    bodyCalls: seq<BodyCall>)

  /** The state `__init__` leaves. */
  function Initial(): (s: RobotData)
    ensures Coherent(s)
  {
    RobotData(Idle, None, None, Queue([], 1), Queue([], 0), true, false, false, [], InitialHistoryCap, 0.0, 0.0, 0.0, [])
  }

  /** A pending request always names a state other than the current one. */
  predicate Coherent(s: RobotData)
  {
    s.requested.None? || s.requested.value != s.current
  }

  /** `_request_state_change`. */
  function Request(s: RobotData, newState: RobotState): (r: RobotData)
    ensures r.current == s.current
    ensures Coherent(s) ==> Coherent(r)
  {
    if newState != s.current then s.(requested := Some(newState)) else s
  }

  /** `_can_change_state`: no sequence running and the cooldown elapsed. */
  predicate CanChange(s: RobotData, now: real)
  {
    !s.sequenceRunning && now - s.lastStateChange >= StateCooldown
  }

  /** `_execute_state_change`. */
  function Execute(s: RobotData, newState: RobotState, now: real): (r: RobotData)
    ensures r.current == newState
    ensures Coherent(s) ==> Coherent(r)
  {
    if newState != s.current then s.(current := newState, requested := None, lastStateChange := now) else s
  }

  /** The last step of a state-loop iteration: commit a pending request when allowed. */
  function Commit(s: RobotData, now: real): (r: RobotData)
    ensures Coherent(s) ==> Coherent(r)
    ensures r.current != s.current ==> !s.sequenceRunning && r.lastStateChange == now
  {
    if s.requested.Some? && CanChange(s, now) then Execute(s, s.requested.value, now) else s
  }

  /** A request is recorded only for another state, and it replaces any earlier one. */
  lemma RequestFacts(s: RobotData, newState: RobotState)
    requires Coherent(s)
    ensures Coherent(Request(s, newState))
    ensures newState != s.current ==> Request(s, newState).requested == Some(newState)
    ensures newState == s.current ==> Request(s, newState) == s
    ensures Request(s, newState).current == s.current
  {
  }

  /**
   * A commit happens exactly when a request is pending, no sequence runs and the cooldown
   * has elapsed; it then always changes the state, to the requested one, clears the
   * request and stamps the change. Coherence is kept either way.
   */
  lemma CommitFacts(s: RobotData, now: real)
    requires Coherent(s)
    ensures Coherent(Commit(s, now))
    ensures Commit(s, now).current != s.current <==> s.requested.Some? && CanChange(s, now)
    ensures Commit(s, now).current != s.current ==>
      && Commit(s, now) == s.(current := s.requested.value, requested := None, lastStateChange := now)
      && !s.sequenceRunning && now - s.lastStateChange >= 0.5
    ensures Commit(s, now).current == s.current ==> Commit(s, now) == s
  {
  }

  /** An executed change to another state clears the request, so any state is coherent afterwards. */
  lemma ExecuteFacts(s: RobotData, newState: RobotState, now: real)
    requires Coherent(s)
    ensures Coherent(Execute(s, newState, now))
    ensures Execute(s, newState, now).current == newState
    ensures newState == s.current ==> Execute(s, newState, now) == s
  {
  }

  // ---------------------------------------------------------------------------------------
  // Commands

  /** `str.isspace` on ASCII. */
  predicate IsSpace(c: char)
  {
    c == ' ' || 9 <= c as int <= 13 || 28 <= c as int <= 31
  }

  /** `str.lstrip()`: the longest suffix that does not start with white space. */
  function TrimStart(s: string): (r: string)
    ensures |r| <= |s| && r == s[|s| - |r|..]
    ensures r == [] || !IsSpace(r[0])
  {
    if s != [] && IsSpace(s[0]) then TrimStart(s[1..]) else s
  }

  /** `str.rstrip()`: the longest prefix that does not end with white space. */
  function TrimEnd(s: string): (r: string)
    ensures |r| <= |s| && r == s[..|r|]
    ensures r == [] || !IsSpace(r[|r| - 1])
  {
    if s != [] && IsSpace(s[|s| - 1]) then TrimEnd(s[..|s| - 1]) else s
  }

  /** Nothing but white space. */
  predicate AllSpace(x: string)
  {
    x == [] || (IsSpace(x[0]) && AllSpace(x[1..]))
  }

  /** White space followed by one more white-space character is white space. */
  lemma {:induction false} AllSpaceSnoc(x: string, c: char)
    requires AllSpace(x) && IsSpace(c)
    ensures AllSpace(x + [c])
  {
    if x != [] {
      assert (x + [c])[1..] == x[1..] + [c];
      AllSpaceSnoc(x[1..], c);
    }
  }

  /** Dropping the last character of white space leaves white space. */
  lemma {:induction false} AllSpaceFront(x: string)
    requires AllSpace(x) && x != []
    ensures IsSpace(x[|x| - 1]) && AllSpace(x[..|x| - 1])
  {
    if |x| > 1 {
      AllSpaceFront(x[1..]);
      assert x[..|x| - 1] == [x[0]] + x[1..][..|x| - 2];
      assert x[..|x| - 1][1..] == x[1..][..|x| - 2];
    }
  }

  /** Everything `TrimStart` cuts off is white space. */
  lemma {:induction false} TrimStartCuts(s: string)
    ensures AllSpace(s[..|s| - |TrimStart(s)|])
  {
    if s != [] && IsSpace(s[0]) {
      TrimStartCuts(s[1..]);
      assert s[..|s| - |TrimStart(s)|] == [s[0]] + s[1..][..|s[1..]| - |TrimStart(s[1..])|];
    }
  }

  /** Everything `TrimEnd` cuts off is white space. */
  lemma {:induction false} TrimEndCuts(s: string)
    ensures AllSpace(s[|TrimEnd(s)|..])
  {
    if s != [] && IsSpace(s[|s| - 1]) {
      var front := s[..|s| - 1];
      TrimEndCuts(front);
      assert s[|TrimEnd(s)|..] == front[|TrimEnd(front)|..] + [s[|s| - 1]];
      AllSpaceSnoc(front[|TrimEnd(front)|..], s[|s| - 1]);
    }
  }

  /** `str.strip()`. */
  function Strip(s: string): string
  {
    TrimEnd(TrimStart(s))
  }

  /** Stripping leaves no white space at either end. */
  lemma StripEnds(s: string)
    ensures var r := Strip(s);
      r == [] || (!IsSpace(r[0]) && !IsSpace(r[|r| - 1]))
  {
    var t := TrimStart(s);
    var r := TrimEnd(t);
    if r != [] {
      assert r[0] == t[0];
    }
  }

  /** `r` sits in `s` at offset `i` with nothing but white space before and after it. */
  predicate PaddedAt(s: string, i: int, r: string)
  {
    && 0 <= i && i + |r| <= |s| && s[i..i + |r|] == r
    && AllSpace(s[..i]) && AllSpace(s[i + |r|..])
  }

  /**
   * Stripping removes only surrounding white space: the stripped text is a slice of the
   * input, starting where the leading white space ends, with nothing but white space before
   * and after it.
   */
  lemma StripSplits(s: string)
    ensures PaddedAt(s, |s| - |TrimStart(s)|, Strip(s))
  {
    var t := TrimStart(s);
    TrimStartCuts(s);
    TrimEndCuts(t);
    StripPieces(s, t, TrimEnd(t));
  }

  /**
   * A prefix `r` of a suffix `t` of `s` is a slice of `s`; when what precedes `t` and what
   * follows `r` in `t` is white space, so is what precedes and follows the slice in `s`.
   */
  lemma StripPieces(s: string, t: string, r: string)
    requires |t| <= |s| && t == s[|s| - |t|..]
    requires |r| <= |t| && r == t[..|r|]
    requires AllSpace(s[..|s| - |t|]) && AllSpace(t[|r|..])
    ensures PaddedAt(s, |s| - |t|, r)
  {
    assert s[|s| - |t| + |r|..] == t[|r|..];
  }

  /** Stripping twice strips no more than once. */
  lemma StripIdempotent(s: string)
    ensures Strip(Strip(s)) == Strip(s)
  {
    var t := TrimStart(s);
    var r := TrimEnd(t);
    if r != [] {
      assert r[0] == t[0];
    }
    assert TrimStart(r) == r;
  }

  /** What `_execute_command` does with a command, after stripping it. */
  datatype Command = Stop | Status | ShowEmotion(emotion: string) | Up | Neutral | Home | Unknown

  /** `_execute_command` classifies the stripped command. */
  function ParseCommand(cmd: string): (c: Command)
    ensures c.ShowEmotion? ==> c.emotion in Emotions
  {
    Classify(Strip(cmd))
  }

  /** The `if`/`elif` chain of `_execute_command`, in its order. */
  function Classify(t: string): (c: Command)
    ensures c.ShowEmotion? ==> c.emotion in Emotions
  {
    if t in ["stop", "quit", "exit"] then Stop
    else if t == "status" then Status
    else if t in Emotions then ShowEmotion(t)
    else if t in ["look up", "up"] then Up
    else if t in ["look down", "down", "neutral", "look neutral"] then Neutral
    else if t == "home" then Home
    else Unknown
  }

  /** One word for each command. */
  function CommandWord(c: Command): string
  {
    match c
    case Stop => "stop"
    case Status => "status"
    case ShowEmotion(e) => e
    case Up => "up"
    case Neutral => "neutral"
    case Home => "home"
    case Unknown => "dance"
  }

  /** Classifying undoes `CommandWord`; the word is never empty and has no white space at its ends. */
  lemma ClassifyWord(c: Command)
    requires c.ShowEmotion? ==> c.emotion in Emotions
    ensures var w := CommandWord(c);
      Classify(w) == c && w != [] && !IsSpace(w[0]) && !IsSpace(w[|w| - 1])
  {
    if c.ShowEmotion? {
      assert c.emotion in {"happy", "angry", "sad", "suprise", "fear"};
    }
  }

  /**
   * Every command is reached by its word, whatever white space surrounds it: parsing undoes
   * `CommandWord`.
   */
  lemma ParseCommandWord(c: Command, pad1: string, pad2: string)
    requires c.ShowEmotion? ==> c.emotion in Emotions
    requires AllSpace(pad1) && AllSpace(pad2)
    ensures ParseCommand(pad1 + CommandWord(c) + pad2) == c
  {
    ClassifyWord(c);
    PaddedStrip(pad1, CommandWord(c), pad2);
  }

  /** Stripping removes exactly the padding around a word that neither starts nor ends with white space. */
  lemma {:induction false} PaddedStrip(pad1: string, w: string, pad2: string)
    requires w != [] && !IsSpace(w[0]) && !IsSpace(w[|w| - 1])
    requires AllSpace(pad1) && AllSpace(pad2)
    ensures Strip(pad1 + w + pad2) == w
  {
    assert pad1 + w + pad2 == pad1 + (w + pad2);
    StartPadding(pad1, w + pad2);
    EndPadding(w, pad2);
  }

  lemma {:induction false} StartPadding(pad: string, t: string)
    requires t != [] && !IsSpace(t[0])
    requires AllSpace(pad)
    ensures TrimStart(pad + t) == t
    decreases |pad|
  {
    if pad == [] {
      assert pad + t == t;
    } else {
      var rest := pad[1..];
      assert IsSpace(pad[0]);
      assert (pad + t)[0] == pad[0];
      assert (pad + t)[1..] == rest + t;
      StartPadding(rest, t);
    }
  }

  lemma {:induction false} EndPadding(t: string, pad: string)
    requires t != [] && !IsSpace(t[|t| - 1])
    requires AllSpace(pad)
    ensures TrimEnd(t + pad) == t
    decreases |pad|
  {
    if pad != [] {
      assert (t + pad)[..|t + pad| - 1] == t + pad[..|pad| - 1];
      AllSpaceFront(pad);
      EndPadding(t, pad[..|pad| - 1]);
    } else {
      assert t + pad == t;
    }
  }

  /**
   * `_execute_command` on a parsed command. A stop word clears `running` and then `close()`
   * raises before any hardware is released, so `sequence_running` is left set; every other
   * command ends with `sequence_running` cleared.
   */
  function CommandEffect(s: RobotData, c: Command, now: real): (r: (RobotData, Outcome<CommandError>))
    ensures r.1.Fail? <==> c == Stop
    ensures r.0.current == s.current && r.0.commandQueue == s.commandQueue
  {
    var busy := s.(sequenceRunning := true);
    match c
    case Stop => (busy.(running := false), Fail(CannotJoinCurrentThread))
    case ShowEmotion(e) => (Request(busy.(emotion := Some(e), emotionStartTime := now), Emotion).(sequenceRunning := false), Pass)
    case Up => (s.(bodyCalls := s.bodyCalls + [LookUp], sequenceRunning := false), Pass)
    case Neutral => (s.(bodyCalls := s.bodyCalls + [LookNeutral], sequenceRunning := false), Pass)
    case Home => (s.(bodyCalls := s.bodyCalls + [HomePosition], sequenceRunning := false), Pass)
    case _ => (s.(sequenceRunning := false), Pass)
  }

  /**
   * Only a stop word fails, and it stops the loop with `sequence_running` left set; any
   * other command clears `sequence_running`, leaves `running` alone and keeps coherence.
   * An emotion name selects the emotion, stamps its start and requests EMOTION unless the
   * robot is already showing one; a movement word adds its one body call; "status" and
   * unknown words change nothing else. No command changes the current state.
   */
  lemma CommandEffectFacts(s: RobotData, c: Command, now: real)
    requires Coherent(s)
    ensures var (r, out) := CommandEffect(s, c, now);
      && Coherent(r) && r.current == s.current && r.lastStateChange == s.lastStateChange
      && r.commandQueue == s.commandQueue
      && (out.Fail? <==> c == Stop)
      && (out.Fail? ==> r == s.(running := false, sequenceRunning := true))
      && (out.Pass? ==> !r.sequenceRunning && r.running == s.running)
      && (c.ShowEmotion? ==>
            && r.emotion == Some(c.emotion) && r.emotionStartTime == now && r.bodyCalls == s.bodyCalls
            && r.requested == (if s.current == Emotion then s.requested else Some(Emotion)))
      && (c.Up? ==> r == s.(bodyCalls := s.bodyCalls + [LookUp], sequenceRunning := false))
      && (c.Neutral? ==> r == s.(bodyCalls := s.bodyCalls + [LookNeutral], sequenceRunning := false))
      && (c.Home? ==> r == s.(bodyCalls := s.bodyCalls + [HomePosition], sequenceRunning := false))
      && (c.Status? || c.Unknown? ==> r == s.(sequenceRunning := false))
  {
  }

  /** `_proccess_commands`: runs the pending commands oldest first, stopping at one that raises. */
  function Drain(s: RobotData, now: real): (r: (RobotData, Outcome<CommandError>))
    ensures r.0.current == s.current
    ensures r.1.Pass? ==> r.0.commandQueue.items == []
    decreases |s.commandQueue.items|
  {
    if s.commandQueue.items == [] then (s, Pass)
    else
      var cmd := s.commandQueue.items[0];
      var popped := s.(commandQueue := s.commandQueue.(items := s.commandQueue.items[1..]));
      var (next, out) := CommandEffect(popped, ParseCommand(cmd), now);
      if out.Fail? then (next, out) else Drain(next, now)
  }

  /** The record with its oldest pending command taken off. */
  function Popped(s: RobotData): RobotData
    requires s.commandQueue.items != []
  {
    s.(commandQueue := s.commandQueue.(items := s.commandQueue.items[1..]))
  }

  /** Draining runs the oldest command on the popped record, and goes on from there unless it failed. */
  lemma DrainStep(s: RobotData, now: real)
    requires s.commandQueue.items != []
    ensures var r := CommandEffect(Popped(s), ParseCommand(s.commandQueue.items[0]), now);
      Drain(s, now) == if r.1.Fail? then r else Drain(r.0, now)
  {
  }

  /**
   * Draining keeps coherence and the current state; when it completes, no command is left
   * and no sequence is marked running unless one was before and no command ran; when it
   * fails, the loop has been told to stop.
   */
  lemma {:induction false} DrainFacts(s: RobotData, now: real)
    requires Coherent(s)
    ensures var (r, out) := Drain(s, now);
      && Coherent(r) && r.current == s.current && r.lastStateChange == s.lastStateChange
      && (out.Pass? ==> r.commandQueue.items == [] && r.running == s.running)
      && (out.Pass? && s.commandQueue.items != [] ==> !r.sequenceRunning)
      && (s.commandQueue.items == [] ==> r == s && out == Pass)
      && (out.Fail? ==> !r.running)
    decreases |s.commandQueue.items|
  {
    if s.commandQueue.items != [] {
      var cmd := s.commandQueue.items[0];
      var popped := s.(commandQueue := s.commandQueue.(items := s.commandQueue.items[1..]));
      CommandEffectFacts(popped, ParseCommand(cmd), now);
      var (next, out) := CommandEffect(popped, ParseCommand(cmd), now);
      if out.Pass? {
        DrainFacts(next, now);
        if next.commandQueue.items != [] {
          assert !Drain(next, now).0.sequenceRunning || Drain(next, now).1.Fail?;
        } else {
          assert Drain(next, now) == (next, Pass);
        }
      }
    }
  }

  // ---------------------------------------------------------------------------------------
  // One iteration of the state loop

  /** The state decision of `_state_loop`, after the commands and before the commit. */
  function Decide(s: RobotData, now: real): (r: RobotData)
    ensures r.current == s.current && r.lastStateChange == s.lastStateChange
  {
    match s.current
    case Idle => if s.faceDetected then Request(s, Tracking) else s
    case Tracking =>
      if !s.faceDetected then
        if now - s.lastFaceTime > FaceGrace then Request(s, Idle) else s
      else if s.emotionQueue.items != [] then
        var e := s.emotionQueue.items[0];
        var taken := s.(emotionQueue := s.emotionQueue.(items := s.emotionQueue.items[1..]));
        Request(taken.(emotion := Some(e), emotionStartTime := now), Emotion)
      else s
    case Emotion =>
      if !s.sequenceRunning && now - s.emotionStartTime >= EmotionHold then Request(s, Idle) else s
    case Transition => s
  }

  /** One iteration: the commands, then, unless one raised, the decision and the commit. */
  function Tick(s: RobotData, now: real): (r: RobotData)
    ensures r.current != s.current ==> r.lastStateChange == now
  {
    var (afterCommands, out) := Drain(s, now);
    if out.Fail? then afterCommands else Commit(Decide(afterCommands, now), now)
  }

  /** The decision requests what the loop's rules say for the current state, and keeps coherence. */
  lemma DecideFacts(s: RobotData, now: real)
    requires Coherent(s)
    ensures Coherent(Decide(s, now)) && Decide(s, now).current == s.current
    ensures Decide(s, now).lastStateChange == s.lastStateChange && Decide(s, now).sequenceRunning == s.sequenceRunning
    ensures s.current == Idle && s.faceDetected ==> Decide(s, now).requested == Some(Tracking)
    ensures s.current == Tracking && !s.faceDetected && now - s.lastFaceTime > 10.0 ==>
      Decide(s, now).requested == Some(Idle)
    ensures s.current == Tracking && s.faceDetected && s.emotionQueue.items != [] ==>
      && Decide(s, now).requested == Some(Emotion)
      && Decide(s, now).emotion == Some(s.emotionQueue.items[0])
      && Decide(s, now).emotionStartTime == now
      && Decide(s, now).emotionQueue.items == s.emotionQueue.items[1..]
    ensures s.current == Emotion && !s.sequenceRunning && now - s.emotionStartTime >= 4.0 ==>
      Decide(s, now).requested == Some(Idle)
    ensures (s.current == Idle && !s.faceDetected)
         || (s.current == Tracking && !s.faceDetected && now - s.lastFaceTime <= 10.0)
         || (s.current == Tracking && s.faceDetected && s.emotionQueue.items == [])
         || (s.current == Emotion && (s.sequenceRunning || now - s.emotionStartTime < 4.0))
         || s.current == Transition
         ==> Decide(s, now) == s
  {
  }

  /**
   * An iteration keeps coherence. It changes state only when no sequence runs and the
   * cooldown has elapsed, stamping the change; and, with no commands and no earlier
   * request pending, it moves only along the loop's transitions: idle to tracking,
   * tracking to idle or emotion, emotion to idle.
   */
  lemma TickFacts(s: RobotData, now: real)
    requires Coherent(s)
    ensures Coherent(Tick(s, now))
    ensures Tick(s, now).current != s.current ==>
      !Drain(s, now).0.sequenceRunning && now - s.lastStateChange >= StateCooldown
      && Tick(s, now).lastStateChange == now && Tick(s, now).requested == None
    ensures s.commandQueue.items == [] && s.requested == None && Tick(s, now).current != s.current ==>
      || (s.current == Idle && Tick(s, now).current == Tracking)
      || (s.current == Tracking && Tick(s, now).current in {Idle, Emotion})
      || (s.current == Emotion && Tick(s, now).current == Idle)
  {
    DrainFacts(s, now);
    var (afterCommands, out) := Drain(s, now);
    if out.Pass? {
      DecideFacts(afterCommands, now);
      CommitFacts(Decide(afterCommands, now), now);
    }
  }

  /**
   * Requests are never withdrawn: a tracking robot told to go idle while a sequence runs
   * still goes idle on a later iteration, although the face has come back by then.
   */
  lemma StaleRequestCommits()
    ensures var s := Initial().(current := Tracking, requested := Some(Idle), faceDetected := true, lastStateChange := 1.0);
      Coherent(s) && Tick(s, 2.0).current == Idle
  {
  }

  // ---------------------------------------------------------------------------------------
  // The robot object

  class Robot {
    var current: RobotState
    var requested: Option<RobotState>
    var emotion: Option<string>
    var emotionQueue: Queue<string>
    var commandQueue: Queue<string>
    var running: bool
    var faceDetected: bool
    var sequenceRunning: bool
    var history: seq<Entry>
    var historyCap: nat
    var lastFaceTime: real
    var emotionStartTime: real
    var lastStateChange: real
    var bodyCalls: seq<BodyCall>

    /** The robot's fields as one record. */
    function Data(): RobotData
      reads this
    {
      RobotData(current, requested, emotion, emotionQueue, commandQueue, running, faceDetected, sequenceRunning,
                history, historyCap, lastFaceTime, emotionStartTime, lastStateChange, bodyCalls)
    }

    /** The debouncer's part of the fields. */
    function DebouncerOf(): Debouncer
      reads this
    {
      Debouncer(history, historyCap, emotionQueue)
    }

    /** `__init__`. */
    constructor ()
      ensures Data() == Initial()
    {
      current := Idle;
      requested := None;
      emotion := None;
      emotionQueue := Queue([], 1);
      commandQueue := Queue([], 0);
      running := true;
      faceDetected := false;
      sequenceRunning := false;
      history := [];
      historyCap := InitialHistoryCap;
      lastFaceTime := 0.0;
      emotionStartTime := 0.0;
      lastStateChange := 0.0;
      bodyCalls := [];
    }

    /** `_request_state_change`: whether a request was recorded. */
    method RequestStateChange(newState: RobotState) returns (recorded: bool)
      modifies this
      ensures Data() == Request(old(Data()), newState)
      ensures recorded <==> newState != old(current)
    {
      if newState != current {
        requested := Some(newState);
        return true;
      }
      return false;
    }

    /** `_can_change_state`. */
    method CanChangeState(now: real) returns (ok: bool)
      ensures ok <==> CanChange(Data(), now)
    {
      var sequenceDone := !sequenceRunning;
      var timeOk := now - lastStateChange >= StateCooldown;
      return sequenceDone && timeOk;
    }

    /** `_execute_state_change`: whether the state changed. */
    method ExecuteStateChange(newState: RobotState, now: real) returns (changed: bool)
      modifies this
      ensures Data() == Execute(old(Data()), newState, now)
      ensures changed <==> newState != old(current)
    {
      if newState != current {
        current := newState;
        requested := None;
        lastStateChange := now;
        return true;
      }
      return false;
    }

    /** `_proccess_emotion_detection`: only the history, its `maxlen` and the emotion queue change. */
    method ProcessEmotionDetection(name: string, confidence: real, now: real)
      modifies `history, `historyCap, `emotionQueue
      ensures DebouncerOf() == Observe(old(DebouncerOf()), name, confidence, now)
    {
      if !Accepted(name, confidence) {
        return;
      }
      ghost var d := DebouncerOf();
      history := LastN(history + [Entry(name, confidence, now)], historyCap);
      history := LastN(Recent(history, now), MinConsistentFrames * 2);
      historyCap := MinConsistentFrames * 2;
      assert history == Kept(d, name, confidence, now);
      if |history| >= MinConsistentFrames {
        var recent := history[|history| - MinConsistentFrames..];
        var same := AllSameName(recent);
        if same && emotionQueue.items == [] {
          emotionQueue := UpdateQueue(emotionQueue, recent[0].name);
          history := [];
        }
      }
    }

    /** `_execute_command`. */
    method ExecuteCommand(cmd: string, now: real) returns (out: Outcome<CommandError>)
      modifies this
      ensures (Data(), out) == CommandEffect(old(Data()), ParseCommand(cmd), now)
      ensures commandQueue == old(commandQueue)
    {
      var c := ParseCommand(cmd);
      out := Perform(c, now);
    }

    /** The branches of `_execute_command`, once the command is classified. */
    method Perform(c: Command, now: real) returns (out: Outcome<CommandError>)
      modifies this
      ensures (Data(), out) == CommandEffect(old(Data()), c, now)
      ensures commandQueue == old(commandQueue)
    {
      sequenceRunning := true;
      match c {
        case Stop =>
          running := false;
          return Fail(CannotJoinCurrentThread);
        case ShowEmotion(e) =>
          emotion := Some(e);
          emotionStartTime := now;
          var recorded := RequestStateChange(Emotion);
        case Up =>
          bodyCalls := bodyCalls + [LookUp];
        case Neutral =>
          bodyCalls := bodyCalls + [LookNeutral];
        case Home =>
          bodyCalls := bodyCalls + [HomePosition];
        case _ =>
      }
      sequenceRunning := false;
      return Pass;
    }

    /** `_proccess_commands`. */
    method ProcessCommands(now: real) returns (out: Outcome<CommandError>)
      modifies this
      ensures (Data(), out) == Drain(old(Data()), now)
    {
      while commandQueue.items != []
        invariant Drain(Data(), now) == Drain(old(Data()), now)
        decreases |commandQueue.items|
      {
        out := NextCommand(now);
        if out.Fail? {
          return;
        }
      }
      return Pass;
    }

    /** One round of `_proccess_commands`: take the oldest command and run it. */
    method NextCommand(now: real) returns (out: Outcome<CommandError>)
      requires commandQueue.items != []
      modifies this
      ensures |commandQueue.items| < |old(commandQueue.items)|
      ensures Drain(old(Data()), now) == if out.Fail? then (Data(), out) else Drain(Data(), now)
    {
      ghost var before := Data();
      var cmd := commandQueue.items[0];
      commandQueue := commandQueue.(items := commandQueue.items[1..]);
      assert Data() == Popped(before);
      out := ExecuteCommand(cmd, now);
      DrainStep(before, now);
    }

    /** One iteration of `_state_loop`. */
    method StateTick(now: real)
      modifies this
      ensures Data() == Tick(old(Data()), now)
    {
      var out := ProcessCommands(now);
      if out.Fail? {
        return;
      }
      DecideState(now);
      if requested.Some? {
        var ok := CanChangeState(now);
        if ok {
          var changed := ExecuteStateChange(requested.value, now);
        }
      }
    }

    /** The state decision of `_state_loop`. */
    method DecideState(now: real)
      modifies this
      ensures Data() == Decide(old(Data()), now)
    {
      var recorded;
      match current {
        case Idle =>
          if faceDetected {
            recorded := RequestStateChange(Tracking);
          }
        case Tracking =>
          if !faceDetected {
            if now - lastFaceTime > FaceGrace {
              recorded := RequestStateChange(Idle);
            }
          } else if emotionQueue.items != [] {
            var e := emotionQueue.items[0];
            emotionQueue := emotionQueue.(items := emotionQueue.items[1..]);
            emotion := Some(e);
            emotionStartTime := now;
            recorded := RequestStateChange(Emotion);
          }
        case Emotion =>
          if !sequenceRunning && now - emotionStartTime >= EmotionHold {
            recorded := RequestStateChange(Idle);
          }
        case Transition =>
      }
    }
  }
}
