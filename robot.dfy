/**
 * The first coordinator, robot.py, run sequentially: one call of its emotion debouncer, its
 * immediate `_change_state`, one iteration of its decision loop, and the face displacement
 * the body loop tracks. Unlike robot_v2.py it has strict thresholds, needs more than three
 * recent entries, keeps the history when it emits (only the vision loop clears it), and
 * changes state at once with no cooldown.
 * Every `time.time()` of one call is the same `now` parameter.
 */
module RobotV1 {
  import opened Wrappers
  import opened EmotionHistory
  import Detector

  /** `EMOTIONS`: the labels this robot reacts to, with their confidence thresholds. */
  const Emotions: map<string, real> := map["happy" := 0.8, "angry" := 0.4]

  datatype RobotState = Idle | Tracking | Emotion | Transition

  /** `min_consitent_frames`. */
  const MinConsistentFrames := 3
  /** The `maxlen` of the history deque before the first rebuild. */
  const InitialHistoryCap := 5
  /** `emotion_duration`: how long an emotion is held. */
  const EmotionDuration: real := 6.0
  /** `320 // 2`: the centre column of the camera frame. */
  const FrameCenterX := 160

  // ---------------------------------------------------------------------------------------
  // The emotion debouncer

  /** An observation passes when its label has a threshold and its confidence exceeds it. */
  predicate Accepted(name: string, confidence: real)
  {
    name in Emotions && confidence > Emotions[name]
  }

  /** The debouncer's state: the history deque, its `maxlen`, and the single-slot emotion queue. */
  datatype Debouncer = Debouncer(history: seq<Entry>, cap: nat, queue: Queue<string>)

  /** The debouncer `__init__` leaves. */
  const Fresh := Debouncer([], InitialHistoryCap, Queue([], 1))

  /** The history after an accepted observation: appended, then rebuilt from its recent entries with `maxlen` 6. */
  function Kept(d: Debouncer, name: string, confidence: real, now: real): seq<Entry>
  {
    LastN(Recent(LastN(d.history + [Entry(name, confidence, now)], d.cap), now), MinConsistentFrames * 2)
  }

  /** More than `min_consitent_frames` entries are kept, the last three share a name, and the queue is not full. */
  predicate Emits(d: Debouncer, name: string, confidence: real, now: real)
  {
    var kept := Kept(d, name, confidence, now);
    && Accepted(name, confidence)
    && |kept| > MinConsistentFrames
    && AllSameName(kept[|kept| - MinConsistentFrames..])
    && !d.queue.Full()
  }

  /** `_proccess_emotion_detection`: take the oldest queued label if any, then put the new one. */
  function Observe(d: Debouncer, name: string, confidence: real, now: real): (r: Debouncer)
    ensures !Accepted(name, confidence) ==> r == d
    ensures Accepted(name, confidence) ==>
      && |r.history| <= 6 && |r.history| <= |d.history| + 1
      && forall i :: 0 <= i < |r.history| ==> now - r.history[i].time < 2.0
  {
    if !Accepted(name, confidence) then d
    else
      KeptFacts(d, name, confidence, now);
      var kept := Kept(d, name, confidence, now);
      if Emits(d, name, confidence, now) then
        var drained := if d.queue.items == [] then [] else d.queue.items[1..];
        Debouncer(kept, MinConsistentFrames * 2, d.queue.(items := drained + [kept[|kept| - MinConsistentFrames].name]))
      else Debouncer(kept, MinConsistentFrames * 2, d.queue)
  }

  /**
   * After an observation the rebuilt history holds at most six entries, at most one more
   * than before, all younger than two seconds, and, while the deque has room for anything,
   * ends with the observation itself.
   */
  lemma KeptFacts(d: Debouncer, name: string, confidence: real, now: real)
    ensures var kept := Kept(d, name, confidence, now);
      && |kept| <= 6 && |kept| <= |d.history| + 1
      && (forall i :: 0 <= i < |kept| ==> now - kept[i].time < 2.0)
      && (d.cap > 0 ==> kept != [] && kept[|kept| - 1] == Entry(name, confidence, now))
  {
    var e := Entry(name, confidence, now);
    var appended := LastN(d.history + [e], d.cap);
    RecentIsRecent(appended, now);
    if d.cap > 0 {
      assert appended == appended[..|appended| - 1] + [e];
      RecentSnoc(appended[..|appended| - 1], e, now);
    }
  }

  /**
   * An accepted observation emits exactly when the queue has room, more than three entries
   * are kept, and the two kept before it carry the same name.
   */
  lemma EmitsIff(d: Debouncer, name: string, confidence: real, now: real)
    requires d.cap > 0 && Accepted(name, confidence)
    ensures var kept := Kept(d, name, confidence, now);
      Emits(d, name, confidence, now) <==>
        !d.queue.Full() && |kept| > 3 && kept[|kept| - 3].name == name && kept[|kept| - 2].name == name
  {
    KeptFacts(d, name, confidence, now);
    var kept := Kept(d, name, confidence, now);
    if |kept| > 3 {
      var recent := kept[|kept| - 3..];
      assert recent[0] == kept[|kept| - 3] && recent[1] == kept[|kept| - 2] && recent[2] == kept[|kept| - 1];
    }
  }

  /**
   * A rejected observation changes nothing. An accepted one always keeps the rebuilt history,
   * even when it emits, and sets the deque's `maxlen` to six. When it emits into the
   * single-slot queue, the queue holds just the observed name; otherwise the queue is
   * untouched, so a label found while the queue is full is dropped.
   */
  lemma ObserveFacts(d: Debouncer, name: string, confidence: real, now: real)
    requires d.cap > 0 && d.queue.maxsize == 1 && d.queue.Bounded()
    ensures !Accepted(name, confidence) ==> Observe(d, name, confidence, now) == d
    ensures Accepted(name, confidence) ==>
      var r := Observe(d, name, confidence, now);
      && r.cap == 6 && r.history == Kept(d, name, confidence, now)
      && (Emits(d, name, confidence, now) ==> d.queue.items == [] && r.queue.items == [name])
      && (!Emits(d, name, confidence, now) ==> r.queue == d.queue)
      && (d.queue.Full() ==> r.queue == d.queue)
  {
    if Accepted(name, confidence) {
      EmitsIff(d, name, confidence, now);
    }
  }

  /**
   * Emission needs more than three recent accepted entries, of which only the last three must
   * agree. So from a fresh debouncer three accepted observations of one name leave the queue
   * empty, and a fourth is needed.
   */
  lemma FreshThreeDoNotEmit(name: string, c1: real, t1: real, c2: real, t2: real, c3: real, t3: real)
    requires Accepted(name, c1) && Accepted(name, c2) && Accepted(name, c3)
    ensures Observe(Observe(Observe(Fresh, name, c1, t1), name, c2, t2), name, c3, t3).queue.items == []
  {
    var d1 := Observe(Fresh, name, c1, t1);
    assert |d1.history| <= 1 && d1.queue.items == [];
    var d2 := Observe(d1, name, c2, t2);
    assert |d2.history| <= 2 && d2.queue.items == [];
    KeptFacts(d2, name, c3, t3);
  }

  /**
   * Three consistent detections do emit when any other accepted detection came shortly
   * before them: a weak "angry" followed by three confident "happy"s within 0.3 s queues "happy".
   */
  lemma ThreeAfterOtherEmit()
    ensures Observe(Observe(Observe(Observe(Fresh, "angry", 0.5, 0.0), "happy", 0.9, 0.1), "happy", 0.9, 0.2), "happy", 0.9, 0.3).queue.items
         == ["happy"]
  {
    OtherThenTwoQuiet();
    ThirdAgreeingEmits();
  }

  /** The weak "angry" and the first two "happy"s are only recorded. */
  lemma OtherThenTwoQuiet()
    ensures Observe(Observe(Observe(Fresh, "angry", 0.5, 0.0), "happy", 0.9, 0.1), "happy", 0.9, 0.2)
         == Debouncer([Entry("angry", 0.5, 0.0), Entry("happy", 0.9, 0.1), Entry("happy", 0.9, 0.2)], 6, Queue([], 1))
  {
    WeakAngryRecorded();
    FirstHappyRecorded();
    SecondHappyRecorded();
  }

  lemma WeakAngryRecorded()
    ensures Observe(Fresh, "angry", 0.5, 0.0) == Debouncer([Entry("angry", 0.5, 0.0)], 6, Queue([], 1))
  {
    var a := Entry("angry", 0.5, 0.0);
    QuietStep(Fresh, "angry", 0.5, 0.0);
    assert [] + [a] == [a];
  }

  lemma FirstHappyRecorded()
    ensures Observe(Debouncer([Entry("angry", 0.5, 0.0)], 6, Queue([], 1)), "happy", 0.9, 0.1)
         == Debouncer([Entry("angry", 0.5, 0.0), Entry("happy", 0.9, 0.1)], 6, Queue([], 1))
  {
    var a, h1 := Entry("angry", 0.5, 0.0), Entry("happy", 0.9, 0.1);
    QuietStep(Debouncer([a], 6, Queue([], 1)), "happy", 0.9, 0.1);
    assert [a] + [h1] == [a, h1];
  }

  lemma SecondHappyRecorded()
    ensures Observe(Debouncer([Entry("angry", 0.5, 0.0), Entry("happy", 0.9, 0.1)], 6, Queue([], 1)), "happy", 0.9, 0.2)
         == Debouncer([Entry("angry", 0.5, 0.0), Entry("happy", 0.9, 0.1), Entry("happy", 0.9, 0.2)], 6, Queue([], 1))
  {
    var a, h1, h2 := Entry("angry", 0.5, 0.0), Entry("happy", 0.9, 0.1), Entry("happy", 0.9, 0.2);
    var h := [a, h1];
    assert forall i :: 0 <= i < |h| ==> 0.2 - h[i].time < RecencyWindow;
    QuietStep(Debouncer(h, 6, Queue([], 1)), "happy", 0.9, 0.2);
    assert h + [h2] == [a, h1, h2];
  }

  /** The third "happy" makes four recent entries whose last three agree, so it emits. */
  lemma ThirdAgreeingEmits()
    ensures Observe(Debouncer([Entry("angry", 0.5, 0.0), Entry("happy", 0.9, 0.1), Entry("happy", 0.9, 0.2)], 6, Queue([], 1)),
                    "happy", 0.9, 0.3).queue.items == ["happy"]
  {
    var h := [Entry("angry", 0.5, 0.0), Entry("happy", 0.9, 0.1), Entry("happy", 0.9, 0.2)];
    assert forall i :: 0 <= i < |h| ==> 0.3 - h[i].time < RecencyWindow;
    AgreeingFourthEmits(Debouncer(h, 6, Queue([], 1)), "happy", 0.9, 0.3);
  }

  /**
   * With three recent entries in the deque, the last two of them of one name, a further
   * accepted observation of that name emits into an empty queue, whatever the first entry is.
   */
  lemma AgreeingFourthEmits(d: Debouncer, name: string, confidence: real, now: real)
    requires d.cap == 6 && d.queue == Queue([], 1) && |d.history| == 3
    requires forall i :: 0 <= i < |d.history| ==> now - d.history[i].time < RecencyWindow
    requires d.history[1].name == name && d.history[2].name == name
    requires Accepted(name, confidence)
    ensures Observe(d, name, confidence, now).queue.items == [name]
  {
    KeptAllRecent(d, name, confidence, now);
    var kept := Kept(d, name, confidence, now);
    assert |kept| == 4 && kept[1] == d.history[1] && kept[2] == d.history[2];
    EmitsIff(d, name, confidence, now);
    ObserveFacts(d, name, confidence, now);
  }

  /** While the deque has room and every entry is recent, the rebuilt history is the old one plus the observation. */
  lemma KeptAllRecent(d: Debouncer, name: string, confidence: real, now: real)
    requires |d.history| < d.cap && |d.history| < 6
    requires forall i :: 0 <= i < |d.history| ==> now - d.history[i].time < RecencyWindow
    ensures Kept(d, name, confidence, now) == d.history + [Entry(name, confidence, now)]
  {
    var h := d.history + [Entry(name, confidence, now)];
    assert forall i :: 0 <= i < |h| ==> now - h[i].time < RecencyWindow by {
      forall i | 0 <= i < |h| ensures now - h[i].time < RecencyWindow {
        if i < |d.history| { assert h[i] == d.history[i]; }
      }
    }
    RecentAll(h, now);
  }

  /** With at most two recent entries and room in the deque, an accepted observation is only recorded. */
  lemma QuietStep(d: Debouncer, name: string, confidence: real, now: real)
    requires Accepted(name, confidence) && |d.history| < 3 && |d.history| < d.cap
    requires forall i :: 0 <= i < |d.history| ==> now - d.history[i].time < RecencyWindow
    ensures Observe(d, name, confidence, now) == Debouncer(d.history + [Entry(name, confidence, now)], 6, d.queue)
  {
    KeptAllRecent(d, name, confidence, now);
  }

  /**
   * A fourth detection in a row does emit: when the last three entries of the history are
   * recent observations of one name and the queue is empty, a further observation of that
   * name puts it in the queue.
   */
  lemma FourthEmits(d: Debouncer, name: string, confidence: real, now: real)
    requires d.cap == 6 && d.queue == Queue([], 1) && |d.history| >= 3
    requires forall i :: |d.history| - 3 <= i < |d.history| ==>
      d.history[i].name == name && now - d.history[i].time < RecencyWindow
    requires Accepted(name, confidence)
    ensures Observe(d, name, confidence, now).queue.items == [name]
  {
    var e := Entry(name, confidence, now);
    var h := d.history;
    var x3, x2, x1 := h[|h| - 3], h[|h| - 2], h[|h| - 1];
    var appended := LastN(h + [e], 6);
    var n := |appended|;
    LastFourShape(h, e);
    var front := appended[..n - 3];
    RecentSnoc(front, x2, now);
    RecentSnoc(front + [x2], x1, now);
    RecentSnoc(front + [x2] + [x1], e, now);
    var rec := Recent(appended, now);
    assert rec == Recent(front, now) + [x2] + [x1] + [e];
    assert |Recent(front, now)| >= 1 by {
      assert front[n - 4] == x3;
      RecentMembers(front, now, x3);
    }
    var m := |rec|;
    assert m >= 4 && rec[m - 3] == x2 && rec[m - 2] == x1;
    var kept := Kept(d, name, confidence, now);
    assert kept == LastN(rec, 6);
    var k := |kept|;
    assert k >= 4;
    assert kept[k - 3] == rec[m - 3] && kept[k - 2] == rec[m - 2];
    EmitsIff(d, name, confidence, now);
    ObserveFacts(d, name, confidence, now);
  }

  /** A deque of six fed one more entry after at least three ends with the last three and the new one. */
  lemma LastFourShape(h: seq<Entry>, e: Entry)
    requires |h| >= 3
    ensures var a := LastN(h + [e], 6);
      var n := |a|;
      && n >= 4
      && a == a[..n - 3] + [h[|h| - 2]] + [h[|h| - 1]] + [e]
      && a[n - 4] == h[|h| - 3]
  {
    var a := LastN(h + [e], 6);
    var n := |a|;
    assert a[n - 1] == e && a[n - 2] == h[|h| - 1] && a[n - 3] == h[|h| - 2] && a[n - 4] == h[|h| - 3];
    assert a == a[..n - 3] + [a[n - 3]] + [a[n - 2]] + [a[n - 1]];
  }

  // ---------------------------------------------------------------------------------------
  // State changes and the decision loop

  datatype RobotData = RobotData(
    current: RobotState,
    previous: Option<RobotState>,
    emotion: Option<string>,
    emotionQueue: Queue<string>,
    faceDetected: bool,
    emotionStartTime: real)

  /** `_change_state`: an immediate change that remembers where it came from. */
  function AfterChange(s: RobotData, newState: RobotState): (r: RobotData)
    ensures r.current == newState
    ensures r.current != s.current ==> r.previous == Some(s.current)
  {
    if newState != s.current then s.(previous := Some(s.current), current := newState) else s
  }

  /**
   * The new state always holds afterwards. A change to another state records the old one as
   * the previous state and touches nothing else; a change to the same state does nothing,
   * so changing twice is changing once.
   */
  lemma AfterChangeFacts(s: RobotData, newState: RobotState)
    ensures AfterChange(s, newState).current == newState
    ensures newState != s.current ==> AfterChange(s, newState) == s.(previous := Some(s.current), current := newState)
    ensures newState == s.current ==> AfterChange(s, newState) == s
    ensures AfterChange(AfterChange(s, newState), newState) == AfterChange(s, newState)
  {
  }

  /** One iteration of `_state_loop`. */
  function Decide(s: RobotData, now: real): (r: RobotData)
    ensures r.current == Transition <==> s.current == Transition
    ensures r.current != s.current ==> r.previous == Some(s.current)
  {
    match s.current
    case Idle => if s.faceDetected then AfterChange(s, Tracking) else s
    case Tracking =>
      if !s.faceDetected then AfterChange(s, Idle)
      else if s.emotionQueue.items != [] then
        var e := s.emotionQueue.items[0];
        var taken := s.(emotionQueue := s.emotionQueue.(items := s.emotionQueue.items[1..]));
        AfterChange(taken.(emotion := Some(e), emotionStartTime := now), Emotion)
      else s
    case Emotion =>
      if now - s.emotionStartTime >= EmotionDuration then
        AfterChange(s, if s.faceDetected then Tracking else Idle)
      else s
    case Transition => s
  }

  /**
   * Every decision takes effect in the same iteration. Idle with a face goes to tracking;
   * tracking that loses the face goes to idle at once; tracking with a face and a queued
   * emotion takes it, stamps its start and goes to emotion; an emotion held for six seconds
   * goes back to tracking or idle, depending on the face. The previous state is the one left.
   */
  lemma DecideFacts(s: RobotData, now: real)
    ensures var r := Decide(s, now);
      && (s.current == Idle ==> r.current == (if s.faceDetected then Tracking else Idle))
      && (s.current == Tracking && !s.faceDetected ==> r.current == Idle)
      && (s.current == Tracking && s.faceDetected && s.emotionQueue.items != [] ==>
            && r.current == Emotion && r.emotion == Some(s.emotionQueue.items[0])
            && r.emotionStartTime == now && r.emotionQueue.items == s.emotionQueue.items[1..])
      && (s.current == Tracking && s.faceDetected && s.emotionQueue.items == [] ==> r == s)
      && (s.current == Emotion && now - s.emotionStartTime >= 6.0 ==>
            r.current == (if s.faceDetected then Tracking else Idle))
      && (s.current == Emotion && now - s.emotionStartTime < 6.0 ==> r == s)
      && (s.current == Transition ==> r == s)
      && (r.current != s.current ==> r.previous == Some(s.current))
      && (r.current == s.current ==> r.previous == s.previous)
  {
  }

  /** The loop never enters the transition state, and it leaves each state for a different one. */
  lemma DecideNeverEntersTransition(s: RobotData, now: real)
    ensures Decide(s, now).current == Transition <==> s.current == Transition
    ensures Decide(s, now).current != s.current ==>
      (s.current, Decide(s, now).current) in {(Idle, Tracking), (Tracking, Idle), (Tracking, Emotion), (Emotion, Tracking), (Emotion, Idle)}
  {
    DecideFacts(s, now);
  }

  // ---------------------------------------------------------------------------------------
  // Face displacement

  /**
   * `_find_face_displacement`: how far the face's centre column lies from the frame centre,
   * as a fraction of half the frame width; `//` floors and `/` is true division.
   */
  function FaceDisplacement(face: Detector.Box): (r: real)
    ensures r == 0.0 <==> face.x + Floor2(face.w) == FrameCenterX
    ensures r < 0.0 <==> face.x + Floor2(face.w) < FrameCenterX
  {
    var faceCenterX := face.x + face.w / 2;
    (faceCenterX - FrameCenterX) as real / FrameCenterX as real
  }

  /** The face's centre column, rounded down as `//` does. */
  function FaceCenterX(face: Detector.Box): int
  {
    face.x + Floor2(face.w)
  }

  /** `n // 2` in Python: the largest integer not above n/2. */
  function Floor2(n: int): (q: int)
    ensures 2 * q <= n < 2 * q + 2
  {
    n / 2
  }

  /**
   * The displacement is zero exactly when the face's centre column is the frame centre,
   * negative exactly when it lies left of it, and scales linearly with the distance; a face
   * inside the 320-pixel frame is displaced by at most one either way.
   */
  lemma FaceDisplacementFacts(face: Detector.Box)
    ensures FaceDisplacement(face) == (FaceCenterX(face) - 160) as real / 160.0
    ensures FaceDisplacement(face) == 0.0 <==> FaceCenterX(face) == 160
    ensures FaceDisplacement(face) < 0.0 <==> FaceCenterX(face) < 160
    ensures 0 <= face.x && 0 <= face.w && face.x + face.w <= 320 ==> -1.0 <= FaceDisplacement(face) <= 1.0
  {
    var c := FaceCenterX(face);
    assert 2 * (c - face.x) <= face.w;
  }

  // ---------------------------------------------------------------------------------------
  // The robot object

  class Robot {
    var current: RobotState
    var previous: Option<RobotState>
    var emotion: Option<string>
    var emotionQueue: Queue<string>
    var faceDetected: bool
    var history: seq<Entry>
    var historyCap: nat
    var emotionStartTime: real

    /** The fields the decision loop reads and writes, as one record. */
    function Data(): RobotData
      reads this
    {
      RobotData(current, previous, emotion, emotionQueue, faceDetected, emotionStartTime)
    }

    /** The debouncer's part of the fields. */
    function DebouncerOf(): Debouncer
      reads this
    {
      Debouncer(history, historyCap, emotionQueue)
    }

    /** `__init__`. */
    constructor ()
      ensures Data() == RobotData(Idle, None, None, Queue([], 1), false, 0.0)
      ensures DebouncerOf() == Fresh
    {
      current := Idle;
      previous := None;
      emotion := None;
      emotionQueue := Queue([], 1);
      faceDetected := false;
      history := [];
      historyCap := InitialHistoryCap;
      emotionStartTime := 0.0;
    }

    /** `_proccess_emotion_detection`: only the history, its `maxlen` and the emotion queue change. */
    method ProcessEmotionDetection(name: string, confidence: real, now: real)
      modifies `history, `historyCap, `emotionQueue
      ensures DebouncerOf() == Observe(old(DebouncerOf()), name, confidence, now)
    {
      if !Accepted(name, confidence) {
        return;
      }
      ghost var d := DebouncerOf();
      history := LastN(history + [Entry(name, confidence, now)], historyCap);
      history := LastN(Recent(history, now), MinConsistentFrames * 2);
      historyCap := MinConsistentFrames * 2;
      assert history == Kept(d, name, confidence, now);
      if |history| > MinConsistentFrames {
        var recent := history[|history| - MinConsistentFrames..];
        var same := AllSameName(recent);
        if same && !emotionQueue.Full() {
          assert Emits(d, name, confidence, now);
          var drained := if emotionQueue.items == [] then [] else emotionQueue.items[1..];
          emotionQueue := emotionQueue.(items := drained + [recent[0].name]);
        } else {
          assert !Emits(d, name, confidence, now);
        }
      } else {
        assert !Emits(d, name, confidence, now);
      }
    }

    /** `_change_state`. */
    method ChangeState(newState: RobotState)
      modifies `current, `previous
      ensures Data() == AfterChange(old(Data()), newState)
    {
      if newState != current {
        previous := Some(current);
        current := newState;
      }
    }

    /** One iteration of `_state_loop`, without its sleep. */
    method StateTick(now: real)
      modifies this
      ensures Data() == Decide(old(Data()), now)
      ensures DebouncerOf().history == old(history) && historyCap == old(historyCap)
    {
      match current {
        case Idle =>
          if faceDetected {
            ChangeState(Tracking);
          }
        case Tracking =>
          if !faceDetected {
            ChangeState(Idle);
          } else if emotionQueue.items != [] {
            var e := emotionQueue.items[0];
            emotionQueue := emotionQueue.(items := emotionQueue.items[1..]);
            emotion := Some(e);
            emotionStartTime := now;
            ChangeState(Emotion);
          }
        case Emotion =>
          var elapsed := now - emotionStartTime;
          if elapsed >= EmotionDuration {
            if faceDetected {
              ChangeState(Tracking);
            } else {
              ChangeState(Idle);
            }
          }
        case Transition =>
      }
    }
  }
}
