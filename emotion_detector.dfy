/**
 * `_pick_face` of camera/emotion_detector.py: `sorted(faces, key=lambda f: f[2] * f[3])[0]`,
 * the smallest box by area. Python's `sorted` is stable, so among boxes of equal area the
 * earliest wins. The sort is modelled as a stable insertion sort and proved to be a sorted
 * permutation whose head is the first box of least area. `predict_emotion`'s choice of label
 * and its label-to-score dict are `Emotions.Dominant` and `Emotions.ScoreMap`.
 */
module EmotionDetector {
  import opened Wrappers
  import opened Detector

  /** Indexing the empty result of `sorted` raises `IndexError`. */
  datatype PickError = IndexError

  function Area(b: Box): int
  {
    b.w * b.h
  }

  /** Inserts `b` before the first box whose area is not smaller, so it stays ahead of its equals. */
  function Insert(b: Box, s: seq<Box>): (r: seq<Box>)
    ensures |r| == |s| + 1
    ensures multiset(r) == multiset(s) + multiset{b}
  {
    if s == [] then [b]
    else if Area(b) <= Area(s[0]) then [b] + s
    else
      assert s == [s[0]] + s[1..];
      [s[0]] + Insert(b, s[1..])
  }

  /** `sorted(faces, key=area)`. */
  function SortByArea(s: seq<Box>): (r: seq<Box>)
    ensures |r| == |s|
    ensures multiset(r) == multiset(s)
  {
    if s == [] then []
    else
      assert s == [s[0]] + s[1..];
      Insert(s[0], SortByArea(s[1..]))
  }

  predicate SortedByArea(s: seq<Box>)
  {
    forall i, j :: 0 <= i < j < |s| ==> Area(s[i]) <= Area(s[j])
  }

  lemma {:induction false} InsertSorted(b: Box, s: seq<Box>)
    requires SortedByArea(s)
    ensures SortedByArea(Insert(b, s))
    ensures Insert(b, s)[0] == if s == [] || Area(b) <= Area(s[0]) then b else s[0]
  {
    if s != [] && Area(b) > Area(s[0]) {
      var rest := Insert(b, s[1..]);
      InsertSorted(b, s[1..]);
      InsertAbove(b, s);
      SortedCons(s[0], rest);
      assert Insert(b, s) == [s[0]] + rest;
    }
  }

  /** The length of the run of boxes at the front of `s` whose area is smaller than `b`'s. */
  function SmallerRun(b: Box, s: seq<Box>): (k: nat)
    ensures k <= |s|
    ensures forall j :: 0 <= j < k ==> Area(s[j]) < Area(b)
    ensures k < |s| ==> Area(b) <= Area(s[k])
  {
    if s == [] || Area(b) <= Area(s[0]) then 0 else 1 + SmallerRun(b, s[1..])
  }

  /**
   * Where the new box goes: after the boxes of smaller area at the front of the list and
   * ahead of the first box whose area is not smaller, so ahead of boxes of equal area.
   */
  lemma {:induction false} InsertPlace(b: Box, s: seq<Box>)
    ensures Insert(b, s) == s[..SmallerRun(b, s)] + [b] + s[SmallerRun(b, s)..]
  {
    if s == [] || Area(b) <= Area(s[0]) {
      assert s[..0] == [] && s[0..] == s;
    } else {
      var t := s[1..];
      InsertPlace(b, t);
      var k := SmallerRun(b, s);
      assert k == SmallerRun(b, t) + 1;
      assert s[..k] == [s[0]] + t[..k - 1] && s[k..] == t[k - 1..];
    }
  }

  /** Inserting a box larger than the head of a sorted list into its tail keeps every box at least as large as the head. */
  lemma InsertAbove(b: Box, s: seq<Box>)
    requires SortedByArea(s) && s != [] && Area(b) > Area(s[0])
    ensures forall j :: 0 <= j < |Insert(b, s[1..])| ==> Area(s[0]) <= Area(Insert(b, s[1..])[j])
  {
    var rest := Insert(b, s[1..]);
    forall j | 0 <= j < |rest| ensures Area(s[0]) <= Area(rest[j]) {
      InsertMembers(b, s[1..], rest[j]);
      if rest[j] != b {
        var k :| 0 <= k < |s[1..]| && s[1..][k] == rest[j];
        assert s[1..][k] == s[k + 1];
      }
    }
  }

  /** A box no larger than any of a sorted list, put in front of it, keeps it sorted. */
  lemma SortedCons(x: Box, rest: seq<Box>)
    requires SortedByArea(rest)
    requires forall j :: 0 <= j < |rest| ==> Area(x) <= Area(rest[j])
    ensures SortedByArea([x] + rest)
  {
    var r := [x] + rest;
    forall i, j | 0 <= i < j < |r| ensures Area(r[i]) <= Area(r[j]) {
      assert r[j] == rest[j - 1];
      if i > 0 {
        assert r[i] == rest[i - 1];
      }
    }
  }

  /** Inserting adds `b` and nothing else. */
  lemma InsertMembers(b: Box, s: seq<Box>, x: Box)
    ensures x in Insert(b, s) <==> x == b || x in s
  {
    var r := Insert(b, s);
    assert x in r <==> x in multiset(r);
    assert x in s <==> x in multiset(s);
  }

  /** The sort orders the boxes by non-decreasing area and keeps every box, as many times as given. */
  lemma {:induction false} SortByAreaSorted(s: seq<Box>)
    ensures SortedByArea(SortByArea(s))
    ensures multiset(SortByArea(s)) == multiset(s)
  {
    if s != [] {
      SortByAreaSorted(s[1..]);
      InsertSorted(s[0], SortByArea(s[1..]));
    }
  }

  /** The position of the first box of least area. */
  function FirstMinIndex(s: seq<Box>): (k: nat)
    requires |s| > 0
    ensures k < |s|
    ensures forall j :: 0 <= j < |s| ==> Area(s[k]) <= Area(s[j])
    ensures forall j :: 0 <= j < k ==> Area(s[j]) > Area(s[k])
  {
    if |s| == 1 then 0
    else
      var k := FirstMinIndex(s[1..]) + 1;
      if Area(s[0]) <= Area(s[k]) then 0 else k
  }

  /** The head of the stable sort is the first box of least area. */
  lemma {:induction false} SortHeadIsFirstMin(s: seq<Box>)
    requires |s| > 0
    ensures SortByArea(s)[0] == s[FirstMinIndex(s)]
  {
    if |s| > 1 {
      SortHeadIsFirstMin(s[1..]);
      SortByAreaSorted(s[1..]);
      InsertSorted(s[0], SortByArea(s[1..]));
    }
  }

  /** `_pick_face`. */
  function PickFace(faces: seq<Box>): (r: Result<Box, PickError>)
    ensures r.Err? <==> faces == []
    ensures r.Ok? ==> r.value == faces[FirstMinIndex(faces)]
  {
    if faces == [] then Err(IndexError)
    else
      SortHeadIsFirstMin(faces);
      Ok(SortByArea(faces)[0])
  }

  /**
   * `_pick_face` fails exactly on no boxes; otherwise it returns one of the boxes, no box has
   * a smaller area, and every box before it in the input has a strictly larger one.
   */
  lemma PickFaceSmallest(faces: seq<Box>)
    ensures PickFace(faces).Err? <==> faces == []
    ensures PickFace(faces).Ok? ==>
      && PickFace(faces).value == faces[FirstMinIndex(faces)]
      && (forall j :: 0 <= j < |faces| ==> Area(PickFace(faces).value) <= Area(faces[j]))
      && (forall j :: 0 <= j < FirstMinIndex(faces) ==> Area(faces[j]) > Area(PickFace(faces).value))
  {
    if faces != [] {
      SortHeadIsFirstMin(faces);
    }
  }
}
