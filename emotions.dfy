/**
 * The emotion classifier's output as detector/detector.py and camera/emotion_detector.py
 * read it: the model's scores are paired positionally with the seven labels in a dict, and
 * the label with the largest score is picked with `max(emotions, key=emotions.get)`.
 */
module Emotions {
  import opened Numeric
  import opened Wrappers

  /** `emotion_labels`, in the classifier's output order. */
  const EmotionLabels: seq<string> := ["angry", "disgust", "fear", "happy", "sad", "surprise", "neutral"]

  /** `max()` of an empty dict raises `ValueError`. */
  datatype ScoreError = EmptyScores

  lemma LabelsDistinct()
    ensures forall i, j :: 0 <= i < j < |EmotionLabels| ==> EmotionLabels[i] != EmotionLabels[j]
  {
  }

  lemma LabelDiffers(i: nat, j: nat)
    requires i < j < |EmotionLabels|
    ensures EmotionLabels[i] != EmotionLabels[j]
  {
    LabelsDistinct();
  }

  /**
   * `max` over a sequence: the running maximum, replaced only by a strictly larger score,
   * so ties go to the earliest.
   */
  function FirstMax(s: seq<real>): (k: nat)
    requires |s| > 0
    ensures k < |s|
    ensures forall j :: 0 <= j < |s| ==> s[j] <= s[k]
    ensures forall j :: 0 <= j < k ==> s[j] < s[k]
  {
    if |s| == 1 then 0
    else
      var k := FirstMax(s[..|s| - 1]);
      if s[|s| - 1] > s[k] then |s| - 1 else k
  }

  /** How many label-score pairs `zip` yields. */
  function PairCount(preds: seq<real>): nat
  {
    Min(|EmotionLabels|, |preds|)
  }

  /** The first `n` label-score pairs as a dict: `{label: float(pred) for label, pred in zip(...)}`. */
  function ScoreMapUpTo(preds: seq<real>, n: nat): map<string, real>
    requires n <= PairCount(preds)
  {
    if n == 0 then map[] else ScoreMapUpTo(preds, n - 1)[EmotionLabels[n - 1] := preds[n - 1]]
  }

  /** `emotions`: the label-score dict. */
  function ScoreMap(preds: seq<real>): (r: map<string, real>)
    ensures forall l :: l in r <==> l in EmotionLabels[..PairCount(preds)]
    ensures forall k :: 0 <= k < PairCount(preds) ==> r[EmotionLabels[k]] == preds[k]
  {
    ScoreMapUpToAt(preds, PairCount(preds));
    ScoreMapUpTo(preds, PairCount(preds))
  }

  /** The dict holds exactly the first `n` labels, each with its own score. */
  lemma {:induction false} ScoreMapUpToAt(preds: seq<real>, n: nat)
    requires n <= PairCount(preds)
    ensures forall l :: l in ScoreMapUpTo(preds, n) <==> l in EmotionLabels[..n]
    ensures forall k :: 0 <= k < n ==> ScoreMapUpTo(preds, n)[EmotionLabels[k]] == preds[k]
  {
    if n > 0 {
      ScoreMapUpToAt(preds, n - 1);
      var before := ScoreMapUpTo(preds, n - 1);
      var key := EmotionLabels[n - 1];
      assert ScoreMapUpTo(preds, n) == before[key := preds[n - 1]];
      assert EmotionLabels[..n] == EmotionLabels[..n - 1] + [key];
      forall k | 0 <= k < n - 1 ensures ScoreMapUpTo(preds, n)[EmotionLabels[k]] == preds[k] {
        LabelDiffers(k, n - 1);
      }
    }
  }

  /**
   * The dict has `min(len(labels), len(predictions))` entries: the labels paired with a
   * score, each mapped to the score at its own position.
   */
  lemma ScoreMapPairs(preds: seq<real>)
    ensures |ScoreMap(preds)| == PairCount(preds)
    ensures forall l :: l in ScoreMap(preds) <==> l in EmotionLabels[..PairCount(preds)]
    ensures forall k :: 0 <= k < PairCount(preds) ==> ScoreMap(preds)[EmotionLabels[k]] == preds[k]
  {
    var n := PairCount(preds);
    ScoreMapUpToAt(preds, n);
    LabelsDistinct();
    DistinctCard(EmotionLabels[..n]);
    assert ScoreMap(preds).Keys == set l | l in EmotionLabels[..n];
  }

  /** A sequence without repeats has as many distinct elements as positions. */
  lemma {:induction false} DistinctCard(s: seq<string>)
    requires forall i, j :: 0 <= i < j < |s| ==> s[i] != s[j]
    ensures |set l | l in s| == |s|
  {
    if s != [] {
      var init := s[..|s| - 1];
      DistinctCard(init);
      assert (set l | l in s) == (set l | l in init) + {s[|s| - 1]};
      assert s[|s| - 1] !in init;
    }
  }

  /**
   * `dominant_emotion = max(emotions, key=emotions.get)` with its score. The dict iterates
   * in label order, so this is the first label of largest score.
   */
  function Dominant(preds: seq<real>): (r: Result<(string, real), ScoreError>)
    ensures r.Err? <==> preds == []
    ensures r.Ok? ==> r.value.0 in ScoreMap(preds) && ScoreMap(preds)[r.value.0] == r.value.1
  {
    var n := PairCount(preds);
    if n == 0 then Err(EmptyScores)
    else
      var k := FirstMax(preds[..n]);
      assert EmotionLabels[..n][k] == EmotionLabels[k];
      Ok((EmotionLabels[k], preds[k]))
  }

  /**
   * The chosen label is a key of the dict, carries the dict's score, no score in the dict is
   * larger, and every label before it has a strictly smaller score. There is no choice
   * exactly when the classifier returned no scores.
   */
  lemma DominantIsFirstMax(preds: seq<real>)
    ensures Dominant(preds).Err? <==> preds == []
    ensures Dominant(preds).Ok? ==>
      var top := Dominant(preds).value.0;
      && top in ScoreMap(preds) && ScoreMap(preds)[top] == Dominant(preds).value.1
      && (forall l :: l in ScoreMap(preds) ==> ScoreMap(preds)[l] <= ScoreMap(preds)[top])
      && (forall k :: 0 <= k < PairCount(preds) && EmotionLabels[k] == top ==>
                       forall j :: 0 <= j < k ==> preds[j] < preds[k])
  {
    var n := PairCount(preds);
    ScoreMapPairs(preds);
    if n > 0 {
      var m := ScoreMap(preds);
      var k := FirstMax(preds[..n]);
      assert EmotionLabels[k] in EmotionLabels[..n];
      forall l | l in m ensures m[l] <= m[EmotionLabels[k]] {
        var i :| 0 <= i < n && EmotionLabels[..n][i] == l;
        assert preds[..n][i] <= preds[..n][k];
      }
      forall k' | 0 <= k' < n && EmotionLabels[k'] == EmotionLabels[k]
        ensures forall j :: 0 <= j < k' ==> preds[j] < preds[k']
      {
        LabelsDistinct();
        assert k' == k;
        forall j | 0 <= j < k ensures preds[j] < preds[k] {
          assert preds[..n][j] < preds[..n][k];
        }
      }
    }
  }
}
