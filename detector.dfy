/**
 * The decisions of `DETECTOR` in detector/detector.py that do not involve the camera or
 * the neural networks: which detection becomes "the face", whether a face box is centred
 * in the frame. The label `detect_emotion` picks from the classifier's scores is
 * `Emotions.Dominant`. The YuNet detections for a frame are an input here; how they are
 * computed is not modelled.
 */
module Detector {
  import opened Numeric
  import opened Wrappers

  /** A face box `(x, y, w, h)` in pixels. */
  datatype Box = Box(x: int, y: int, w: int, h: int)

  /** The first five columns of a YuNet detection row: the box and its score. */
  datatype Detection = Detection(x: real, y: real, w: real, h: real, score: real)

  /** A captured frame; only its presence matters to the selection. */
  datatype Frame = Frame(width: nat, height: nat)

  /** The default `resolution` and `is_face_centered` threshold. */
  const DefaultWidth := 320
  const DefaultHeight := 240
  const DefaultThreshold: real := 0.2

  /**
   * `detect_face`: nothing for a missing frame or when YuNet reports no face; otherwise the
   * first detection's box, each coordinate cast with `astype(int)` (truncation toward zero).
   */
  function DetectFace(frame: Option<Frame>, detections: Option<seq<Detection>>): (r: Option<Box>)
    ensures r.Some? <==> frame.Some? && detections.Some? && |detections.value| > 0
    ensures r.Some? ==>
      var d := detections.value[0];
      TowardZero(r.value.x, d.x) && TowardZero(r.value.y, d.y) && TowardZero(r.value.w, d.w) && TowardZero(r.value.h, d.h)
  {
    if frame.None? then None
    else if detections.None? || |detections.value| == 0 then None
    else
      var d := detections.value[0];
      Some(Box(Trunc(d.x), Trunc(d.y), Trunc(d.w), Trunc(d.h)))
  }

  /**
   * `b` is `d` moved less than one toward zero: it keeps the sign of `d` (zero allowed)
   * and lies within one of it without passing it.
   */
  predicate TowardZero(b: int, d: real)
  {
    && (d >= 0.0 ==> b >= 0 && b as real <= d < b as real + 1.0)
    && (d < 0.0 ==> b <= 0 && b as real - 1.0 < d <= b as real)
  }

  /**
   * A face is found exactly when there is a frame and at least one detection; it is then the
   * first detection, each coordinate truncated toward zero: same sign, magnitude at most the
   * detection's and less than one below it.
   */
  lemma DetectFaceSelects(frame: Option<Frame>, detections: Option<seq<Detection>>)
    ensures DetectFace(frame, detections).Some? <==> frame.Some? && detections.Some? && |detections.value| > 0
    ensures DetectFace(frame, detections).Some? ==>
      var b := DetectFace(frame, detections).value;
      var d := detections.value[0];
      && TowardZero(b.x, d.x) && TowardZero(b.y, d.y) && TowardZero(b.w, d.w) && TowardZero(b.h, d.h)
      && RealAbs(b.x as real) <= RealAbs(d.x) < RealAbs(b.x as real) + 1.0
      && RealAbs(b.y as real) <= RealAbs(d.y) < RealAbs(b.y as real) + 1.0
      && RealAbs(b.w as real) <= RealAbs(d.w) < RealAbs(b.w as real) + 1.0
      && RealAbs(b.h as real) <= RealAbs(d.h) < RealAbs(b.h as real) + 1.0
  {
  }

  /** `abs(frame_center - face_center) / (frame_size / 2)` along one axis. */
  function AxisDistance(frameSize: int, pos: int, size: int): real
    requires frameSize > 0
  {
    RealAbs((frameSize / 2) as real - (pos as real + size as real / 2.0)) / (frameSize as real / 2.0)
  }

  /** `is_face_centered`: a face whose centre is within `threshold` half-frames of the centre on both axes. */
  predicate IsFaceCentered(face: Option<Box>, width: int, height: int, threshold: real)
    requires width > 0 && height > 0
    ensures IsFaceCentered(face, width, height, threshold) ==> face.Some?
  {
    face.Some?
    && AxisDistance(width, face.value.x, face.value.w) <= threshold
    && AxisDistance(height, face.value.y, face.value.h) <= threshold
  }

  /** Dividing by a positive half-frame: within `t` of it exactly when within `t` times it. */
  lemma DistanceWithin(frameSize: int, pos: int, size: int, t: real)
    requires frameSize > 0
    ensures AxisDistance(frameSize, pos, size) <= t <==>
            RealAbs((frameSize / 2) as real - (pos as real + size as real / 2.0)) <= t * (frameSize as real / 2.0)
  {
    DivAtMost(RealAbs((frameSize / 2) as real - (pos as real + size as real / 2.0)), frameSize as real / 2.0, t);
  }

  /**
   * No face is never centred; a face is centred exactly when its centre lies within
   * `threshold` half-widths of the frame centre horizontally and `threshold` half-heights
   * vertically.
   */
  lemma CenteredWithin(face: Option<Box>, width: int, height: int, threshold: real)
    requires width > 0 && height > 0
    ensures !IsFaceCentered(None, width, height, threshold)
    ensures face.Some? ==>
      (IsFaceCentered(face, width, height, threshold) <==>
        && RealAbs((width / 2) as real - (face.value.x as real + face.value.w as real / 2.0)) <= threshold * (width as real / 2.0)
        && RealAbs((height / 2) as real - (face.value.y as real + face.value.h as real / 2.0)) <= threshold * (height as real / 2.0))
  {
    if face.Some? {
      DistanceWithin(width, face.value.x, face.value.w, threshold);
      DistanceWithin(height, face.value.y, face.value.h, threshold);
    }
  }

  /** A face centred at one threshold is centred at every larger one. */
  lemma CenteredMonotone(face: Option<Box>, width: int, height: int, t1: real, t2: real)
    requires width > 0 && height > 0 && t1 <= t2
    ensures IsFaceCentered(face, width, height, t1) ==> IsFaceCentered(face, width, height, t2)
  {
  }

  /**
   * At the default 320x240 frame and threshold 0.2, a face is centred exactly when its
   * centre is within 32 pixels of column 160 and within 24 pixels of row 120; in whole
   * pixels, when `|2x + w - 320| <= 64` and `|2y + h - 240| <= 48`.
   */
  lemma DefaultCentered(b: Box)
    ensures IsFaceCentered(Some(b), DefaultWidth, DefaultHeight, DefaultThreshold) <==>
      RealAbs(160.0 - (b.x as real + b.w as real / 2.0)) <= 32.0
      && RealAbs(120.0 - (b.y as real + b.h as real / 2.0)) <= 24.0
    ensures IsFaceCentered(Some(b), DefaultWidth, DefaultHeight, DefaultThreshold) <==>
      Abs(2 * b.x + b.w - 320) <= 64 && Abs(2 * b.y + b.h - 240) <= 48
  {
    CenteredWithin(Some(b), DefaultWidth, DefaultHeight, DefaultThreshold);
    assert DefaultThreshold * (DefaultWidth as real / 2.0) == 32.0;
    assert DefaultThreshold * (DefaultHeight as real / 2.0) == 24.0;
    assert RealAbs(160.0 - (b.x as real + b.w as real / 2.0)) == RealAbs((2 * b.x + b.w - 320) as real) / 2.0;
    assert RealAbs(120.0 - (b.y as real + b.h as real / 2.0)) == RealAbs((2 * b.y + b.h - 240) as real) / 2.0;
  }
}
