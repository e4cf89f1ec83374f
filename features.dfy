/** Feature extraction (`get_emotion_features`): from the face-mesh landmarks of
    one face to five scalar features. */
module Features {

  /** One landmark in normalised image coordinates (the depth coordinate is unused). */
  datatype Point = Point(x: real, y: real)

  /** The ordered landmark list of one face; indices follow the face-mesh convention. */
  type Landmarks = seq<Point>

  const TopLip: nat := 13
  const BottomLip: nat := 14
  const LeftMouth: nat := 61
  const RightMouth: nat := 291
  const LeftEyeTop: nat := 159
  const LeftEyeBottom: nat := 145
  const RightEyeTop: nat := 386
  const RightEyeBottom: nat := 374
  const LeftEyebrow: nat := 70
  const RightEyebrow: nat := 300
  const LeftFaceEdge: nat := 234
  const RightFaceEdge: nat := 454
  const LeftIrisCenter: nat := 468

  /** Every index dereferenced above is below this bound. */
  const MinLandmarks: nat := 469

  /** `norm` is the Euclidean norm of a 2-vector: the non-negative number whose
      square is dx^2 + dy^2. This pins down `np.linalg.norm` without a square root. */
  ghost predicate IsEuclideanNorm(norm: (real, real) -> real)
  {
    forall dx: real, dy: real :: NormAt(norm, dx, dy)
  }

  ghost predicate NormAt(norm: (real, real) -> real, dx: real, dy: real)
  {
    0.0 <= norm(dx, dy) && norm(dx, dy) * norm(dx, dy) == dx * dx + dy * dy
  }

  /** `distance(p1, p2)`: the norm of the difference of the (x, y) coordinates. */
  function Distance(norm: (real, real) -> real, p: Point, q: Point): (d: real)
    requires IsEuclideanNorm(norm)
    ensures 0.0 <= d
  {
    assert NormAt(norm, p.x - q.x, p.y - q.y);
    norm(p.x - q.x, p.y - q.y)
  }

  /** The distance between the two face edges, the scale every distance feature is divided by. */
  function FaceWidth(norm: (real, real) -> real, lm: Landmarks): (w: real)
    requires IsEuclideanNorm(norm)
    requires |lm| >= MinLandmarks
    ensures 0.0 <= w
  {
    Distance(norm, lm[LeftFaceEdge], lm[RightFaceEdge])
  }

  /** A face the extractor can be applied to: all referenced landmarks exist and
      the two face edges do not coincide (the source divides by their distance
      without a guard). */
  predicate FaceOk(norm: (real, real) -> real, lm: Landmarks)
    requires IsEuclideanNorm(norm)
  {
    |lm| >= MinLandmarks && FaceWidth(norm, lm) > 0.0
  }

  datatype FeatureVector = FeatureVector(
    mouthOpen: real,
    mouthStretch: real,
    eyeOpen: real,
    eyebrowHeight: real,
    sadOffset: real)

  /** `get_emotion_features(landmarks)`. */
  function EmotionFeatures(norm: (real, real) -> real, lm: Landmarks): (f: FeatureVector)
    requires IsEuclideanNorm(norm) && FaceOk(norm, lm)
    ensures 0.0 <= f.mouthOpen && 0.0 <= f.mouthStretch && 0.0 <= f.eyeOpen && 0.0 <= f.eyebrowHeight
    ensures var w := FaceWidth(norm, lm);
      && f.mouthOpen * w == Distance(norm, lm[TopLip], lm[BottomLip])
      && f.mouthStretch * w == Distance(norm, lm[LeftMouth], lm[RightMouth])
      && f.eyeOpen * w == (Distance(norm, lm[LeftEyeTop], lm[LeftEyeBottom]) + Distance(norm, lm[RightEyeTop], lm[RightEyeBottom])) / 2.0
      && f.eyebrowHeight * w == (Distance(norm, lm[LeftEyebrow], lm[LeftEyeTop]) + Distance(norm, lm[RightEyebrow], lm[RightEyeTop])) / 2.0
    ensures f.sadOffset == lm[LeftIrisCenter].y - (lm[LeftEyeTop].y + lm[RightEyeTop].y + lm[LeftEyeBottom].y + lm[RightEyeBottom].y) / 4.0
  {
    var faceWidth := FaceWidth(norm, lm);
    var eyeTopAvg := (lm[LeftEyeTop].y + lm[RightEyeTop].y) / 2.0;
    var eyeBottomAvg := (lm[LeftEyeBottom].y + lm[RightEyeBottom].y) / 2.0;
    var eyeCenterY := (eyeTopAvg + eyeBottomAvg) / 2.0;
    FeatureVector(
      Distance(norm, lm[TopLip], lm[BottomLip]) / faceWidth,
      Distance(norm, lm[LeftMouth], lm[RightMouth]) / faceWidth,
      (Distance(norm, lm[LeftEyeTop], lm[LeftEyeBottom]) + Distance(norm, lm[RightEyeTop], lm[RightEyeBottom])) / (2.0 * faceWidth),
      (Distance(norm, lm[LeftEyebrow], lm[LeftEyeTop]) + Distance(norm, lm[RightEyebrow], lm[RightEyeTop])) / (2.0 * faceWidth),
      lm[LeftIrisCenter].y - eyeCenterY)
  }

  /** Every landmark scaled about the origin by `k` (the face seen from closer or farther). */
  function Scaled(lm: Landmarks, k: real): (r: Landmarks)
    ensures |r| == |lm|
    ensures forall i :: 0 <= i < |r| ==> r[i] == Point(k * lm[i].x, k * lm[i].y)
  {
    seq(|lm|, i requires 0 <= i < |lm| => Point(k * lm[i].x, k * lm[i].y))
  }

  /** Every landmark moved by (tx, ty) (the face seen at another place in the frame). */
  function Translated(lm: Landmarks, tx: real, ty: real): (r: Landmarks)
    ensures |r| == |lm|
    ensures forall i :: 0 <= i < |r| ==> r[i] == Point(lm[i].x + tx, lm[i].y + ty)
  {
    seq(|lm|, i requires 0 <= i < |lm| => Point(lm[i].x + tx, lm[i].y + ty))
  }

  lemma ProductZero(x: real, y: real)
    requires x * y == 0.0
    ensures x == 0.0 || y == 0.0
  {
  }

  /** The Euclidean norm is absolutely homogeneous: scaling a vector by k > 0 scales its norm by k. */
  lemma NormHomogeneous(norm: (real, real) -> real, dx: real, dy: real, k: real)
    requires IsEuclideanNorm(norm)
    requires k > 0.0
    ensures norm(k * dx, k * dy) == k * norm(dx, dy)
  {
    assert NormAt(norm, dx, dy) && NormAt(norm, k * dx, k * dy);
    var n := norm(dx, dy);
    var a := norm(k * dx, k * dy);
    var b := k * n;
    assert a * a == (k * dx) * (k * dx) + (k * dy) * (k * dy);
    assert (k * dx) * (k * dx) + (k * dy) * (k * dy) == (k * k) * (dx * dx + dy * dy);
    assert n * n == dx * dx + dy * dy;
    assert b * b == (k * k) * (n * n);
    assert (a - b) * (a + b) == a * a - b * b;
    ProductZero(a - b, a + b);
    assert 0.0 <= a && 0.0 <= b;
  }

  lemma DistanceScaled(norm: (real, real) -> real, p: Point, q: Point, k: real)
    requires IsEuclideanNorm(norm)
    requires k > 0.0
    ensures Distance(norm, Point(k * p.x, k * p.y), Point(k * q.x, k * q.y)) == k * Distance(norm, p, q)
  {
    var dx, dy := p.x - q.x, p.y - q.y;
    var p', q' := Point(k * p.x, k * p.y), Point(k * q.x, k * q.y);
    assert p'.x - q'.x == k * dx;
    assert p'.y - q'.y == k * dy;
    NormHomogeneous(norm, dx, dy, k);
  }

  lemma DistanceTranslated(norm: (real, real) -> real, p: Point, q: Point, tx: real, ty: real)
    requires IsEuclideanNorm(norm)
    ensures Distance(norm, Point(p.x + tx, p.y + ty), Point(q.x + tx, q.y + ty)) == Distance(norm, p, q)
  {
    assert (p.x + tx) - (q.x + tx) == p.x - q.x;
    assert (p.y + ty) - (q.y + ty) == p.y - q.y;
  }

  lemma QuotientScaled(x: real, y: real, d: real, w: real, k: real)
    requires w > 0.0 && k > 0.0
    requires x == k * d && y == k * w
    ensures x / y == d / w
  {
  }

  lemma OffsetScaled(y': real, t1': real, t2': real, b1': real, b2': real, y: real, t1: real, t2: real, b1: real, b2: real, k: real)
    requires y' == k * y && t1' == k * t1 && t2' == k * t2 && b1' == k * b1 && b2' == k * b2
    ensures y' - (t1' + t2' + b1' + b2') / 4.0 == k * (y - (t1 + t2 + b1 + b2) / 4.0)
  {
  }

  lemma ScaledHeight(lm: Landmarks, k: real, i: nat)
    requires i < |lm|
    ensures Scaled(lm, k)[i].y == k * lm[i].y
  {
    var p := lm[i];
    assert Scaled(lm, k)[i] == Point(k * p.x, k * p.y);
  }

  lemma ScaledLandmarkDistance(norm: (real, real) -> real, lm: Landmarks, k: real, i: nat, j: nat)
    requires IsEuclideanNorm(norm)
    requires k > 0.0 && i < |lm| && j < |lm|
    ensures Distance(norm, Scaled(lm, k)[i], Scaled(lm, k)[j]) == k * Distance(norm, lm[i], lm[j])
  {
    var p, q := lm[i], lm[j];
    DistanceScaled(norm, p, q, k);
    assert Scaled(lm, k)[i] == Point(k * p.x, k * p.y);
    assert Scaled(lm, k)[j] == Point(k * q.x, k * q.y);
  }

  lemma ScaledFaceWidth(norm: (real, real) -> real, lm: Landmarks, k: real)
    requires IsEuclideanNorm(norm) && FaceOk(norm, lm)
    requires k > 0.0
    ensures FaceOk(norm, Scaled(lm, k))
    ensures FaceWidth(norm, Scaled(lm, k)) == k * FaceWidth(norm, lm)
  {
    ScaledLandmarkDistance(norm, lm, k, LeftFaceEdge, RightFaceEdge);
  }

  /** A one-pair distance feature is the same for the scaled face. */
  lemma ScaledRatio(norm: (real, real) -> real, lm: Landmarks, k: real, i: nat, j: nat)
    requires IsEuclideanNorm(norm) && FaceOk(norm, lm)
    requires k > 0.0 && i < |lm| && j < |lm|
    ensures FaceOk(norm, Scaled(lm, k))
    ensures Distance(norm, Scaled(lm, k)[i], Scaled(lm, k)[j]) / FaceWidth(norm, Scaled(lm, k))
         == Distance(norm, lm[i], lm[j]) / FaceWidth(norm, lm)
  {
    ScaledFaceWidth(norm, lm, k);
    ScaledLandmarkDistance(norm, lm, k, i, j);
    var d, w := Distance(norm, lm[i], lm[j]), FaceWidth(norm, lm);
    QuotientScaled(Distance(norm, Scaled(lm, k)[i], Scaled(lm, k)[j]), FaceWidth(norm, Scaled(lm, k)), d, w, k);
  }

  /** A two-pair (left and right) averaged feature is the same for the scaled face. */
  lemma ScaledMeanRatio(norm: (real, real) -> real, lm: Landmarks, k: real, i1: nat, j1: nat, i2: nat, j2: nat)
    requires IsEuclideanNorm(norm) && FaceOk(norm, lm)
    requires k > 0.0 && i1 < |lm| && j1 < |lm| && i2 < |lm| && j2 < |lm|
    ensures FaceOk(norm, Scaled(lm, k))
    ensures var s := Scaled(lm, k);
      (Distance(norm, s[i1], s[j1]) + Distance(norm, s[i2], s[j2])) / (2.0 * FaceWidth(norm, s))
      == (Distance(norm, lm[i1], lm[j1]) + Distance(norm, lm[i2], lm[j2])) / (2.0 * FaceWidth(norm, lm))
  {
    ScaledFaceWidth(norm, lm, k);
    ScaledLandmarkDistance(norm, lm, k, i1, j1);
    ScaledLandmarkDistance(norm, lm, k, i2, j2);
    var d1, d2, w := Distance(norm, lm[i1], lm[j1]), Distance(norm, lm[i2], lm[j2]), FaceWidth(norm, lm);
    assert k * d1 + k * d2 == k * (d1 + d2);
    assert 2.0 * (k * w) == k * (2.0 * w);
    var s := Scaled(lm, k);
    QuotientScaled(Distance(norm, s[i1], s[j1]) + Distance(norm, s[i2], s[j2]), 2.0 * FaceWidth(norm, s), d1 + d2, 2.0 * w, k);
  }

  /** The sad-offset expression of the scaled face, in terms of the original one. */
  lemma ScaledOffsetExpression(lm: Landmarks, k: real)
    requires |lm| >= MinLandmarks
    ensures var s := Scaled(lm, k);
      s[LeftIrisCenter].y - (s[LeftEyeTop].y + s[RightEyeTop].y + s[LeftEyeBottom].y + s[RightEyeBottom].y) / 4.0
      == k * (lm[LeftIrisCenter].y - (lm[LeftEyeTop].y + lm[RightEyeTop].y + lm[LeftEyeBottom].y + lm[RightEyeBottom].y) / 4.0)
  {
    var s := Scaled(lm, k);
    var y, t1, t2, b1, b2 := lm[LeftIrisCenter].y, lm[LeftEyeTop].y, lm[RightEyeTop].y, lm[LeftEyeBottom].y, lm[RightEyeBottom].y;
    ScaledHeight(lm, k, LeftIrisCenter);
    ScaledHeight(lm, k, LeftEyeTop);
    ScaledHeight(lm, k, RightEyeTop);
    ScaledHeight(lm, k, LeftEyeBottom);
    ScaledHeight(lm, k, RightEyeBottom);
    OffsetScaled(s[LeftIrisCenter].y, s[LeftEyeTop].y, s[RightEyeTop].y, s[LeftEyeBottom].y, s[RightEyeBottom].y, y, t1, t2, b1, b2, k);
  }

  lemma ScaledSadOffset(norm: (real, real) -> real, lm: Landmarks, k: real)
    requires IsEuclideanNorm(norm) && FaceOk(norm, lm)
    requires k > 0.0
    ensures FaceOk(norm, Scaled(lm, k))
    ensures EmotionFeatures(norm, Scaled(lm, k)).sadOffset == k * EmotionFeatures(norm, lm).sadOffset
  {
    ScaledFaceWidth(norm, lm, k);
    ScaledOffsetExpression(lm, k);
  }

  /** The four distance features are scale-invariant (each is divided by the
      face width), while `sad_offset`, which is not divided, scales with the face. */
  lemma {:induction false} FeaturesUnderScaling(norm: (real, real) -> real, lm: Landmarks, k: real)
    requires IsEuclideanNorm(norm) && FaceOk(norm, lm)
    requires k > 0.0
    ensures FaceOk(norm, Scaled(lm, k))
    ensures var f, g := EmotionFeatures(norm, lm), EmotionFeatures(norm, Scaled(lm, k));
      && g.mouthOpen == f.mouthOpen
      && g.mouthStretch == f.mouthStretch
      && g.eyeOpen == f.eyeOpen
      && g.eyebrowHeight == f.eyebrowHeight
      && g.sadOffset == k * f.sadOffset
  {
    ScaledRatio(norm, lm, k, TopLip, BottomLip);
    ScaledRatio(norm, lm, k, LeftMouth, RightMouth);
    ScaledMeanRatio(norm, lm, k, LeftEyeTop, LeftEyeBottom, RightEyeTop, RightEyeBottom);
    ScaledMeanRatio(norm, lm, k, LeftEyebrow, LeftEyeTop, RightEyebrow, RightEyeTop);
    ScaledSadOffset(norm, lm, k);
  }

  /** Moving the face within the frame changes none of the five features. */
  lemma {:induction false} FeaturesUnderTranslation(norm: (real, real) -> real, lm: Landmarks, tx: real, ty: real)
    requires IsEuclideanNorm(norm) && FaceOk(norm, lm)
    ensures FaceOk(norm, Translated(lm, tx, ty))
    ensures EmotionFeatures(norm, Translated(lm, tx, ty)) == EmotionFeatures(norm, lm)
  {
    DistanceTranslated(norm, lm[LeftFaceEdge], lm[RightFaceEdge], tx, ty);
    DistanceTranslated(norm, lm[TopLip], lm[BottomLip], tx, ty);
    DistanceTranslated(norm, lm[LeftMouth], lm[RightMouth], tx, ty);
    DistanceTranslated(norm, lm[LeftEyeTop], lm[LeftEyeBottom], tx, ty);
    DistanceTranslated(norm, lm[RightEyeTop], lm[RightEyeBottom], tx, ty);
    DistanceTranslated(norm, lm[LeftEyebrow], lm[LeftEyeTop], tx, ty);
    DistanceTranslated(norm, lm[RightEyebrow], lm[RightEyeTop], tx, ty);
  }
}
