/** The rule-based classifier (`get_emotion`): six independent threshold rules
    fill a score table, `neutral` is seeded with 0.5, and the first label with
    the highest score wins. */
module Classifier {
  import opened Emotions
  import opened Features

  function Min(a: real, b: real): real
  {
    if a <= b then a else b
  }

  function Abs(x: real): real
  {
    if x < 0.0 then -x else x
  }

  predicate HappyFires(f: FeatureVector)
  {
    f.mouthStretch > 0.40 && f.mouthOpen < 0.06
  }

  predicate SurpriseFires(f: FeatureVector)
  {
    f.mouthOpen >= 0.12
  }

  predicate FearFires(f: FeatureVector)
  {
    0.06 < f.mouthOpen < 0.12 && f.eyebrowHeight > 0.05
  }

  predicate SadFires(f: FeatureVector)
  {
    f.sadOffset > 0.01 && f.eyeOpen < 0.04
  }

  predicate DisgustFires(f: FeatureVector)
  {
    f.mouthOpen < 0.03 && f.mouthStretch < 0.38
  }

  predicate AngryFires(f: FeatureVector)
  {
    f.eyeOpen > 0.096 && f.mouthOpen < 0.06
  }

  /** The rule that writes the score of `e` holds (`neutral` has no rule). */
  predicate Fires(f: FeatureVector, e: Emotion)
  {
    match e
    case Happy => HappyFires(f)
    case Sad => SadFires(f)
    case Angry => AngryFires(f)
    case Surprise => SurpriseFires(f)
    case Neutral => false
    case Fear => FearFires(f)
    case Disgust => DisgustFires(f)
  }

  predicate AnyRuleFires(f: FeatureVector)
  {
    HappyFires(f) || SurpriseFires(f) || FearFires(f) || SadFires(f) || DisgustFires(f) || AngryFires(f)
  }

  /** `emotion_scores[e]` once the rules have run: 0.0 unless the rule for `e`
      fired, and the constant 0.5 for `neutral`. */
  function Score(f: FeatureVector, e: Emotion): (s: real)
    ensures e == Neutral ==> s == 0.5
    ensures e != Neutral && !Fires(f, e) ==> s == 0.0
    ensures Fires(f, e) ==> 0.5 < s <= 1.0
    ensures e == Happy && Fires(f, e) ==> 0.8 < s
    ensures e == Surprise && Fires(f, e) ==> 0.96 <= s
    ensures e == Fear && Fires(f, e) ==> 0.6 < s
    ensures e == Disgust && Fires(f, e) ==> s == 0.8
    ensures e == Angry && Fires(f, e) ==> s == 0.7
  {
    match e
    case Happy => if HappyFires(f) then Min(1.0, f.mouthStretch * 2.0) else 0.0
    case Surprise => if SurpriseFires(f) then Min(1.0, f.mouthOpen * 8.0) else 0.0
    case Fear => if FearFires(f) then Min(1.0, f.mouthOpen * 10.0) else 0.0
    case Sad => if SadFires(f) then Min(1.0, Abs(f.sadOffset) * 50.0) else 0.0
    case Disgust => if DisgustFires(f) then 0.8 else 0.0
    case Angry => if AngryFires(f) then 0.7 else 0.0
    case Neutral => 0.5
  }

  /** Python's `max(keys, key=key)`: it walks the keys in order and replaces its
      candidate only by a strictly greater one, so the FIRST maximal key wins.
      Written over prefixes: the last key is compared with the winner of the rest. */
  function FirstMaxIndex(keys: seq<Emotion>, key: Emotion -> real): (i: nat)
    requires |keys| > 0
    ensures i < |keys|
    ensures forall j :: 0 <= j < |keys| ==> key(keys[j]) <= key(keys[i])
    ensures forall j :: 0 <= j < i ==> key(keys[j]) < key(keys[i])
    decreases |keys|
  {
    if |keys| == 1 then 0
    else
      var i := FirstMaxIndex(keys[..|keys| - 1], key);
      if key(keys[i]) < key(keys[|keys| - 1]) then |keys| - 1 else i
  }

  datatype Detection = Detection(emotion: Emotion, confidence: real)

  /** The decision part of `get_emotion`, on an already extracted feature vector. */
  function Classify(f: FeatureVector): (r: Detection)
    ensures r.confidence == Score(f, r.emotion)
    ensures 0.5 <= r.confidence <= 1.0
    ensures forall e :: Score(f, e) <= r.confidence
    ensures forall e :: Rank(e) < Rank(r.emotion) ==> Score(f, e) < r.confidence
    ensures r.emotion == Neutral <==> !AnyRuleFires(f)
  {
    var i := FirstMaxIndex(Labels, e => Score(f, e));
    FirstMaxOfLabels(f, i);
    Detection(Labels[i], Score(f, Labels[i]))
  }

  /** Reads the first-maximum conditions on positions of `Labels` as conditions on
      labels and their ranks, and derives the neutral case. */
  lemma FirstMaxOfLabels(f: FeatureVector, i: nat)
    requires i == FirstMaxIndex(Labels, e => Score(f, e))
    ensures 0.5 <= Score(f, Labels[i]) <= 1.0
    ensures forall e :: Score(f, e) <= Score(f, Labels[i])
    ensures forall e :: Rank(e) < Rank(Labels[i]) ==> Score(f, e) < Score(f, Labels[i])
    ensures Labels[i] == Neutral <==> !AnyRuleFires(f)
  {
    var key := e => Score(f, e);
    RankOfLabel(i);
    forall e
      ensures Score(f, e) <= Score(f, Labels[i])
    {
      assert key(Labels[Rank(e)]) <= key(Labels[i]);
    }
    forall e | Rank(e) < i
      ensures Score(f, e) < Score(f, Labels[i])
    {
      assert key(Labels[Rank(e)]) < key(Labels[i]);
    }
    assert Score(f, Neutral) <= Score(f, Labels[i]);
    if AnyRuleFires(f) {
      var e :| e != Neutral && Fires(f, e);
      assert Score(f, e) <= Score(f, Labels[i]);
    } else {
      forall e | e != Neutral
        ensures Score(f, e) == 0.0
      {
      }
    }
  }

  /** `get_emotion(landmarks)`: extract the features of one face, then classify them. */
  function GetEmotion(norm: (real, real) -> real, lm: Landmarks): (r: Detection)
    requires IsEuclideanNorm(norm) && FaceOk(norm, lm)
    ensures 0.5 <= r.confidence <= 1.0
    ensures r.confidence == Score(EmotionFeatures(norm, lm), r.emotion)
    ensures r.emotion == Neutral <==> !AnyRuleFires(EmotionFeatures(norm, lm))
  {
    Classify(EmotionFeatures(norm, lm))
  }

  /** The first-maximum conditions single out one label: the classifier's choice
      is the only label that scores highest and beats every earlier label. */
  lemma ClassifyIsUniqueFirstMax(f: FeatureVector, e: Emotion)
    requires forall d :: Score(f, d) <= Score(f, e)
    requires forall d :: Rank(d) < Rank(e) ==> Score(f, d) < Score(f, e)
    ensures Classify(f).emotion == e
  {
    var r := Classify(f);
    assert Labels[Rank(r.emotion)] == r.emotion && Labels[Rank(e)] == e;
  }

  /** Happy, surprise and fear partition the mouth aperture (below 0.06, at
      least 0.12, strictly between), so at most one of them fires; sad needs
      eye_open below 0.04 and angry above 0.096, so they never fire together. */
  lemma RulesExclusive(f: FeatureVector)
    ensures !(HappyFires(f) && SurpriseFires(f))
    ensures !(HappyFires(f) && FearFires(f))
    ensures !(SurpriseFires(f) && FearFires(f))
    ensures !(SadFires(f) && AngryFires(f))
  {
  }

  /** Surprise saturates: an aperture of at least 0.125 gives the full score. */
  lemma SurpriseSaturates(f: FeatureVector)
    requires f.mouthOpen >= 0.125
    ensures Score(f, Surprise) == 1.0
  {
  }

  /** Happy saturates once the mouth is stretched to half the face width. */
  lemma HappySaturates(f: FeatureVector)
    requires HappyFires(f) && f.mouthStretch >= 0.5
    ensures Score(f, Happy) == 1.0
  {
  }

  /** Disgust and angry do not grade: they score their constants whenever they fire. */
  lemma ConstantScores(f: FeatureVector)
    ensures DisgustFires(f) ==> Score(f, Disgust) == 0.8
    ensures AngryFires(f) ==> Score(f, Angry) == 0.7
  {
  }

  /** A tie between sad (0.8) and disgust (0.8) goes to sad, declared earlier. */
  lemma SadBeatsDisgustOnTie()
    ensures var f := FeatureVector(0.02, 0.3, 0.03, 0.02, 0.016);
      Score(f, Sad) == 0.8 && Score(f, Disgust) == 0.8 && Classify(f) == Detection(Sad, 0.8)
  {
    var f := FeatureVector(0.02, 0.3, 0.03, 0.02, 0.016);
    ClassifyIsUniqueFirstMax(f, Sad);
  }

  /** A tie between happy (1.0) and sad (1.0) goes to happy, declared first. */
  lemma HappyBeatsSadOnTie()
    ensures var f := FeatureVector(0.02, 0.5, 0.03, 0.02, 0.05);
      Score(f, Happy) == 1.0 && Score(f, Sad) == 1.0 && Classify(f) == Detection(Happy, 1.0)
  {
    var f := FeatureVector(0.02, 0.5, 0.03, 0.02, 0.05);
    ClassifyIsUniqueFirstMax(f, Happy);
  }

  /** A wide, closed mouth is happy with full confidence. */
  lemma WideClosedMouthIsHappy()
    ensures Classify(FeatureVector(0.02, 0.50, 0.05, 0.02, 0.0)) == Detection(Happy, 1.0)
  {
    ClassifyIsUniqueFirstMax(FeatureVector(0.02, 0.50, 0.05, 0.02, 0.0), Happy);
  }

  /** A wide open mouth is surprise with full confidence. */
  lemma OpenMouthIsSurprise()
    ensures Classify(FeatureVector(0.15, 0.2, 0.05, 0.02, 0.0)) == Detection(Surprise, 1.0)
  {
    ClassifyIsUniqueFirstMax(FeatureVector(0.15, 0.2, 0.05, 0.02, 0.0), Surprise);
  }
}
