/** The web server's tracker (`WebEmotionAvatar` in app.py): one long-lived
    object that classifies each posted frame and keeps the current emotion, its
    confidence and a 30-entry history, plus the values the history and
    statistics endpoints read from it. */
module WebAvatar {
  import opened Emotions
  import opened Features
  import opened Classifier
  import opened BoundedDeque

  /** `deque(maxlen=30)`. */
  const HistoryCapacity: nat := 30

  /** Python's `round(x, 2)` taken on the exact value: to the nearest hundredth,
      halves to the even hundredth. */
  function Round2(x: real): (r: real)
    ensures (r * 100.0).Floor as real == r * 100.0
    ensures -0.005 <= r - x <= 0.005
    ensures x * 100.0 - (x * 100.0).Floor as real == 0.5 ==> (r * 100.0).Floor % 2 == 0
  {
    var n := (x * 100.0).Floor;
    var frac := x * 100.0 - n as real;
    var m := if frac < 0.5 then n else if frac > 0.5 then n + 1 else if n % 2 == 0 then n else n + 1;
    assert (m as real / 100.0) * 100.0 == m as real;
    m as real / 100.0
  }

  /** Rounding keeps a confidence of the classifier inside [0.5, 1.0]. */
  lemma Round2KeepsConfidenceRange(x: real)
    requires 0.5 <= x <= 1.0
    ensures 0.5 <= Round2(x) <= 1.0
  {
    var n := (x * 100.0).Floor;
    assert 50 <= n <= 100;
    if n == 100 {
      assert x == 1.0;
    }
  }

  /** The JSON object `process_frame` returns for one frame. */
  datatype EmotionData = EmotionData(
    emotion: Emotion,
    confidence: real,
    emoji: string,
    color: string,
    description: string,
    faceDetected: bool)

  /** The reply when no face is found: the neutral entry, confidence 0.0. */
  function NoFaceData(): (d: EmotionData)
    ensures d.emotion == Neutral && d.confidence == 0.0 && !d.faceDetected
    ensures EmotionInfo(d.emoji, d.color, d.description) == Info(Neutral)
  {
    var info := Info(Neutral);
    EmotionData(Neutral, 0.0, info.emoji, info.color, info.description, false)
  }

  /** The reply for a detected face: its label, the score rounded to two
      decimals and the table entry of the label. */
  function FaceData(d: Detection): (r: EmotionData)
    requires 0.5 <= d.confidence <= 1.0
    ensures r.emotion == d.emotion && r.faceDetected
    ensures 0.5 <= r.confidence <= 1.0 && -0.005 <= r.confidence - d.confidence <= 0.005
    ensures Info(d.emotion) == EmotionInfo(r.emoji, r.color, r.description)
  {
    Round2KeepsConfidenceRange(d.confidence);
    var info := Info(d.emotion);
    EmotionData(d.emotion, Round2(d.confidence), info.emoji, info.color, info.description, true)
  }

  /** The JSON object of the statistics endpoint. */
  datatype Stats = Stats(currentEmotion: Emotion, confidence: real, historyLength: nat, totalEmotions: nat)

  class WebEmotionAvatar {
    /** The `deque(maxlen=30)` of labels, oldest first. */
    var emotionHistory: seq<Emotion>
    var currentEmotion: Emotion
    var emotionConfidence: real

    /** The history fits its capacity and ends with the current emotion; the
        confidence is either the initial neutral 0.0 or a classifier score. */
    ghost predicate Valid()
      reads this
    {
      && |emotionHistory| <= HistoryCapacity
      && (|emotionHistory| > 0 ==> emotionHistory[|emotionHistory| - 1] == currentEmotion)
      && ((currentEmotion == Neutral && emotionConfidence == 0.0) || 0.5 <= emotionConfidence <= 1.0)
    }

    constructor ()
      ensures Valid()
      ensures emotionHistory == []
      ensures currentEmotion == Neutral && emotionConfidence == 0.0
    {
      emotionHistory := [];
      currentEmotion := Neutral;
      emotionConfidence := 0.0;
    }

    /** `process_frame(frame)`, from the detector's output onwards: `faces` holds
        the landmark lists of the faces found (none when there is no face). Only
        the first face is classified; the state changes only when there is one. */
    method ProcessFrame(norm: (real, real) -> real, faces: seq<Landmarks>) returns (data: EmotionData)
      requires Valid()
      requires IsEuclideanNorm(norm)
      requires |faces| > 0 ==> FaceOk(norm, faces[0])
      modifies this
      ensures Valid()
      ensures |faces| == 0 ==> data == NoFaceData() && unchanged(this)
      ensures |faces| > 0 ==>
        var d := GetEmotion(norm, faces[0]);
        && data == FaceData(d)
        && currentEmotion == d.emotion
        && emotionConfidence == d.confidence
        && emotionHistory == Append(old(emotionHistory), d.emotion, HistoryCapacity)
    {
      data := NoFaceData();
      if |faces| > 0 {
        var d := GetEmotion(norm, faces[0]);
        data := FaceData(d);
        Record(d);
      }
    }

    /** The three assignments `process_frame` makes once a face is classified. */
    method Record(d: Detection)
      requires Valid()
      requires 0.5 <= d.confidence <= 1.0
      modifies this
      ensures Valid()
      ensures currentEmotion == d.emotion && emotionConfidence == d.confidence
      ensures emotionHistory == Append(old(emotionHistory), d.emotion, HistoryCapacity)
    {
      currentEmotion := d.emotion;
      emotionConfidence := d.confidence;
      emotionHistory := Append(emotionHistory, d.emotion, HistoryCapacity);
    }

    /** `get_emotion_history()`: the history, oldest first, ending with the
        current emotion. */
    function EmotionHistory(): (h: seq<Emotion>)
      reads this
      requires Valid()
      ensures |h| <= HistoryCapacity
      ensures |h| > 0 ==> h[|h| - 1] == currentEmotion
    {
      emotionHistory
    }

    /** `get_stats()`. */
    function GetStats(): (s: Stats)
      reads this
      requires Valid()
      ensures s.currentEmotion == currentEmotion && s.confidence == emotionConfidence
      ensures s.historyLength == |emotionHistory| <= HistoryCapacity
      ensures s.totalEmotions == 7
      ensures s.confidence == 0.0 || 0.5 <= s.confidence <= 1.0
    {
      Stats(currentEmotion, emotionConfidence, |emotionHistory|, TotalEmotions())
    }
  }
}
