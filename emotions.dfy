/** The closed set of emotion labels and the static table that describes them
    (the `emotions` dictionary of both the web server and the desktop program). */
module Emotions {

  datatype Emotion = Happy | Sad | Angry | Surprise | Neutral | Fear | Disgust

  /** The keys of the emotion table in declaration order. Python dictionaries
      iterate in insertion order, so this is also the order in which `max`
      visits the scores, and hence the tie-break order. */
  const Labels: seq<Emotion> := [Happy, Sad, Angry, Surprise, Neutral, Fear, Disgust]

  /** Position of a label in the declaration order. */
  function Rank(e: Emotion): (i: nat)
    ensures i < |Labels| && Labels[i] == e
  {
    match e
    case Happy => 0
    case Sad => 1
    case Angry => 2
    case Surprise => 3
    case Neutral => 4
    case Fear => 5
    case Disgust => 6
  }

  /** Every position of the table holds a different label, so `Rank` inverts indexing. */
  lemma RankOfLabel(i: nat)
    requires i < |Labels|
    ensures Rank(Labels[i]) == i
  {
  }

  /** `len(self.emotions)`: the number of entries of the table. */
  function TotalEmotions(): (n: nat)
    ensures n == 7
    ensures forall e: Emotion :: Rank(e) < n
  {
    |Labels|
  }

  /** Display metadata of one table entry (web server version: colours as hex strings). */
  datatype EmotionInfo = EmotionInfo(emoji: string, color: string, description: string)

  /** The table entry of a label: an emoji, a `#RRGGBB` colour and a description. */
  function Info(e: Emotion): (r: EmotionInfo)
    ensures |r.emoji| == 1 && |r.color| == 7 && r.color[0] == '#' && |r.description| > 0
  {
    match e
    case Happy => EmotionInfo("\U{1F60A}", "#00FF00", "Joyful and cheerful")
    case Sad => EmotionInfo("\U{1F622}", "#FF0000", "Down and melancholic")
    case Angry => EmotionInfo("\U{1F620}", "#0000FF", "Frustrated and upset")
    case Surprise => EmotionInfo("\U{1F632}", "#00FFFF", "Shocked and amazed")
    case Neutral => EmotionInfo("\U{1F610}", "#FFFFFF", "Calm and composed")
    case Fear => EmotionInfo("\U{1F628}", "#FF8C00", "Scared and anxious")
    case Disgust => EmotionInfo("\U{1F922}", "#8A2BE2", "Repulsed and disturbed")
  }

  /** The table gives every label its own emoji and its own colour, so the
      display identifies the detected label. */
  lemma InfoIdentifiesEmotion(a: Emotion, b: Emotion)
    ensures Info(a).emoji == Info(b).emoji ==> a == b
    ensures Info(a).color == Info(b).color ==> a == b
  {
  }
}
