/** The desktop program (`EmotionAvatar` in avatar.py): a webcam loop that
    classifies every frame, keeps the current emotion, a 30-entry emotion
    history and a 10-entry frame-rate history, and reacts to the keys that
    toggle debug output and cycle the avatar style. */
module DesktopAvatar {
  import opened Emotions
  import opened Features
  import opened Classifier
  import opened BoundedDeque

  const HistoryCapacity: nat := 30
  const FpsCapacity: nat := 10

  datatype AvatarStyle = Mesh | Points | Minimal

  /** `avatar_styles`, in the order the style key walks through them. */
  const AvatarStyles: seq<AvatarStyle> := [Mesh, Points, Minimal]

  /** Key codes as `cv2.waitKey(1) & 0xFF` reports them. */
  const KeyEsc: int := 27
  const KeyScreenshot: int := 115
  const KeyDebug: int := 100
  const KeyStyle: int := 97

  /** `(style_index + 1) % len(avatar_styles)`. */
  function NextStyleIndex(i: nat): (j: nat)
    requires i < |AvatarStyles|
    ensures j < |AvatarStyles|
    ensures j == 0 <==> i == |AvatarStyles| - 1
    ensures j != 0 ==> j == i + 1
  {
    (i + 1) % |AvatarStyles|
  }

  /** The two controls the keys act on: `show_debug` and `style_index`. */
  datatype Controls = Controls(showDebug: bool, styleIndex: nat)

  /** What one key press does to the controls (escape and screenshot leave them alone). */
  function OnKey(c: Controls, key: int): (r: Controls)
    requires c.styleIndex < |AvatarStyles|
    ensures r.styleIndex < |AvatarStyles|
    ensures key != KeyDebug && key != KeyStyle ==> r == c
    ensures key == KeyDebug ==> r.showDebug != c.showDebug && r.styleIndex == c.styleIndex
    ensures key == KeyStyle ==> r.showDebug == c.showDebug && AvatarStyles[r.styleIndex] != AvatarStyles[c.styleIndex]
  {
    if key == KeyEsc then c
    else if key == KeyScreenshot then c
    else if key == KeyDebug then c.(showDebug := !c.showDebug)
    else if key == KeyStyle then c.(styleIndex := NextStyleIndex(c.styleIndex))
    else c
  }

  /** Pressing the debug key twice restores the debug flag. */
  lemma DebugTwiceRestores(c: Controls)
    requires c.styleIndex < |AvatarStyles|
    ensures OnKey(OnKey(c, KeyDebug), KeyDebug) == c
  {
  }

  /** The style key walks mesh, points, minimal and back: three presses restore
      the style, and each of the three styles is visited once. */
  lemma StyleCycle(c: Controls)
    requires c.styleIndex < |AvatarStyles|
    ensures var c1 := OnKey(c, KeyStyle);
      var c2 := OnKey(c1, KeyStyle);
      && OnKey(c2, KeyStyle) == c
      && {AvatarStyles[c.styleIndex], AvatarStyles[c1.styleIndex], AvatarStyles[c2.styleIndex]} == {Mesh, Points, Minimal}
    ensures AvatarStyles[OnKey(Controls(c.showDebug, 0), KeyStyle).styleIndex] == Points
    ensures AvatarStyles[OnKey(Controls(c.showDebug, 1), KeyStyle).styleIndex] == Minimal
    ensures AvatarStyles[OnKey(Controls(c.showDebug, 2), KeyStyle).styleIndex] == Mesh
  {
  }

  /** The effect of the keys of a run of frames, in order. */
  function KeysEffect(c: Controls, frames: seq<FrameInput>): (r: Controls)
    requires c.styleIndex < |AvatarStyles|
    ensures r.styleIndex < |AvatarStyles|
    decreases |frames|
  {
    if frames == [] then c
    else OnKey(KeysEffect(c, frames[..|frames| - 1]), frames[|frames| - 1].key)
  }

  /** What the loop reads for one frame: the faces the detector found, the
      frame rate computed from the clock, and the key pressed. */
  datatype FrameInput = FrameInput(faces: seq<Landmarks>, fps: real, key: int)

  predicate FacesOk(norm: (real, real) -> real, faces: seq<Landmarks>)
    requires IsEuclideanNorm(norm)
  {
    forall i {:trigger FaceOk(norm, faces[i])} :: 0 <= i < |faces| ==> FaceOk(norm, faces[i])
  }

  predicate FramesOk(norm: (real, real) -> real, frames: seq<FrameInput>)
    requires IsEuclideanNorm(norm)
  {
    forall i {:trigger FacesOk(norm, frames[i].faces)} :: 0 <= i < |frames| ==> FacesOk(norm, frames[i].faces)
  }

  /** The label and confidence the loop settles on for one frame: neutral and 0.0
      without a face; otherwise every face is classified in turn and the last
      one stands (the loop over faces has no `break`). */
  function FrameDetection(norm: (real, real) -> real, faces: seq<Landmarks>): (d: Detection)
    requires IsEuclideanNorm(norm) && FacesOk(norm, faces)
    ensures |faces| == 0 <==> d.confidence == 0.0
    ensures |faces| == 0 ==> d.emotion == Neutral
    ensures |faces| > 0 ==> 0.5 <= d.confidence <= 1.0
  {
    if |faces| == 0 then Detection(Neutral, 0.0) else GetEmotion(norm, faces[|faces| - 1])
  }

  /** The labels the first `n` frames append to the history, one per frame. */
  function FrameLabels(norm: (real, real) -> real, frames: seq<FrameInput>, n: nat): (labels: seq<Emotion>)
    requires IsEuclideanNorm(norm) && FramesOk(norm, frames)
    requires n <= |frames|
    ensures |labels| == n
  {
    if n == 0 then []
    else FrameLabels(norm, frames, n - 1) + [FrameDetection(norm, frames[n - 1].faces).emotion]
  }

  /** Frame `i`'s label sits at position `i` of the labels. */
  lemma {:induction false} FrameLabelsAt(norm: (real, real) -> real, frames: seq<FrameInput>, n: nat, i: nat)
    requires IsEuclideanNorm(norm) && FramesOk(norm, frames)
    requires i < n <= |frames|
    ensures FacesOk(norm, frames[i].faces)
    ensures FrameLabels(norm, frames, n)[i] == FrameDetection(norm, frames[i].faces).emotion
  {
    if i < n - 1 {
      FrameLabelsAt(norm, frames, n - 1, i);
    }
  }

  function FrameRates(frames: seq<FrameInput>): (rates: seq<real>)
    ensures |rates| == |frames|
    ensures forall i :: 0 <= i < |frames| ==> rates[i] == frames[i].fps
  {
    seq(|frames|, i requires 0 <= i < |frames| => frames[i].fps)
  }

  /** One more frame appends its label to the label history. */
  lemma HistoryStep(norm: (real, real) -> real, frames: seq<FrameInput>, p: nat, h0: seq<Emotion>)
    requires IsEuclideanNorm(norm) && FramesOk(norm, frames)
    requires p < |frames| && |h0| <= HistoryCapacity
    ensures FacesOk(norm, frames[p].faces)
    ensures AppendAll(h0, FrameLabels(norm, frames, p + 1), HistoryCapacity)
      == Append(AppendAll(h0, FrameLabels(norm, frames, p), HistoryCapacity), FrameDetection(norm, frames[p].faces).emotion, HistoryCapacity)
  {
    var e := FrameDetection(norm, frames[p].faces).emotion;
    AppendAllSnoc(h0, FrameLabels(norm, frames, p), e, HistoryCapacity);
  }

  /** One more frame appends its rate and applies its key. */
  lemma RatesKeysStep(c: Controls, frames: seq<FrameInput>, p: nat, r0: seq<real>)
    requires c.styleIndex < |AvatarStyles|
    requires p < |frames| && |r0| <= FpsCapacity
    ensures AppendAll(r0, FrameRates(frames[..p + 1]), FpsCapacity)
      == Append(AppendAll(r0, FrameRates(frames[..p]), FpsCapacity), frames[p].fps, FpsCapacity)
    ensures KeysEffect(c, frames[..p + 1]) == OnKey(KeysEffect(c, frames[..p]), frames[p].key)
  {
    assert frames[..p + 1][..p] == frames[..p];
    assert FrameRates(frames[..p + 1]) == FrameRates(frames[..p]) + [frames[p].fps];
    AppendAllSnoc(r0, FrameRates(frames[..p]), frames[p].fps, FpsCapacity);
  }

  /** How many frames the loop handles: all of them up to and including the
      first one whose key is escape, or all frames when none is. */
  function FramesHandled(frames: seq<FrameInput>): (n: nat)
    ensures n <= |frames|
    ensures n < |frames| ==> 0 < n && frames[n - 1].key == KeyEsc
    ensures forall j :: 0 <= j < n - 1 ==> frames[j].key != KeyEsc
    ensures 0 < n && frames[n - 1].key != KeyEsc ==> n == |frames|
  {
    if frames == [] then 0
    else if frames[0].key == KeyEsc then 1
    else 1 + FramesHandled(frames[1..])
  }

  /** The loop over the faces of one frame: each face is classified and
      overwrites the result of the one before. */
  method DetectFaces(norm: (real, real) -> real, faces: seq<Landmarks>) returns (d: Detection)
    requires IsEuclideanNorm(norm) && FacesOk(norm, faces)
    ensures d == FrameDetection(norm, faces)
  {
    d := Detection(Neutral, 0.0);
    for i := 0 to |faces|
      invariant i == 0 ==> d == Detection(Neutral, 0.0)
      invariant 0 < i ==> d == GetEmotion(norm, faces[i - 1])
    {
      d := GetEmotion(norm, faces[i]);
    }
  }

  class EmotionAvatar {
    /** The `deque(maxlen=30)` of labels, oldest first. */
    var emotionHistory: seq<Emotion>
    var currentEmotion: Emotion
    var emotionConfidence: real
    /** The `deque(maxlen=10)` of frame rates, oldest first. */
    var fpsHistory: seq<real>
    var showDebug: bool
    var avatarStyle: AvatarStyle
    /** `style_index`, a local of the loop in the source, kept here with the style it selects. */
    var styleIndex: nat

    /** Both deques fit their capacities, the label history ends with the
        current emotion, the confidence is the initial or no-face 0.0 or a
        classifier score, and the style is the one the index selects. */
    ghost predicate Valid()
      reads this
    {
      && |emotionHistory| <= HistoryCapacity
      && |fpsHistory| <= FpsCapacity
      && (|emotionHistory| > 0 ==> emotionHistory[|emotionHistory| - 1] == currentEmotion)
      && ((currentEmotion == Neutral && emotionConfidence == 0.0) || 0.5 <= emotionConfidence <= 1.0)
      && styleIndex < |AvatarStyles|
      && avatarStyle == AvatarStyles[styleIndex]
    }

    function ControlState(): (c: Controls)
      reads this
    {
      Controls(showDebug, styleIndex)
    }

    constructor ()
      ensures Valid()
      ensures emotionHistory == [] && fpsHistory == []
      ensures currentEmotion == Neutral && emotionConfidence == 0.0
      ensures !showDebug && avatarStyle == Mesh && styleIndex == 0
    {
      emotionHistory := [];
      currentEmotion := Neutral;
      emotionConfidence := 0.0;
      fpsHistory := [];
      showDebug := false;
      avatarStyle := Mesh;
      styleIndex := 0;
    }

    /** The per-frame tracking update of the loop: classify the faces found,
        then record the result, with or without a face, and the frame rate. */
    method TrackFrame(norm: (real, real) -> real, faces: seq<Landmarks>, fps: real)
      requires Valid()
      requires IsEuclideanNorm(norm) && FacesOk(norm, faces)
      modifies this
      ensures Valid()
      ensures var d := FrameDetection(norm, faces);
        && currentEmotion == d.emotion
        && emotionConfidence == d.confidence
        && emotionHistory == Append(old(emotionHistory), d.emotion, HistoryCapacity)
      ensures fpsHistory == Append(old(fpsHistory), fps, FpsCapacity)
      ensures ControlState() == old(ControlState()) && avatarStyle == old(avatarStyle)
    {
      var d := DetectFaces(norm, faces);
      RecordEmotion(d);
      fpsHistory := Append(fpsHistory, fps, FpsCapacity);
    }

    /** Storing the frame's result: current emotion, confidence and history. */
    method RecordEmotion(d: Detection)
      requires Valid()
      requires (d.emotion == Neutral && d.confidence == 0.0) || 0.5 <= d.confidence <= 1.0
      modifies this
      ensures Valid()
      ensures currentEmotion == d.emotion && emotionConfidence == d.confidence
      ensures emotionHistory == Append(old(emotionHistory), d.emotion, HistoryCapacity)
      ensures fpsHistory == old(fpsHistory)
      ensures ControlState() == old(ControlState()) && avatarStyle == old(avatarStyle)
    {
      currentEmotion := d.emotion;
      emotionConfidence := d.confidence;
      emotionHistory := Append(emotionHistory, d.emotion, HistoryCapacity);
    }

    /** The key handling of the loop; `quit` is the escape key. */
    method HandleKey(key: int) returns (quit: bool)
      requires Valid()
      modifies this
      ensures Valid()
      ensures quit <==> key == KeyEsc
      ensures ControlState() == OnKey(old(ControlState()), key)
      ensures emotionHistory == old(emotionHistory) && fpsHistory == old(fpsHistory)
      ensures currentEmotion == old(currentEmotion) && emotionConfidence == old(emotionConfidence)
    {
      quit := false;
      if key == KeyEsc {
        quit := true;
      } else if key == KeyScreenshot {
        // the screenshot is file output and changes no field
      } else if key == KeyDebug {
        showDebug := !showDebug;
      } else if key == KeyStyle {
        styleIndex := NextStyleIndex(styleIndex);
        avatarStyle := AvatarStyles[styleIndex];
      }
    }

    /** One pass of the loop body: track the frame, then handle its key. */
    method HandleFrame(norm: (real, real) -> real, frame: FrameInput) returns (quit: bool)
      requires Valid()
      requires IsEuclideanNorm(norm) && FacesOk(norm, frame.faces)
      modifies this
      ensures Valid()
      ensures quit <==> frame.key == KeyEsc
      ensures Detection(currentEmotion, emotionConfidence) == FrameDetection(norm, frame.faces)
      ensures emotionHistory == Append(old(emotionHistory), currentEmotion, HistoryCapacity)
      ensures fpsHistory == Append(old(fpsHistory), frame.fps, FpsCapacity)
      ensures ControlState() == OnKey(old(ControlState()), frame.key)
    {
      TrackFrame(norm, frame.faces, frame.fps);
      quit := HandleKey(frame.key);
    }

    /** After the first `n` frames of a run that began with the given
        histories and controls: each history holds what those frames
        appended, the current detection is that of frame `n - 1`, and the
        controls show the effect of the frames' keys. */
    ghost predicate Tracked(norm: (real, real) -> real, frames: seq<FrameInput>, n: nat,
                            history0: seq<Emotion>, rates0: seq<real>, controls0: Controls)
      reads this
      requires IsEuclideanNorm(norm) && FramesOk(norm, frames) && n <= |frames|
      requires |history0| <= HistoryCapacity && |rates0| <= FpsCapacity && controls0.styleIndex < |AvatarStyles|
    {
      && emotionHistory == AppendAll(history0, FrameLabels(norm, frames, n), HistoryCapacity)
      && fpsHistory == AppendAll(rates0, FrameRates(frames[..n]), FpsCapacity)
      && (0 < n ==> Detection(currentEmotion, emotionConfidence) == FrameDetection(norm, frames[n - 1].faces))
      && ControlState() == KeysEffect(controls0, frames[..n])
    }

    /** One iteration of the loop of `run()`: frame `p` is handled, and the
        state then reflects the first `p + 1` frames. */
    method Advance(norm: (real, real) -> real, frames: seq<FrameInput>, p: nat,
                   ghost history0: seq<Emotion>, ghost rates0: seq<real>, ghost controls0: Controls)
      returns (quit: bool)
      requires Valid()
      requires IsEuclideanNorm(norm) && FramesOk(norm, frames) && p < |frames|
      requires |history0| <= HistoryCapacity && |rates0| <= FpsCapacity && controls0.styleIndex < |AvatarStyles|
      requires Tracked(norm, frames, p, history0, rates0, controls0)
      modifies this
      ensures Valid()
      ensures Tracked(norm, frames, p + 1, history0, rates0, controls0)
      ensures quit <==> frames[p].key == KeyEsc
    {
      HistoryStep(norm, frames, p, history0);
      RatesKeysStep(controls0, frames, p, rates0);
      quit := HandleFrame(norm, frames[p]);
    }

    /** `run()`, from the detector's output onwards: frames are handled in
        order until the escape key (whose frame is still tracked) or until the
        camera yields no more frames; `processed` counts the frames handled. */
    method Run(norm: (real, real) -> real, frames: seq<FrameInput>) returns (processed: nat)
      requires Valid()
      requires IsEuclideanNorm(norm) && FramesOk(norm, frames)
      modifies this
      ensures Valid()
      ensures processed == FramesHandled(frames)
      ensures emotionHistory == AppendAll(old(emotionHistory), FrameLabels(norm, frames, processed), HistoryCapacity)
      ensures fpsHistory == AppendAll(old(fpsHistory), FrameRates(frames[..processed]), FpsCapacity)
      ensures 0 < processed ==> Detection(currentEmotion, emotionConfidence) == FrameDetection(norm, frames[processed - 1].faces)
      ensures processed == 0 ==> currentEmotion == old(currentEmotion) && emotionConfidence == old(emotionConfidence)
      ensures ControlState() == KeysEffect(old(ControlState()), frames[..processed])
    {
      ghost var history0, rates0, controls0 := emotionHistory, fpsHistory, ControlState();
      processed := 0;
      var quit := false;
      while processed < |frames| && !quit
        invariant Valid()
        invariant processed <= |frames|
        invariant quit ==> processed == FramesHandled(frames)
        invariant !quit ==> FramesHandled(frames) == processed + FramesHandled(frames[processed..])
        invariant Tracked(norm, frames, processed, history0, rates0, controls0)
        invariant processed == 0 ==> currentEmotion == old(currentEmotion) && emotionConfidence == old(emotionConfidence)
      {
        quit := Advance(norm, frames, processed, history0, rates0, controls0);
        assert frames[processed..][1..] == frames[processed + 1..];
        processed := processed + 1;
      }
    }
  }
}
