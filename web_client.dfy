/** The browser client (`EmotionAvatarApp` in static/js/app.js): it starts and
    stops a periodic frame upload, shows each reply, and keeps a newest-first
    list of the last ten emotion changes. Only the client's own state is
    modelled; the page elements it writes to are not. */
module WebClient {
  import opened Emotions
  import opened BoundedDeque
  import opened WebAvatar

  datatype Option<T> = None | Some(value: T)

  /** A `setInterval` handle; browsers hand out positive ids, so a held handle
      is always truthy. */
  type TimerId = id: int | id > 0 witness 1

  /** "Keep only last 10 emotions". */
  const HistoryLimit: nat := 10

  /** One entry of the on-page timeline. */
  datatype HistoryEntry = HistoryEntry(emotion: Emotion, emoji: string, confidence: real, timestamp: string)

  /** The `disabled` flags of the start, stop and capture buttons. */
  datatype Buttons = Buttons(startDisabled: bool, stopDisabled: bool, captureDisabled: bool)

  /** `s` back to front. */
  function Reverse<T>(s: seq<T>): (r: seq<T>)
    ensures |r| == |s|
    ensures forall i :: 0 <= i < |s| ==> r[i] == s[|s| - 1 - i]
  {
    seq(|s|, i requires 0 <= i < |s| => s[|s| - 1 - i])
  }

  /** `list.unshift(x)`, then `list.pop()` when the list has grown past the limit. */
  function AddEntry<T>(list: seq<T>, x: T): (r: seq<T>)
    ensures |r| > 0 && r[0] == x
    ensures |list| < HistoryLimit ==> r == [x] + list
    ensures |list| >= HistoryLimit ==> r == [x] + list[..|list| - 1]
  {
    var u := [x] + list;
    if |u| > HistoryLimit then u[..|u| - 1] else u
  }

  lemma ReverseSnoc<T>(a: seq<T>, x: T)
    ensures Reverse(a + [x]) == [x] + Reverse(a)
  {
    var l, r := Reverse(a + [x]), [x] + Reverse(a);
    forall i | 0 <= i < |l|
      ensures l[i] == r[i]
    {
    }
  }

  lemma ReverseDropFirst<T>(a: seq<T>)
    requires |a| > 0
    ensures Reverse(a[1..]) == Reverse(a)[..|a| - 1]
  {
  }

  /** Adding to the newest-first view of a history gives the newest-first view
      of the extended history: the list always holds the last ten entries ever
      added, newest at index 0, and the oldest is the one dropped. */
  lemma {:induction false} AddEntryKeepsNewestFirst<T>(s: seq<T>, x: T)
    ensures AddEntry(Reverse(Window(s, HistoryLimit)), x) == Reverse(Window(s + [x], HistoryLimit))
  {
    var w := Window(s, HistoryLimit);
    AppendWindow(s, x, HistoryLimit);
    if |w| < HistoryLimit {
      assert Append(w, x, HistoryLimit) == w + [x];
      ReverseSnoc(w, x);
    } else {
      assert Append(w, x, HistoryLimit) == w[1..] + [x];
      ReverseSnoc(w[1..], x);
      ReverseDropFirst(w);
    }
  }

  /** Entries `i` and `i + 1` differ in emotion. */
  predicate ChangeAt(s: seq<HistoryEntry>, i: nat)
    requires i + 1 < |s|
  {
    s[i].emotion != s[i + 1].emotion
  }

  /** No two consecutive entries share an emotion. */
  predicate AllChanges(s: seq<HistoryEntry>)
  {
    forall i: nat :: i + 1 < |s| ==> ChangeAt(s, i)
  }

  /** Adjacent entries of the timeline are adjacent entries of the history,
      in the other order. */
  lemma ReverseWindowAdjacent(s: seq<HistoryEntry>, i: nat)
    requires i + 1 < |Reverse(Window(s, HistoryLimit))|
    ensures var h, k := Reverse(Window(s, HistoryLimit)), |s| - 2 - i;
      && 0 <= k && k + 1 < |s| && h[i] == s[k + 1] && h[i + 1] == s[k]
  {
    var w := Window(s, HistoryLimit);
    var h := Reverse(w);
    assert |h| == |w| <= |s|;
    var j := |w| - 2 - i;
    assert h[i] == w[j + 1];
    assert h[i + 1] == w[j];
    assert w[j + 1] == s[|s| - |w| + j + 1];
    assert w[j] == s[|s| - |w| + j];
  }

  /** A history in which no two consecutive entries share an emotion shows no
      two adjacent timeline entries with the same emotion. */
  lemma ReverseWindowChanges(s: seq<HistoryEntry>)
    requires AllChanges(s)
    ensures AllChanges(Reverse(Window(s, HistoryLimit)))
  {
    var h := Reverse(Window(s, HistoryLimit));
    forall i: nat | i + 1 < |h|
      ensures ChangeAt(h, i)
    {
      ReverseWindowAdjacent(s, i);
      assert ChangeAt(s, |s| - 2 - i);
    }
  }

  /** An entry whose emotion differs from the newest one keeps that so. */
  lemma ChangesExtend(s: seq<HistoryEntry>, x: HistoryEntry)
    requires AllChanges(s)
    requires |s| > 0 ==> s[|s| - 1].emotion != x.emotion
    ensures AllChanges(s + [x])
  {
    var t := s + [x];
    forall i: nat | i + 1 < |t|
      ensures ChangeAt(t, i)
    {
      if i + 1 < |s| {
        assert ChangeAt(s, i);
        assert t[i] == s[i] && t[i + 1] == s[i + 1];
      }
    }
  }

  /** The history rule of `updateEmotionDisplay`: a reply is recorded when a face
      was seen and its emotion differs from the last recorded one (there is
      none at first). */
  predicate ShouldRecord(last: Option<Emotion>, d: EmotionData): (b: bool)
    ensures b ==> d.faceDetected && last != Some(d.emotion)
    ensures !d.faceDetected ==> !b
    ensures last == None && d.faceDetected ==> b
  {
    d.faceDetected && last != Some(d.emotion)
  }

  /** `lastEmotion` after a reply: it moves only with a recorded entry. */
  function NextLast(last: Option<Emotion>, d: EmotionData): (r: Option<Emotion>)
    ensures !d.faceDetected ==> r == last
    ensures d.faceDetected ==> r == Some(d.emotion)
  {
    if ShouldRecord(last, d) then Some(d.emotion) else last
  }

  /** A reply is recorded exactly when it is a detection that moves `lastEmotion`. */
  lemma ShouldRecordIsChange(last: Option<Emotion>, d: EmotionData)
    ensures ShouldRecord(last, d) <==> d.faceDetected && NextLast(last, d) != last
  {
  }

  /** The emotions a sequence of replies adds to the history, in order. */
  function Recorded(last: Option<Emotion>, replies: seq<EmotionData>): (r: seq<Emotion>)
    ensures |r| <= |replies|
    decreases |replies|
  {
    if replies == [] then []
    else
      (if ShouldRecord(last, replies[0]) then [replies[0].emotion] else [])
      + Recorded(NextLast(last, replies[0]), replies[1..])
  }

  /** Every recorded entry is a change: it differs from the one recorded before
      it (and the first from the last emotion already recorded). */
  lemma {:induction false} RecordedChanges(last: Option<Emotion>, replies: seq<EmotionData>)
    ensures var r := Recorded(last, replies);
      && (|r| > 0 ==> last != Some(r[0]))
      && forall i :: 0 <= i < |r| - 1 ==> r[i] != r[i + 1]
    decreases |replies|
  {
    if replies != [] {
      RecordedChanges(NextLast(last, replies[0]), replies[1..]);
    }
  }

  /** While every detected emotion is the one last recorded, nothing is
      recorded, whatever no-face replies come in between. */
  lemma {:induction false} StableEmotionRecordsNothing(e: Emotion, replies: seq<EmotionData>)
    requires forall i :: 0 <= i < |replies| && replies[i].faceDetected ==> replies[i].emotion == e
    ensures Recorded(Some(e), replies) == []
    decreases |replies|
  {
    if replies != [] {
      StableEmotionRecordsNothing(e, replies[1..]);
    }
  }

  /** A run of replies that all detect `e` when they detect anything, starting
      with a detection of `e`, adds exactly one entry when `e` was not the last
      emotion: a run of identical detections, or a detection, a no-face reply
      and the same detection again, records `e` once. */
  lemma SameEmotionRecordedOnce(last: Option<Emotion>, e: Emotion, replies: seq<EmotionData>)
    requires |replies| > 0 && replies[0].faceDetected && replies[0].emotion == e
    requires forall i :: 0 <= i < |replies| && replies[i].faceDetected ==> replies[i].emotion == e
    ensures Recorded(last, replies) == if last == Some(e) then [] else [e]
  {
    StableEmotionRecordsNothing(e, replies[1..]);
  }

  /** The button flags `updateUI('camera', state)` sets. */
  function CameraButtons(started: bool): (b: Buttons)
    ensures b.startDisabled == started
    ensures b.stopDisabled != started && b.captureDisabled != started
  {
    Buttons(started, !started, !started)
  }

  /** The two camera states give exactly opposite buttons, and in each state
      either start or else stop-and-capture can be clicked. */
  lemma CameraButtonsOpposite(started: bool)
    ensures var b, c := CameraButtons(started), CameraButtons(!started);
      && b.startDisabled == !c.startDisabled
      && b.stopDisabled == !c.stopDisabled
      && b.captureDisabled == !c.captureDisabled
      && b.startDisabled != b.stopDisabled
      && b.stopDisabled == b.captureDisabled
  {
  }

  class EmotionAvatarApp {
    /** Whether a media stream is held (`this.stream` non-null). */
    var hasStream: bool
    var isProcessing: bool
    var processingInterval: Option<TimerId>
    /** Newest first. */
    var emotionHistory: seq<HistoryEntry>
    var lastEmotion: Option<Emotion>
    var buttons: Buttons
    /** Every entry ever added, oldest first. */
    ghost var recorded: seq<HistoryEntry>

    /** The list shows the last ten entries ever added, newest first. */
    ghost predicate HistoryShown()
      reads this
    {
      emotionHistory == Reverse(Window(recorded, HistoryLimit))
    }

    /** The shown history; processing exactly while an interval is held; each
        entry records a change of emotion and `lastEmotion` is the newest one. */
    ghost predicate Valid()
      reads this
    {
      && HistoryShown()
      && (isProcessing <==> processingInterval.Some?)
      && AllChanges(recorded)
      && (|recorded| == 0 <==> lastEmotion == None)
      && (|recorded| > 0 ==> lastEmotion == Some(recorded[|recorded| - 1].emotion))
    }

    /** The page's initial button flags come from its markup and are given here. */
    constructor (initialButtons: Buttons)
      ensures Valid()
      ensures !hasStream && !isProcessing && processingInterval == None
      ensures emotionHistory == [] && recorded == [] && lastEmotion == None
      ensures buttons == initialButtons
    {
      hasStream := false;
      isProcessing := false;
      processingInterval := None;
      emotionHistory := [];
      lastEmotion := None;
      buttons := initialButtons;
      recorded := [];
      assert |Reverse(Window<HistoryEntry>([], HistoryLimit))| == 0;
    }

    /** `startProcessing()`; `timer` is the handle `setInterval` would return.
        A second start while an interval is held changes nothing. */
    method StartProcessing(timer: TimerId)
      requires Valid()
      modifies this
      ensures Valid()
      ensures old(processingInterval).Some? ==> unchanged(this)
      ensures old(processingInterval).None? ==> isProcessing && processingInterval == Some(timer)
      ensures hasStream == old(hasStream) && buttons == old(buttons)
      ensures emotionHistory == old(emotionHistory) && recorded == old(recorded) && lastEmotion == old(lastEmotion)
    {
      if processingInterval.Some? {
        return;
      }
      isProcessing := true;
      processingInterval := Some(timer);
    }

    /** `stopProcessing()`: whatever the prior state, processing ends and the
        interval is cleared. */
    method StopProcessing()
      requires Valid()
      modifies this
      ensures Valid()
      ensures !isProcessing && processingInterval == None
      ensures hasStream == old(hasStream) && buttons == old(buttons)
      ensures emotionHistory == old(emotionHistory) && recorded == old(recorded) && lastEmotion == old(lastEmotion)
    {
      isProcessing := false;
      if processingInterval.Some? {
        processingInterval := None;
      }
    }

    /** `addToHistory(data)`, with the time of day given. */
    method AddToHistory(data: EmotionData, timestamp: string)
      requires HistoryShown()
      modifies this
      ensures HistoryShown()
      ensures var entry := HistoryEntry(data.emotion, data.emoji, data.confidence, timestamp);
        && emotionHistory == AddEntry(old(emotionHistory), entry)
        && recorded == old(recorded) + [entry]
      ensures lastEmotion == old(lastEmotion)
      ensures hasStream == old(hasStream) && isProcessing == old(isProcessing)
      ensures processingInterval == old(processingInterval) && buttons == old(buttons)
    {
      var entry := HistoryEntry(data.emotion, data.emoji, data.confidence, timestamp);
      AddEntryKeepsNewestFirst(recorded, entry);
      emotionHistory := AddEntry(emotionHistory, entry);
      recorded := recorded + [entry];
    }

    /** The state part of `updateEmotionDisplay(data)`: the history rule. */
    method UpdateEmotionDisplay(data: EmotionData, timestamp: string)
      requires Valid()
      modifies this
      ensures Valid()
      ensures lastEmotion == NextLast(old(lastEmotion), data)
      ensures ShouldRecord(old(lastEmotion), data) ==>
        var entry := HistoryEntry(data.emotion, data.emoji, data.confidence, timestamp);
        && emotionHistory == AddEntry(old(emotionHistory), entry)
        && recorded == old(recorded) + [entry]
      ensures !ShouldRecord(old(lastEmotion), data) ==>
        emotionHistory == old(emotionHistory) && recorded == old(recorded)
      ensures hasStream == old(hasStream) && isProcessing == old(isProcessing)
      ensures processingInterval == old(processingInterval) && buttons == old(buttons)
    {
      if data.faceDetected && lastEmotion != Some(data.emotion) {
        ghost var entry := HistoryEntry(data.emotion, data.emoji, data.confidence, timestamp);
        ChangesExtend(recorded, entry);
        AddToHistory(data, timestamp);
        lastEmotion := Some(data.emotion);
        assert recorded[|recorded| - 1] == entry;
      }
    }

    /** One tick of `processFrame()`. `reply` is the server's answer, or None
        when the request failed (the error is only logged). Returns whether a
        frame was sent; without a stream or while not processing nothing happens. */
    method ProcessFrame(reply: Option<EmotionData>, timestamp: string) returns (sent: bool)
      requires Valid()
      modifies this
      ensures Valid()
      ensures sent <==> old(isProcessing) && old(hasStream)
      ensures !sent || reply.None? ==> unchanged(this)
      ensures sent && reply.Some? ==>
        && lastEmotion == NextLast(old(lastEmotion), reply.value)
        && recorded == old(recorded) + (if ShouldRecord(old(lastEmotion), reply.value)
             then [HistoryEntry(reply.value.emotion, reply.value.emoji, reply.value.confidence, timestamp)]
             else [])
      ensures hasStream == old(hasStream) && isProcessing == old(isProcessing)
      ensures processingInterval == old(processingInterval) && buttons == old(buttons)
    {
      if !isProcessing || !hasStream {
        return false;
      }
      sent := true;
      if reply.Some? {
        UpdateEmotionDisplay(reply.value, timestamp);
      }
    }

    /** `updateUI(action, state)`: only the camera action has an effect. */
    method UpdateUI(action: string, state: string)
      requires Valid()
      modifies this
      ensures Valid()
      ensures action == "camera" ==> buttons == CameraButtons(state == "started")
      ensures action != "camera" ==> buttons == old(buttons)
      ensures hasStream == old(hasStream) && isProcessing == old(isProcessing)
      ensures processingInterval == old(processingInterval)
      ensures emotionHistory == old(emotionHistory) && recorded == old(recorded) && lastEmotion == old(lastEmotion)
    {
      if action == "camera" {
        if state == "started" {
          buttons := Buttons(true, false, false);
        } else {
          buttons := Buttons(false, true, true);
        }
      }
    }

    /** `stopCamera()`: the stream is released, processing stops and the
        buttons return to the stopped layout; the history and `lastEmotion` stay. */
    method StopCamera()
      requires Valid()
      modifies this
      ensures Valid()
      ensures !hasStream && !isProcessing && processingInterval == None
      ensures buttons == CameraButtons(false)
      ensures emotionHistory == old(emotionHistory) && recorded == old(recorded) && lastEmotion == old(lastEmotion)
    {
      if hasStream {
        hasStream := false;
      }
      StopProcessing();
      UpdateUI("camera", "stopped");
    }

    /** `startCamera()`. `granted` is whether the browser handed out a camera
        stream and `timer` the interval handle; the metadata callback is taken
        to run at once. A refusal changes no state (an error is shown). */
    method StartCamera(granted: bool, timer: TimerId)
      requires Valid()
      modifies this
      ensures Valid()
      ensures !granted ==> unchanged(this)
      ensures granted ==>
        && hasStream && isProcessing
        && processingInterval == (if old(processingInterval).Some? then old(processingInterval) else Some(timer))
        && buttons == CameraButtons(true)
      ensures emotionHistory == old(emotionHistory) && recorded == old(recorded) && lastEmotion == old(lastEmotion)
    {
      if !granted {
        return;
      }
      hasStream := true;
      StartProcessing(timer);
      UpdateUI("camera", "started");
    }
  }
}
