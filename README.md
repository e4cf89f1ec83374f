# Emonet emotion avatar — a Dafny model

Emonet classifies a face into one of seven emotions: happy, sad, angry,
surprise, neutral, fear and disgust. It uses a fixed table of threshold rules
over five features measured on face-mesh landmarks. Three programs are
built around this classifier:

- the Flask server `app.py`. Its `WebEmotionAvatar` classifies each posted
  frame and keeps the current emotion, its confidence and a 30-entry history.
- the desktop loop `avatar.py`. Its `EmotionAvatar.run` classifies every
  webcam frame and keeps the same state plus a 10-entry frame-rate history.
  Keys toggle debug output and cycle through three avatar styles.
- the browser client `static/js/app.js`. Its `EmotionAvatarApp` starts and
  stops the periodic upload. It keeps a newest-first timeline of the last
  ten changes of emotion and enables or disables the camera buttons.

Modules:

- `Emotions`: the label set, the declaration order used to break ties, and
  the display table.
- `Features`: `get_emotion_features`. The Euclidean norm that
  `np.linalg.norm` computes is a function parameter pinned down by
  `IsEuclideanNorm`: it is non-negative and its square is dx² + dy².
- `Classifier`: the six rules, the score table, Python's `max` over the
  dictionary (the first maximum in declaration order), and `get_emotion`.
- `BoundedDeque`: `collections.deque(maxlen=n)` used as an append-only
  history.
- `WebAvatar`: `process_frame`, `get_emotion_history` and `get_stats` of
  the server.
- `DesktopAvatar`: the tracking, key handling and loop of `run`.
- `WebClient`: the client's state machine.

The feature and classifier code is the same in `app.py` and `avatar.py`, apart
from the debug print, so it is modelled once and cited for both files.
`get_emotion_features` and `get_emotion` are modelled as functions outside
the classes. In the source they are methods that write no field and read only
the keys of `self.emotions` and, in avatar.py, `show_debug`. The debug flag only selects console
output, which is not modelled.

## Model

| member | source | states |
|---|---|---|
| Emotions.Rank | app.py:30-38 | each label has a position in the declaration order of the emotion table, and the table holds that label there |
| Emotions.RankOfLabel | avatar.py:26-34 | the seven table positions hold seven different labels, so the position of the label at position i is i |
| Emotions.TotalEmotions | app.py:198 | `len(self.emotions)` is 7 and every label is one of those entries |
| Emotions.Info | app.py:30-38 | every table entry has a one-character emoji, a `#RRGGBB` colour and a non-empty description |
| Emotions.InfoIdentifiesEmotion | app.py:30-38 | no two labels share an emoji or a colour, so the display identifies the label |
| Features.Distance | app.py:45-46 | `distance` is non-negative |
| Features.FaceWidth | app.py:61 | the face width is a distance between landmarks 234 and 454, hence non-negative |
| Features.EmotionFeatures | app.py:48-79 | with a positive face width, the four distance features are non-negative; each of them times the face width is its distance, or the mean of its two distances for eye_open and eyebrow_height; sad_offset is landmark 468's y minus the mean of the four eye y values, not divided by the width |
| Features.FeaturesUnderScaling | avatar.py:64-80 | scaling a face by k > 0 leaves the four width-divided features unchanged and multiplies sad_offset by k |
| Features.FeaturesUnderTranslation | avatar.py:51-82 | moving the face within the frame changes none of the five features |
| Classifier.Score | app.py:85-106 | neutral scores 0.5; a label whose rule does not fire scores 0.0; a firing rule scores in (0.5, 1.0]: happy above 0.8, surprise at least 0.96, fear above 0.6, disgust exactly 0.8 and angry exactly 0.7 |
| Classifier.FirstMaxIndex | app.py:108 | Python `max(d, key=...)` returns the first key whose score is at least every score and strictly above every earlier score |
| Classifier.Classify | app.py:85-111 | the label returned scores at least as much as every label and strictly more than every earlier label; its confidence is its score and lies in [0.5, 1.0]; it is neutral exactly when none of the six rules fires |
| Classifier.GetEmotion | avatar.py:84-118 | `get_emotion` returns a label of the table with its own score as confidence, in [0.5, 1.0]; the label is neutral exactly when no rule fires on the landmarks' features |
| Classifier.ClassifyIsUniqueFirstMax | app.py:108-109 | a label that scores highest and beats every earlier label is the one chosen, so the tie-break is fully determined |
| Classifier.RulesExclusive | app.py:88-104 | happy, surprise and fear fire for disjoint mouth apertures (below 0.06, at least 0.12, strictly between); sad and angry never fire together |
| Classifier.SurpriseSaturates | avatar.py:94-95 | surprise scores exactly 1.0 when mouth_open is at least 0.125 |
| Classifier.HappySaturates | avatar.py:91-92 | happy scores exactly 1.0 when it fires with mouth_stretch at least 0.5 |
| Classifier.ConstantScores | avatar.py:103-107 | disgust scores 0.8 and angry 0.7 whenever they fire |
| Classifier.SadBeatsDisgustOnTie | app.py:97-101 | with sad and disgust both at 0.8, sad is chosen because it is declared earlier |
| Classifier.HappyBeatsSadOnTie | app.py:88-98 | with happy and sad both at 1.0, happy is chosen because it is declared first |
| Classifier.WideClosedMouthIsHappy | app.py:88-89 | a wide closed mouth is classified happy with confidence 1.0 |
| Classifier.OpenMouthIsSurprise | app.py:91-92 | a wide open mouth is classified surprise with confidence 1.0 |
| BoundedDeque.Window | app.py:41 | the window of a history is its last min(len, n) items, in order |
| BoundedDeque.Append | avatar.py:37 | `append` on a deque with `maxlen` keeps at most maxlen items; the new item is last and the rest are the previous newest items, in order |
| BoundedDeque.AppendWindow | app.py:142 | appending to the window of a history gives the window of the history extended by that item |
| BoundedDeque.WindowDropsOldest | avatar.py:37 | once n items have been appended, the window is exactly the last n of them |
| BoundedDeque.AppendAll | avatar.py:40 | any run of appends keeps a deque within its maxlen |
| BoundedDeque.AppendAllSnoc | avatar.py:238 | a run of appends followed by one more is one run of appends |
| BoundedDeque.AppendAllWindow | avatar.py:231 | a run of appends to the window of a history gives the window of the extended history |
| BoundedDeque.AppendAllFromEmpty | app.py:41 | a deque that starts empty holds, after any run of appends, exactly the last min(len, maxlen) items appended, oldest first |
| WebAvatar.Round2 | app.py:132 | `round(x, 2)` on the exact value is a whole number of hundredths, within 0.005 of x, and an even number of hundredths at a half |
| WebAvatar.Round2KeepsConfidenceRange | app.py:132 | rounding a confidence in [0.5, 1.0] stays in [0.5, 1.0] |
| WebAvatar.NoFaceData | app.py:118-125 | the reply when no face is found is neutral, confidence 0.0, face_detected false, with the neutral entry's emoji, colour and description |
| WebAvatar.FaceData | app.py:130-137 | the reply for a face carries its label, the table entry of that label, face_detected true, and the confidence rounded to within 0.005 and still in [0.5, 1.0] |
| WebAvatar.WebEmotionAvatar.constructor | app.py:40-43 | the tracker starts with an empty history, neutral and 0.0 |
| WebAvatar.WebEmotionAvatar.ProcessFrame | app.py:113-145 | with no face, the neutral reply and no field changes; otherwise only the first face is classified, the reply carries its rounded confidence, the unrounded confidence is stored, and exactly its label is appended to the 30-entry history |
| WebAvatar.WebEmotionAvatar.Record | app.py:139-142 | the three tracking assignments: current emotion, unrounded confidence, one append to the history |
| WebAvatar.WebEmotionAvatar.EmotionHistory | app.py:185-189 | the history returned holds at most 30 labels and ends with the current emotion |
| WebAvatar.WebEmotionAvatar.GetStats | app.py:191-200 | the stats report the current emotion and stored confidence (0.0 or in [0.5, 1.0]), history_length at most 30 and total_emotions 7 |
| DesktopAvatar.NextStyleIndex | avatar.py:259 | `(style_index + 1) % 3` stays in [0, 3), wraps exactly from the last style and otherwise moves on by one |
| DesktopAvatar.OnKey | avatar.py:250-261 | the debug key flips show_debug and nothing else; the style key changes the style and nothing else; every other key, escape and screenshot included, changes neither |
| DesktopAvatar.DebugTwiceRestores | avatar.py:255-256 | pressing the debug key twice restores show_debug |
| DesktopAvatar.StyleCycle | avatar.py:203-204 | the style key walks mesh, points, minimal and back: three presses restore the style and each style is visited once |
| DesktopAvatar.KeysEffect | avatar.py:258-260 | any run of key presses keeps style_index in [0, 3) |
| DesktopAvatar.FrameDetection | avatar.py:219-225 | without a face, neutral with 0.0; with faces, the last face's label with a confidence in [0.5, 1.0] |
| DesktopAvatar.FrameLabels | avatar.py:231 | each handled frame appends exactly one label |
| DesktopAvatar.FrameLabelsAt | avatar.py:223-231 | the label at position i is the one frame i's detection settles on |
| DesktopAvatar.FrameRates | avatar.py:238 | each handled frame appends exactly its own frame rate |
| DesktopAvatar.HistoryStep | avatar.py:231 | one more frame appends its own label to the label history of the frames before it |
| DesktopAvatar.RatesKeysStep | avatar.py:238-260 | one more frame appends its rate to the rate history and applies its key to the controls |
| DesktopAvatar.FramesHandled | avatar.py:207-252 | the loop handles every frame up to and including the first one with the escape key, or every frame when there is none |
| DesktopAvatar.DetectFaces | avatar.py:223-225 | the loop over faces classifies each face; the last face's result stands, and neutral with 0.0 when there is none |
| DesktopAvatar.EmotionAvatar.constructor | avatar.py:36-43 | the tracker starts with empty histories, neutral, 0.0, debug off and the mesh style |
| DesktopAvatar.EmotionAvatar.TrackFrame | avatar.py:219-238 | each frame sets the current emotion and confidence to the frame's result, neutral and 0.0 included, appends that label to the 30-entry history and the frame rate to the 10-entry one, and leaves the controls alone |
| DesktopAvatar.EmotionAvatar.RecordEmotion | avatar.py:228-231 | the tracking assignments keep the history within 30 and ending with the current emotion |
| DesktopAvatar.EmotionAvatar.HandleKey | avatar.py:250-261 | escape asks to quit; the other keys change the controls as `OnKey` says and no history, emotion or confidence |
| DesktopAvatar.EmotionAvatar.HandleFrame | avatar.py:207-261 | one pass of the loop tracks the frame and then applies its key |
| DesktopAvatar.EmotionAvatar.Advance | avatar.py:207-261 | after one more pass, the histories, the current detection and the controls are those of the frames handled so far |
| DesktopAvatar.EmotionAvatar.Run | avatar.py:202-261 | the loop handles exactly the frames up to the first escape; the label history is the old one with each handled frame's label appended in order (at most 30 kept), the rate history likewise (at most 10), the current detection is that of the last handled frame (unchanged when no frame is read), and the controls show the effect of the handled keys in order |
| WebClient.Reverse | static/js/app.js:177 | reversing keeps the length and reads the list back to front |
| WebClient.AddEntry | static/js/app.js:177-187 | `unshift` then `pop` past ten puts the new entry at index 0, keeps the others in order, and drops only the last when the list was full |
| WebClient.ReverseSnoc | static/js/app.js:177 | adding an entry at the end of a history puts it first in the reversed view |
| WebClient.ReverseDropFirst | static/js/app.js:185-186 | dropping the oldest entry of a history drops the last entry of the reversed view |
| WebClient.ReverseWindowAdjacent | static/js/app.js:177-187 | adjacent timeline entries are adjacent history entries in the other order |
| WebClient.AddEntryKeepsNewestFirst | static/js/app.js:174-190 | the timeline always holds the last ten entries ever added, newest at index 0 |
| WebClient.ReverseWindowChanges | static/js/app.js:147-150 | when every recorded entry is a change of emotion, no two adjacent timeline entries share an emotion |
| WebClient.ChangesExtend | static/js/app.js:147-148 | an entry whose emotion differs from the newest one keeps every step a change |
| WebClient.ShouldRecord | static/js/app.js:147 | a reply is recorded only when a face was detected with an emotion other than lastEmotion; a no-face reply never is; the first detection always is |
| WebClient.ShouldRecordIsChange | static/js/app.js:147-150 | a reply is recorded exactly when it is a detection that moves lastEmotion |
| WebClient.NextLast | static/js/app.js:147-150 | lastEmotion does not change on a no-face reply and becomes the detected emotion otherwise |
| WebClient.Recorded | static/js/app.js:147-150 | a run of replies records at most one entry per reply |
| WebClient.RecordedChanges | static/js/app.js:147-150 | each recorded emotion differs from the one recorded before it, and the first from the last emotion already recorded |
| WebClient.StableEmotionRecordsNothing | static/js/app.js:147-150 | while every detected emotion is the last one recorded, nothing is recorded, whatever no-face replies come between |
| WebClient.SameEmotionRecordedOnce | static/js/app.js:147-150 | a run of identical detections, possibly broken by no-face replies, records that emotion exactly once, or not at all when it was already the last one |
| WebClient.CameraButtons | static/js/app.js:224-237 | the started state disables start and enables stop and capture; any other state does the reverse |
| WebClient.CameraButtonsOpposite | static/js/app.js:227-235 | the two camera states give exactly opposite button flags |
| WebClient.EmotionAvatarApp.constructor | static/js/app.js:21-26 | the client starts without a stream, not processing, with no interval, an empty timeline and no last emotion |
| WebClient.EmotionAvatarApp.StartProcessing | static/js/app.js:83-90 | with an interval already held nothing changes; otherwise processing starts with the new interval |
| WebClient.EmotionAvatarApp.StopProcessing | static/js/app.js:92-98 | whatever the prior state, processing stops and the interval is cleared |
| WebClient.EmotionAvatarApp.AddToHistory | static/js/app.js:174-190 | the timeline gets the new entry at index 0, at most ten kept, and stays the newest-first view of every entry ever added |
| WebClient.EmotionAvatarApp.UpdateEmotionDisplay | static/js/app.js:146-150 | an entry is added exactly when a face is detected with an emotion other than lastEmotion, and lastEmotion moves only then |
| WebClient.EmotionAvatarApp.ProcessFrame | static/js/app.js:100-130 | nothing happens unless processing with a stream; a failed request changes nothing; a reply goes through the history rule |
| WebClient.EmotionAvatarApp.UpdateUI | static/js/app.js:224-238 | only the camera action changes the buttons, to the started or stopped layout |
| WebClient.EmotionAvatarApp.StopCamera | static/js/app.js:72-81 | afterwards there is no stream, no processing, no interval and the stopped button layout; the timeline and lastEmotion stay |
| WebClient.EmotionAvatarApp.StartCamera | static/js/app.js:43-70 | a refused camera changes nothing; a granted one holds the stream, is processing with an interval (the existing one if any) and shows the started layout |

## Left out

- MediaPipe face-mesh detection, `cv2` colour conversion, flipping,
  resizing, drawing (`draw_avatar`, `draw_ui`), windows and webcam capture
  are foreign calls and I/O. Each frame's detector output is a parameter:
  the landmark lists of the faces found. A run of the desktop loop is given
  as the sequence of frames the camera yields, and running out of frames
  stands for a failed `cap.read()`.
- `np.linalg.norm` is a parameter characterised by `IsEuclideanNorm`, on
  exact reals. Floating-point rounding of the features is not modelled.
- Features.FaceOk: a face must have at least 469 landmarks and two edge
  landmarks that do not coincide. With fewer landmarks the source raises
  IndexError. Face-mesh detection with refined landmarks (app.py:20,
  avatar.py:16) always returns 478, so every call site meets the bound.
  With coinciding edges the source divides by the zero width anyway, and
  numpy then yields inf or nan features.
- The Flask routes' request parsing, base64 and JPEG decoding, JSON encoding
  and error replies are HTTP plumbing. The server's own tracker starts from
  the `WebEmotionAvatar` state.
- The frame rate comes from the wall clock (avatar.py:234-236). It is given
  per frame. `avg_fps` (avatar.py:239) is float division used only for
  display and is not modelled; only the 10-entry rate history is.
- Screenshots and directory creation are file I/O. The screenshot key
  changes no field.
- The debug print in `get_emotion` and the other console output are left out.
- In app.js, the DOM writes (emoji, text, confidence bar, face status,
  colour, timeline markup, `resetEmotionDisplay`), the media tracks, `fetch`,
  `setInterval` and `clearInterval`, and the modal handlers are UI and
  asynchrony. The `loadedmetadata` callback of `startCamera` is taken to run
  at once. A failed request is a `None` reply. The time of day of an entry
  is a parameter. The buttons' initial flags come from the page markup and
  are a constructor parameter.
- `captureImage`, the remaining client helpers and `run.py` (environment
  checks) are not part of this model. `config.py` duplicates the rule
  thresholds; neither program reads it.
- `KeyboardInterrupt` and the exception handlers of the desktop loop and of
  the routes are not modelled.
- WebAvatar.WebEmotionAvatar.EmotionHistory: states only the bound and the
  newest label. That the history is the last 30 labels ever appended follows
  from `ProcessFrame`'s `Append` together with `AppendAllFromEmpty`, not from
  a field of the object.
- WebAvatar.WebEmotionAvatar.ProcessFrame: requests are taken one at a
  time. Flask's server is threaded and the three tracking writes
  (app.py:140-142) take no lock, while the client posts every 300 ms
  without waiting for the previous reply. Two overlapping requests could
  leave the current emotion, the confidence and the newest history label
  from different frames, so `Valid()` holds only for requests run in turn.
- WebClient.EmotionAvatarApp.ProcessFrame: the guard and the reply are one
  step. In the source the guard (static/js/app.js:101) is checked when the
  request is sent and the reply is applied after the `await` with no
  second check, so a reply still in flight when `stopCamera` runs still
  adds a timeline entry. That late reply is not modelled.
- DesktopAvatar.EmotionAvatar.Run: `style_index` is a local of `run()`
  (avatar.py:204) that restarts at 0 on every call, while `avatar_style`
  keeps its value. The model keeps the index in the object, tied to the
  style. The program calls `run()` once on a fresh object (avatar.py:273-274),
  where the two agree; a second run is not modelled as the source would
  do it, where the first style key press could leave the style unchanged.
