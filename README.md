# Segmented video recorder: the recording controller, in Dafny

This project models the recording controller of an Android app that records
camera video to a series of MPEG-4 files. The controller is `MainActivity`. A
tap on the record button toggles a single `isRecording` flag. While recording,
a ticker refreshes an `HH:MM:SS` label every 1000 ms. A rollover also runs
every 600000 ms: it stops the recorder, resets it, prepares a fresh one on a
new output file and starts it again. Before the first start, the controller
checks three run-time permissions and asks for them when one is missing.

All of this runs on the main looper, so the model is sequential.

- `clock.dfy` (module `Clock`) covers the arithmetic and text of the timer
  label. It models Kotlin's truncating `Long` `/` and `%` and the split of
  elapsed milliseconds into hours, minutes and seconds. It also models
  Java's `%02d:%02d:%02d`, including the sign that a negative field prints.
  A parser for the label text serves as its inverse.
- `permissions.dfy` (module `Permissions`) covers the permission gate. That
  is the three-way grant check, the request for the three permissions with
  code 101, and Kotlin's `all` over the grant results.
- `recording.dfy` (module `Recording`) holds the class `MainActivity`. Its
  fields are `isRecording`, `startTime`, the two labels, whether a camera
  handle is held, and `pending`. `pending` is the `Handler`'s queue of
  (task, delay) entries: `postDelayed` appends to it, and
  `removeCallbacksAndMessages(null)` empties it. `Dispatch` stands for the
  looper running one due entry.
  Camera, MediaRecorder, MediaStore and the permission dialog are platform
  services. Their answers come in as a `Platform` value: whether
  `Camera.open()` returned a handle, whether binding the preview threw,
  whether the MediaStore insert returned a URI, whether `prepare()`
  succeeded and whether `stop()` threw. Each call made on them goes into the
  ghost log `calls`.
- The timer label is kept as what it shows. That is either the prompt
  "Click to Record" or the elapsed time of the last tick. `LabelText` gives
  its exact characters.

The class invariant `Valid()` states four facts. While recording, exactly
one ticker at 1000 ms and one rollover at 600000 ms are pending; while idle,
nothing is. The button reads "Stop Recording" while recording, and the timer
label shows the prompt while idle. Replaying the call log never starts a
running recorder or stops a stopped one, and the recorder is running exactly
while `isRecording` holds. Every event method keeps `Valid()`. So a stale
ticker or rollover never fires once idle, and the rollover always stops the
running segment before it starts the next.

Some facts about the code that the model follows:

- Recording does not imply a held camera. `Camera.open()` may return null,
  and a failed preview binding releases the handle. Either way
  `startRecording` still runs. `surfaceDestroyed` also releases the camera
  in the middle of a recording. `OnRecordClick` states
  `cameraHeld == (p.cameraOpens && !p.previewFails)` next to
  `isRecording == true`.
- The comment at line 100 says the file switches "every 10 seconds". The
  code passes 600000 ms, and the model uses that value.
- A permission result with no grant results passes the `all` test, so it
  starts the preview.
- The ticker does not just stop "within a tick" after a stop.
  `removeCallbacksAndMessages(null)` cancels it, so no ticker stays pending.
- `MediaRecorder.release()` is never called. Each `prepareRecorder`
  (line 162) replaces a recorder that was stopped and reset, but not
  released. The model has one recorder state (`Usage`), which merges those
  successive recorder objects. That is sound here because every old recorder
  is stopped and reset before it is replaced.

## Model

| member | source | states |
|---|---|---|
| Clock.Quot | app/src/main/java/com/machinetest/kasavamt/MainActivity.kt:122-124 | Kotlin's `Long` `/`, truncating toward zero; its relation to `Rem` and its sign are stated by `QuotRem` |
| Clock.Rem | app/src/main/java/com/machinetest/kasavamt/MainActivity.kt:122-123 | Kotlin's `Long` `%`, whose result takes the dividend's sign; its bounds are stated by `QuotRem` |
| Clock.QuotRem | app/src/main/java/com/machinetest/kasavamt/MainActivity.kt:121-124 | Kotlin's `Long` `/` and `%` as used for the timer: quotient times divisor plus remainder gives back the dividend, both take the dividend's sign, and the remainder is smaller than the divisor in magnitude |
| Clock.QuotThousand | app/src/main/java/com/machinetest/kasavamt/MainActivity.kt:122-124 | dividing the milliseconds by 1000 and then by 60 or 3600 is the same as dividing by `1000 * 60` or `1000 * 60 * 60` at once, with truncation |
| Clock.Decompose | app/src/main/java/com/machinetest/kasavamt/MainActivity.kt:121-124 | the hours, minutes and seconds of the elapsed time; its bounds and the whole seconds it rebuilds are stated by `DecomposeSpec` |
| Clock.DecomposeSpec | app/src/main/java/com/machinetest/kasavamt/MainActivity.kt:121-124 | for elapsed ≥ 0, minutes and seconds lie in [0, 60) and hours ≥ 0; below zero all three are ≤ 0 and above -60; in every case `hours*3600 + minutes*60 + seconds` is the elapsed whole seconds |
| Clock.Decimal | app/src/main/java/com/machinetest/kasavamt/MainActivity.kt:126 | the digits `%d` prints for n ≥ 0: all decimal digits, a leading '0' iff n is 0, one digit iff n < 10 and at most two iff n < 100 |
| Clock.DecimalRoundTrip | app/src/main/java/com/machinetest/kasavamt/MainActivity.kt:126 | the digits `%d` prints for a non-negative number read back as that number |
| Clock.ZeroPad2 | app/src/main/java/com/machinetest/kasavamt/MainActivity.kt:126 | one `%02d` field, with a minus sign and no padding for a negative number; its width and read-back are stated by `ZeroPad2Shape` |
| Clock.ZeroPad2Shape | app/src/main/java/com/machinetest/kasavamt/MainActivity.kt:126 | a `%02d` field is at least two characters; for n ≥ 0 it is all digits, exactly two of them iff n < 100, and reads back as n |
| Clock.Format | app/src/main/java/com/machinetest/kasavamt/MainActivity.kt:126 | `String.format("%02d:%02d:%02d", hours, minutes, seconds)`; that it parses back to its seconds is stated by `FormatRoundTrip` |
| Clock.FormatRoundTrip | app/src/main/java/com/machinetest/kasavamt/MainActivity.kt:126 | `%02d:%02d:%02d` of in-range non-negative fields parses back to the seconds they stand for |
| Clock.ClockText | app/src/main/java/com/machinetest/kasavamt/MainActivity.kt:121-126 | the label text `updateTimer` computes from the elapsed milliseconds; it is stated by `ClockTextRoundTrip`, `ClockTextShape` and `NegativeElapsedText` |
| Clock.ClockTextRoundTrip | app/src/main/java/com/machinetest/kasavamt/MainActivity.kt:121-126 | for elapsed ≥ 0 the label text parses back to exactly `elapsed / 1000` seconds, so the label shows the elapsed time to the second |
| Clock.ClockTextShape | app/src/main/java/com/machinetest/kasavamt/MainActivity.kt:126 | for elapsed ≥ 0 the label is exactly 8 characters iff fewer than 100 hours have passed, and then it is digits with ':' at positions 2 and 5 |
| Clock.NegativeElapsedText | app/src/main/java/com/machinetest/kasavamt/MainActivity.kt:121-126 | for elapsed from -59999 to -1000 ms, a clock set back before the start, the label is `00:00:-` followed by the digits of the whole seconds, unpadded (`00:00:-5` five seconds before), and it does not parse as a time |
| Permissions.CheckPermissions | app/src/main/java/com/machinetest/kasavamt/MainActivity.kt:205-214 | the check passes iff every permission in the request list (camera, record audio, write storage) is granted; any single denial fails it and no other permission matters |
| Permissions.AllGranted | app/src/main/java/com/machinetest/kasavamt/MainActivity.kt:244 | Kotlin's `all { it == PERMISSION_GRANTED }` holds iff every grant result is 0, so it holds for an empty array |
| Permissions.PreviewOnResult | app/src/main/java/com/machinetest/kasavamt/MainActivity.kt:241-249 | the preview starts iff the request code is 101 and no grant result is a denial; for code 101 with no results it starts, and a result of -1 (denied) anywhere stops it |
| Recording.AfterTap | app/src/main/java/com/machinetest/kasavamt/MainActivity.kt:61-69 | the flag after one tap; what taps do over time is stated by `TapsAlternate` and `DeniedTapsStayIdle`, and `OnRecordClick` ties it to the class |
| Recording.TapsAlternate | app/src/main/java/com/machinetest/kasavamt/MainActivity.kt:60-71 | with the permissions granted, taps flip the flag every time: after n taps it differs from its start iff n is odd |
| Recording.DeniedTapsStayIdle | app/src/main/java/com/machinetest/kasavamt/MainActivity.kt:64-69 | without the permissions, no sequence of taps from idle ever starts recording |
| Recording.LabelText | app/src/main/java/com/machinetest/kasavamt/MainActivity.kt:126-127 | the characters of the timer label; what they read back as is stated by `LabelTextReadsBack` |
| Recording.LabelTextReadsBack | app/src/main/java/com/machinetest/kasavamt/MainActivity.kt:126-127 | the prompt "Click to Record" never parses as a time, and a label for elapsed ≥ 0 parses to exactly `elapsed / 1000` seconds |
| Recording.StopCalls | app/src/main/java/com/machinetest/kasavamt/MainActivity.kt:107-116 | the calls of the stop path; its effect on the recorder is stated by `StopFinalizes` |
| Recording.StopFinalizes | app/src/main/java/com/machinetest/kasavamt/MainActivity.kt:107-116 | the stop path takes a running recorder to stopped whether or not `stop()` threw; `reset()` always follows, and the camera is relocked iff a handle is held |
| Recording.StartRuns | app/src/main/java/com/machinetest/kasavamt/MainActivity.kt:96-98 | preparing and starting from a stopped recorder leaves it running, started exactly once |
| Recording.RolloverCalls | app/src/main/java/com/machinetest/kasavamt/MainActivity.kt:137-144 | the calls of one rollover; its effect on the recorder is stated by `RolloverRestarts` |
| Recording.RolloverRestarts | app/src/main/java/com/machinetest/kasavamt/MainActivity.kt:135-146 | a rollover takes a running recorder through stop, reset, prepare and start back to running with no double start; on a stopped recorder the same calls would be a misuse |
| Recording.RolloverKeepsRunning | app/src/main/java/com/machinetest/kasavamt/MainActivity.kt:135-146 | appending a rollover to a log whose recorder is running leaves it running |
| Recording.PreviewCalls | app/src/main/java/com/machinetest/kasavamt/MainActivity.kt:74-90 | the calls of `startCameraPreview`; their shape is stated by `PreviewShape` |
| Recording.PreviewShape | app/src/main/java/com/machinetest/kasavamt/MainActivity.kt:74-90 | binding the preview opens the camera first; it starts the preview iff a handle came back and binding succeeded, releases the handle iff binding threw, and never touches the recorder |
| Recording.PrepareCalls | app/src/main/java/com/machinetest/kasavamt/MainActivity.kt:161-192 | the calls of `prepareRecorder`; their shape is stated by `PrepareShape` |
| Recording.PrepareShape | app/src/main/java/com/machinetest/kasavamt/MainActivity.kt:161-192 | preparing begins with a new recorder and ends with setting the preview surface and then `prepare()`; it unlocks the camera iff a handle is held and sets an output file iff the MediaStore entry was created |
| Recording.ReplayAppend | app/src/main/java/com/machinetest/kasavamt/MainActivity.kt:103-146 | the recorder's start/stop state after a log is the same whether the log is replayed whole or in two parts |
| Recording.DueEntry | app/src/main/java/com/machinetest/kasavamt/MainActivity.kt:130-145 | an entry taken from an armed queue means the activity is recording and the entry is the ticker or the rollover; posting it again re-arms the same two callbacks |
| Recording.MainActivity.constructor | app/src/main/java/com/machinetest/kasavamt/MainActivity.kt:45-59 | after `onCreate` and `handleEvents` the activity is idle, has nothing pending, holds no camera, and its timer label shows "Click to Record" |
| Recording.MainActivity.OnRecordClick | app/src/main/java/com/machinetest/kasavamt/MainActivity.kt:60-71 | a tap stops a recording (flag false, both labels reset, queue empty, stop calls logged); from idle with the three grants it starts the preview and the recording (flag true, start time `now`, one ticker and one rollover pending); from idle without them it only requests the three permissions with code 101 and changes nothing else |
| Recording.MainActivity.StartCameraPreview | app/src/main/java/com/machinetest/kasavamt/MainActivity.kt:74-90 | a camera handle is held afterwards iff `Camera.open()` returned one and binding the preview did not throw; a failed binding releases it |
| Recording.MainActivity.StartRecording | app/src/main/java/com/machinetest/kasavamt/MainActivity.kt:92-101 | sets the flag, start time `now` and "Stop Recording"; the ticker runs once at `tickNow`; exactly one ticker at 1000 ms and one rollover at 600000 ms are pending; the recorder is prepared and started once |
| Recording.MainActivity.StopRecording | app/src/main/java/com/machinetest/kasavamt/MainActivity.kt:103-117 | clears the flag and resets both labels; whether or not `stop()` throws, the recorder is reset, a held camera relocked and the queue emptied, so no ticker or rollover is left |
| Recording.MainActivity.UpdateTimer | app/src/main/java/com/machinetest/kasavamt/MainActivity.kt:119-132 | while recording, the label shows `now - startTime` and one more ticker is posted at 1000 ms; while idle, nothing changes |
| Recording.MainActivity.SwitchFile | app/src/main/java/com/machinetest/kasavamt/MainActivity.kt:135-147 | while recording, stop (a throw swallowed), reset, prepare and start in that order, and exactly one rollover re-posted at 600000 ms, with the flag still set; while idle, nothing changes |
| Recording.MainActivity.PrepareRecorder | app/src/main/java/com/machinetest/kasavamt/MainActivity.kt:161-192 | logs a new recorder, the camera unlock when a handle is held, the fixed configuration, the output file when the MediaStore entry exists, the preview surface, and `prepare()` with its outcome |
| Recording.MainActivity.RequestPermissions | app/src/main/java/com/machinetest/kasavamt/MainActivity.kt:216-226 | requests exactly camera, record audio and write storage, in that order, with code 101 |
| Recording.MainActivity.OnRequestPermissionsResult | app/src/main/java/com/machinetest/kasavamt/MainActivity.kt:241-249 | starts the preview iff the code is 101 and every result is a grant, and otherwise only shows "Permissions required"; never changes the flag or the queue |
| Recording.MainActivity.SurfaceDestroyed | app/src/main/java/com/machinetest/kasavamt/MainActivity.kt:235-239 | a held camera has its preview stopped and is released, whatever the recording state; afterwards no handle is held |
| Recording.MainActivity.Dispatch | app/src/main/java/com/machinetest/kasavamt/MainActivity.kt:119-146 | a due ticker or rollover runs only while recording: a ticker sets the label to the time elapsed since `startTime`, a rollover restarts the recorder; the same two callbacks stay armed afterwards |

## Left out

- `SplashActivity` is not part of this model. It is a one-shot 3000 ms delay followed by navigation to `MainActivity`, with no logic to state.
- `getOutputFile` is left out because nothing calls it. The fields `currentFile` and `fileIndex` are left out because nothing uses them.
- The real behaviour of Camera, MediaRecorder and the MediaStore content resolver is left out. The recorder's constant settings (sources, MPEG-4, AAC, H.264, 1280×720, 44100 Hz, 2 Mbps, 64 kbps, 30 fps) are one `RecorderConfigure` log entry. The `video_<millis>.mp4` entry in `Movies/MyAppVideos` is one `RecorderSetOutput` entry, logged only when the insert returned a URI. A null file descriptor from `openFileDescriptor` is not distinguished.
- Exceptions that nothing catches are not modelled. They end the activity, but the model carries on. Among them are:
  - `Camera.open()` throwing, for example when this process already holds the camera;
  - `camera?.setDisplayOrientation(90)` throwing at line 76, which is outside the `try` (`previewFails` covers only the calls inside it);
  - `openFileDescriptor` throwing `FileNotFoundException` at line 180, where the model keeps `outputCreated` and logs `RecorderSetOutput`;
  - `prepare()` throwing something other than an `IOException`, since the catch at line 189 takes only `IOException` and `RecorderPrepare(false)` stands for that caught case;
  - `MediaRecorder.start()` throwing after a failed `prepare()`, where the log records `RecorderPrepare(false)` followed by `RecorderStart`.
- Wall-clock time and real delays are left out. `now` and `tickNow` are inputs. `pending` keeps each entry's delay but no due time, so `Dispatch` may run any pending entry.
- Views, layout inflation, log lines and Toast display are left out. The Toast is a `Notice` log entry. The button's first label comes from the layout resource, so the constructor takes it as a parameter. `surfaceCreated` and `surfaceChanged` only swap or ignore the surface holder, which the model does not represent.
- Recording.MainActivity.UpdateTimer: does not model 64-bit wrap-around of `now - startTime`, because clock readings in milliseconds stay far below 2^63.
- Clock.ClockTextShape: assumes the default locale prints ASCII digits, because `String.format` with a locale that uses other digits is not modelled. The same assumption underlies `Clock.ZeroPad2`, `Clock.Format`, `Clock.ClockText`, `Clock.FormatRoundTrip`, `Clock.ClockTextRoundTrip` and `Recording.LabelTextReadsBack`.
