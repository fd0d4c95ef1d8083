/** The recording controller of `MainActivity`: a single `isRecording` flag
    toggled by taps on the record button, a once-a-second ticker that
    refreshes the timer label, and a rollover that restarts the recorder on a
    new output file every 600000 ms. Both timers run on the main looper's
    `Handler`, modelled here as the queue `pending` of (task, delay) entries.
    Camera, MediaRecorder, MediaStore and the permission dialog are opaque
    platform services: their answers come in as a `Platform` value and the
    calls made on them are appended to the ghost log `calls`. */
module Recording {
  import opened Clock
  import opened Permissions

  /** The two callbacks the activity posts on its `Handler`. */
  datatype Task = Ticker | Rollover

  const TickerDelay: nat := 1000
  const RolloverDelay: nat := 600000

  const IdleText: string := "Click to Record"
  const StopText: string := "Stop Recording"
  const StartText: string := "Start Recording"
  const PermissionNotice: string := "Permissions required"

  /** What the timer label shows: the prompt "Click to Record", or the
      elapsed time `updateTimer` last formatted. */
  datatype TimerLabel = Prompt | ElapsedTime(ms: int)

  /** The characters the timer label displays. */
  function LabelText(l: TimerLabel): string {
    match l
    case Prompt => IdleText
    case ElapsedTime(ms) => ClockText(ms)
  }

  /** The label reads back as what it stands for: the prompt never reads as a
      time, and a non-negative elapsed time reads as its whole seconds. */
  lemma LabelTextReadsBack(l: TimerLabel)
    ensures l == Prompt ==> ParseClock(LabelText(l)) == None
    ensures l.ElapsedTime? && l.ms >= 0 ==> ParseClock(LabelText(l)) == Some(l.ms / 1000)
  {
    if l.ElapsedTime? && l.ms >= 0 {
      ClockTextRoundTrip(l.ms);
    }
  }

  /** One call the activity makes on a platform service. */
  datatype Call =
    | CameraOpen(gotHandle: bool)          // `Camera.open()`, which may return null
    | CameraStartPreview                   // orientation, surface, focus, preview size, `startPreview`
    | CameraStopPreview
    | CameraRelease
    | CameraLock
    | CameraUnlock
    | RecorderCreate                       // `MediaRecorder()`
    | RecorderConfigure                    // `setCamera` and the fixed sources, formats, codecs and rates
    | RecorderSetOutput                    // `setOutputFile` on a new MediaStore entry
    | RecorderSetPreviewDisplay            // `setPreviewDisplay` on the holder's surface
    | RecorderPrepare(succeeded: bool)     // `prepare()`; an IOException is logged and swallowed
    | RecorderStart
    | RecorderStop(threw: bool)            // `stop()`; an exception is logged and swallowed
    | RecorderReset
    | PermissionRequest(permissions: seq<Permission>, requestCode: int)
    | Notice(text: string)                 // a Toast

  /** What the platform answers during one event: whether `Camera.open()`
      returns a handle, whether binding the preview throws, whether the
      MediaStore insert returns a URI, whether `prepare()` succeeds and whether
      `stop()` throws. */
  datatype Platform = Platform(
    cameraOpens: bool,
    previewFails: bool,
    outputCreated: bool,
    prepareSucceeds: bool,
    stopThrows: bool)

  // The recorder's start/stop discipline, read off the call log

  /** Where the recorder stands after a prefix of the log: stopped, running,
      or misused (started while running, or stopped while not running). */
  datatype Usage = Stopped | Running | Misused

  function Step(u: Usage, c: Call): Usage {
    match c
    case RecorderStart => if u == Stopped then Running else Misused
    case RecorderStop(_) => if u == Running then Stopped else Misused
    case _ => u
  }

  function Replay(u: Usage, log: seq<Call>): Usage
    decreases |log|
  {
    if log == [] then u else Replay(Step(u, log[0]), log[1..])
  }

  /** Replaying a log in two parts is replaying it whole. */
  lemma {:induction false} ReplayAppend(u: Usage, a: seq<Call>, b: seq<Call>)
    ensures Replay(u, a + b) == Replay(Replay(u, a), b)
    decreases |a|
  {
    if a != [] {
      assert (a + b)[0] == a[0];
      assert (a + b)[1..] == a[1..] + b;
      ReplayAppend(Step(u, a[0]), a[1..], b);
      assert Replay(u, a + b) == Replay(Step(u, a[0]), a[1..] + b);
    } else {
      assert a + b == b;
    }
  }

  /** A log that neither starts nor stops the recorder. */
  predicate Quiet(log: seq<Call>) {
    forall i | 0 <= i < |log| :: !log[i].RecorderStart? && !log[i].RecorderStop?
  }

  /** Calls that neither start nor stop the recorder leave its usage alone. */
  lemma {:induction false} ReplayQuiet(u: Usage, log: seq<Call>)
    requires Quiet(log)
    ensures Replay(u, log) == u
    decreases |log|
  {
    if log != [] {
      assert Step(u, log[0]) == u;
      assert Quiet(log[1..]) by {
        forall i | 0 <= i < |log[1..]| ensures !log[1..][i].RecorderStart? && !log[1..][i].RecorderStop? {
          assert log[1..][i] == log[i + 1];
        }
      }
      ReplayQuiet(u, log[1..]);
      assert Replay(u, log) == Replay(Step(u, log[0]), log[1..]);
    }
  }

  // The call sequences of the activity's private helpers

  /** `startCameraPreview`: open the camera; if a handle came back, bind the
      preview, and on failure release the handle again. */
  function PreviewCalls(p: Platform): seq<Call> {
    [CameraOpen(p.cameraOpens)] +
    (if !p.cameraOpens then [] else if p.previewFails then [CameraRelease] else [CameraStartPreview])
  }

  /** `prepareRecorder`: a fresh recorder, the camera unlocked for it when a
      handle is held, the fixed configuration, the output file when the
      MediaStore entry was created, the preview surface, and `prepare()` last. */
  function PrepareCalls(cameraHeld: bool, p: Platform): seq<Call> {
    [RecorderCreate] + (if cameraHeld then [CameraUnlock] else []) + [RecorderConfigure] +
    (if p.outputCreated then [RecorderSetOutput] else []) +
    [RecorderSetPreviewDisplay, RecorderPrepare(p.prepareSucceeds)]
  }

  /** Binding the preview neither starts nor stops the recorder; it starts
      the preview exactly when a handle came back and binding succeeded, and
      releases the handle exactly when binding failed. */
  lemma PreviewShape(p: Platform)
    ensures Quiet(PreviewCalls(p)) && PreviewCalls(p)[0] == CameraOpen(p.cameraOpens)
    ensures (CameraStartPreview in PreviewCalls(p)) == (p.cameraOpens && !p.previewFails)
    ensures (CameraRelease in PreviewCalls(p)) == (p.cameraOpens && p.previewFails)
  {
  }

  /** Preparing neither starts nor stops the recorder; it begins with a fresh
      recorder and ends with `prepare()`, unlocks the camera exactly when a
      handle is held and sets an output file exactly when the MediaStore entry
      was created. */
  lemma PrepareShape(cameraHeld: bool, p: Platform)
    ensures Quiet(PrepareCalls(cameraHeld, p))
    ensures PrepareCalls(cameraHeld, p)[0] == RecorderCreate
    ensures PrepareCalls(cameraHeld, p)[|PrepareCalls(cameraHeld, p)| - 1] == RecorderPrepare(p.prepareSucceeds)
    ensures (CameraUnlock in PrepareCalls(cameraHeld, p)) == cameraHeld
    ensures (RecorderSetOutput in PrepareCalls(cameraHeld, p)) == p.outputCreated
    ensures PrepareCalls(cameraHeld, p)[|PrepareCalls(cameraHeld, p)| - 2] == RecorderSetPreviewDisplay
  {
  }

  /** The `try`/`finally` of `stopRecording`: `stop()`, then, thrown or not,
      `reset()` and the camera relocked when a handle is held. */
  function StopCalls(cameraHeld: bool, p: Platform): seq<Call> {
    [RecorderStop(p.stopThrows), RecorderReset] + (if cameraHeld then [CameraLock] else [])
  }

  /** `switchFile` while recording: `stop()` (a throw swallowed), `reset()`,
      a newly prepared recorder, `start()`. */
  function RolloverCalls(cameraHeld: bool, p: Platform): seq<Call> {
    [RecorderStop(p.stopThrows), RecorderReset] + PrepareCalls(cameraHeld, p) + [RecorderStart]
  }

  /** A stop finalizes the running recorder, whether or not `stop()` threw:
      reset and relock always follow the stop, and afterwards the recorder
      may be started again. */
  lemma StopFinalizes(cameraHeld: bool, p: Platform)
    ensures Replay(Running, StopCalls(cameraHeld, p)) == Stopped
    ensures StopCalls(cameraHeld, p)[1] == RecorderReset
    ensures (CameraLock in StopCalls(cameraHeld, p)) == cameraHeld
  {
    var cs := StopCalls(cameraHeld, p);
    ReplayAppend(Running, [RecorderStop(p.stopThrows)], cs[1..]);
    assert cs == [RecorderStop(p.stopThrows)] + cs[1..];
    ReplayQuiet(Stopped, cs[1..]);
  }

  /** Starting from idle prepares a recorder and starts it exactly once. */
  lemma StartRuns(cameraHeld: bool, p: Platform)
    ensures Replay(Stopped, PrepareCalls(cameraHeld, p) + [RecorderStart]) == Running
  {
    ReplayAppend(Stopped, PrepareCalls(cameraHeld, p), [RecorderStart]);
    PrepareShape(cameraHeld, p);
    ReplayQuiet(Stopped, PrepareCalls(cameraHeld, p));
  }

  /** A rollover finalizes the current segment before the next one starts:
      from a running recorder it ends running again with no double start, and
      it would be a misuse on a recorder that is not running. */
  lemma RolloverRestarts(cameraHeld: bool, p: Platform)
    ensures Replay(Running, RolloverCalls(cameraHeld, p)) == Running
    ensures Replay(Stopped, RolloverCalls(cameraHeld, p)) == Misused
  {
    var stop := [RecorderStop(p.stopThrows), RecorderReset];
    var prep := PrepareCalls(cameraHeld, p);
    assert RolloverCalls(cameraHeld, p) == stop + (prep + [RecorderStart]);
    ReplayAppend(Running, stop, prep + [RecorderStart]);
    ReplayAppend(Stopped, stop, prep + [RecorderStart]);
    ReplayAppend(Running, [RecorderStop(p.stopThrows)], [RecorderReset]);
    ReplayAppend(Stopped, [RecorderStop(p.stopThrows)], [RecorderReset]);
    assert stop == [RecorderStop(p.stopThrows)] + [RecorderReset];
    ReplayQuiet(Stopped, [RecorderReset]);
    ReplayQuiet(Misused, [RecorderReset]);
    assert Replay(Running, [RecorderStop(p.stopThrows)]) == Replay(Stopped, []);
    assert Replay(Stopped, [RecorderStop(p.stopThrows)]) == Replay(Misused, []);
    StartRuns(cameraHeld, p);
    ReplayAppend(Misused, prep, [RecorderStart]);
    PrepareShape(cameraHeld, p);
    ReplayQuiet(Misused, prep);
  }

  // The tap toggle on the flag alone

  /** The flag after one tap: a tap stops a recording, and from idle starts
      one only when all three permissions are granted. */
  function AfterTap(recording: bool, permitted: bool): bool {
    if recording then false else permitted
  }

  /** The flag after a sequence of taps, given whether the permission check
      passes at each. */
  function AfterTaps(recording: bool, permitted: seq<bool>): bool
    decreases |permitted|
  {
    if permitted == [] then recording else AfterTaps(AfterTap(recording, permitted[0]), permitted[1..])
  }

  /** With the permissions granted, taps alternate strictly: the flag flips
      at every tap, so it differs from its start after an odd number of taps. */
  lemma {:induction false} TapsAlternate(recording: bool, permitted: seq<bool>)
    requires forall i | 0 <= i < |permitted| :: permitted[i]
    ensures AfterTaps(recording, permitted) == (recording != (|permitted| % 2 == 1))
    decreases |permitted|
  {
    if permitted != [] {
      assert permitted[0];
      TapsAlternate(!recording, permitted[1..]);
    }
  }

  /** Without the permissions, taps never leave idle. */
  lemma {:induction false} DeniedTapsStayIdle(permitted: seq<bool>)
    requires forall i | 0 <= i < |permitted| :: !permitted[i]
    ensures !AfterTaps(false, permitted)
    decreases |permitted|
  {
    if permitted != [] {
      assert !permitted[0];
      DeniedTapsStayIdle(permitted[1..]);
    }
  }

  /** The Handler's queue while recording: one ticker at 1000 ms and one
      rollover at 600000 ms; nothing while idle. */
  function Armed(recording: bool): multiset<(Task, nat)> {
    if recording then multiset{(Ticker, TickerDelay), (Rollover, RolloverDelay)} else multiset{}
  }

  /** Taking the entry at `i` out of the queue and posting it again leaves the
      same callbacks pending. */
  lemma RepostSameEntries(q: seq<(Task, nat)>, i: nat)
    requires i < |q|
    ensures multiset(q[..i] + q[i + 1..] + [q[i]]) == multiset(q)
  {
    assert q == q[..i] + [q[i]] + q[i + 1..];
  }

  /** A due entry comes from a queue that is armed, so the activity is
      recording and the entry is the ticker or the rollover; posting it again
      after taking it out re-arms the same two callbacks. */
  lemma DueEntry(q: seq<(Task, nat)>, i: nat, recording: bool)
    requires multiset(q) == Armed(recording) && i < |q|
    ensures recording
    ensures q[i] == (Ticker, TickerDelay) || q[i] == (Rollover, RolloverDelay)
    ensures multiset(q[..i] + q[i + 1..] + [q[i]]) == Armed(recording)
  {
    assert q[i] in multiset(q);
    RepostSameEntries(q, i);
  }

  /** A rollover on a running recorder leaves it running. */
  lemma RolloverKeepsRunning(log: seq<Call>, cameraHeld: bool, p: Platform)
    requires Replay(Stopped, log) == Running
    ensures Replay(Stopped, log + RolloverCalls(cameraHeld, p)) == Running
  {
    ReplayAppend(Stopped, log, RolloverCalls(cameraHeld, p));
    RolloverRestarts(cameraHeld, p);
  }

  class MainActivity {
    var isRecording: bool
    var startTime: int
    var timerLabel: TimerLabel
    var buttonText: string
    var cameraHeld: bool
    var pending: seq<(Task, nat)>
    ghost var calls: seq<Call>

    /** The controller's invariant: the two timers are armed exactly while
        recording, the labels agree with the flag, and the recorder has been
        started and stopped in turn, running exactly while recording. */
    ghost predicate Valid()
      reads this
    {
      && multiset(pending) == Armed(isRecording)
      && (isRecording ==> buttonText == StopText)
      && (!isRecording ==> timerLabel == Prompt)
      && Replay(Stopped, calls) == (if isRecording then Running else Stopped)
    }

    /** `onCreate` and `handleEvents`: idle, nothing scheduled, the timer label
        prompting for a tap. The button's first label comes from the layout
        resource, which is not part of this model. */
    constructor (layoutButtonText: string)
      ensures Valid()
      ensures !isRecording && startTime == 0 && !cameraHeld && pending == [] && calls == []
      ensures timerLabel == Prompt && buttonText == layoutButtonText
    {
      isRecording := false;
      startTime := 0;
      timerLabel := Prompt;
      buttonText := layoutButtonText;
      cameraHeld := false;
      pending := [];
      calls := [];
    }

    /** The record button's click listener set in `handleEvents`. */
    method OnRecordClick(selfStatus: Permission -> int, now: int, tickNow: int, p: Platform)
      requires Valid()
      modifies this
      ensures Valid()
      ensures isRecording == AfterTap(old(isRecording), CheckPermissions(selfStatus))
      ensures old(isRecording) ==>
                && pending == [] && buttonText == StartText && timerLabel == Prompt
                && calls == old(calls) + StopCalls(old(cameraHeld), p)
                && cameraHeld == old(cameraHeld) && startTime == old(startTime)
      ensures !old(isRecording) && CheckPermissions(selfStatus) ==>
                && startTime == now && buttonText == StopText && timerLabel == ElapsedTime(tickNow - now)
                && pending == [(Ticker, TickerDelay), (Rollover, RolloverDelay)]
                && cameraHeld == (p.cameraOpens && !p.previewFails)
                && calls == old(calls) + PreviewCalls(p) + PrepareCalls(cameraHeld, p) + [RecorderStart]
      ensures !old(isRecording) && !CheckPermissions(selfStatus) ==>
                && calls == old(calls) + [PermissionRequest(Requested, RequestCode)]
                && pending == old(pending) && buttonText == old(buttonText) && timerLabel == old(timerLabel)
                && cameraHeld == old(cameraHeld) && startTime == old(startTime)
    {
      if isRecording {
        StopRecording(p);
      } else if CheckPermissions(selfStatus) {
        StartCameraPreview(p);
        StartRecording(now, tickNow, p);
      } else {
        RequestPermissions();
      }
    }

    /** `startCameraPreview`: a new handle from `Camera.open()` replaces the
        field; when binding the preview throws, the handle is released and
        the field cleared. */
    method StartCameraPreview(p: Platform)
      requires Valid()
      modifies this`cameraHeld, this`calls
      ensures Valid()
      ensures cameraHeld == (p.cameraOpens && !p.previewFails)
      ensures calls == old(calls) + PreviewCalls(p)
    {
      calls := calls + [CameraOpen(p.cameraOpens)];
      cameraHeld := p.cameraOpens;
      if cameraHeld {
        if p.previewFails {
          calls := calls + [CameraRelease];
          cameraHeld := false;
        } else {
          calls := calls + [CameraStartPreview];
        }
      }
      assert calls == old(calls) + PreviewCalls(p);
      ReplayAppend(Stopped, old(calls), PreviewCalls(p));
      PreviewShape(p);
      ReplayQuiet(Replay(Stopped, old(calls)), PreviewCalls(p));
    }

    /** `startRecording`: sets the flag, the button label and the start
        time, runs the ticker once (it reads the clock again, at `tickNow`),
        starts a newly prepared recorder and arms the rollover. */
    method StartRecording(now: int, tickNow: int, p: Platform)
      requires Valid() && !isRecording
      modifies this`isRecording, this`buttonText, this`startTime, this`timerLabel, this`pending, this`calls
      ensures Valid() && isRecording
      ensures startTime == now && buttonText == StopText
      ensures timerLabel == ElapsedTime(tickNow - now)
      ensures pending == [(Ticker, TickerDelay), (Rollover, RolloverDelay)]
      ensures calls == old(calls) + PrepareCalls(cameraHeld, p) + [RecorderStart]
    {
      assert pending == [] by {
        assert |multiset(pending)| == 0;
      }
      isRecording := true;
      buttonText := StopText;
      startTime := now;
      UpdateTimer(tickNow);
      PrepareRecorder(p);
      calls := calls + [RecorderStart];
      pending := pending + [(Rollover, RolloverDelay)];
      assert pending == [(Ticker, TickerDelay), (Rollover, RolloverDelay)];
      assert calls == old(calls) + (PrepareCalls(cameraHeld, p) + [RecorderStart]);
      ReplayAppend(Stopped, old(calls), PrepareCalls(cameraHeld, p) + [RecorderStart]);
      StartRuns(cameraHeld, p);
    }

    /** `stopRecording`: clears the flag and resets both labels; `stop()`
        may throw, and the `finally` block resets the recorder, relocks the
        camera and cancels every pending callback either way. */
    method StopRecording(p: Platform)
      requires Valid() && isRecording
      modifies this`isRecording, this`buttonText, this`timerLabel, this`calls, this`pending
      ensures Valid() && !isRecording
      ensures buttonText == StartText && timerLabel == Prompt && pending == []
      ensures calls == old(calls) + StopCalls(cameraHeld, p)
    {
      isRecording := false;
      buttonText := StartText;
      timerLabel := Prompt;
      calls := calls + [RecorderStop(p.stopThrows)];
      calls := calls + [RecorderReset];
      if cameraHeld {
        calls := calls + [CameraLock];
      }
      pending := [];
      assert calls == old(calls) + StopCalls(cameraHeld, p);
      ReplayAppend(Stopped, old(calls), StopCalls(cameraHeld, p));
      StopFinalizes(cameraHeld, p);
    }

    /** `updateTimer`: while recording, writes the elapsed time since
        `startTime` as `HH:MM:SS` and posts itself again after 1000 ms; once
        idle it does nothing at all. */
    method UpdateTimer(now: int)
      modifies this`timerLabel, this`pending
      ensures isRecording ==> timerLabel == ElapsedTime(now - startTime)
      ensures isRecording ==> pending == old(pending) + [(Ticker, TickerDelay)]
      ensures !isRecording ==> timerLabel == old(timerLabel) && pending == old(pending)
    {
      if isRecording {
        var elapsed := now - startTime;
        timerLabel := ElapsedTime(elapsed);
        pending := pending + [(Ticker, TickerDelay)];
      }
    }

    /** `switchFile`: while recording, stops the recorder (a throw is
        swallowed), resets it, starts a newly prepared one and posts itself
        again after 600000 ms; once idle it does nothing at all. */
    method SwitchFile(p: Platform)
      modifies this`calls, this`pending
      ensures isRecording ==> calls == old(calls) + RolloverCalls(cameraHeld, p)
      ensures isRecording ==> pending == old(pending) + [(Rollover, RolloverDelay)]
      ensures !isRecording ==> calls == old(calls) && pending == old(pending)
    {
      if isRecording {
        calls := calls + [RecorderStop(p.stopThrows)];
        calls := calls + [RecorderReset];
        PrepareRecorder(p);
        calls := calls + [RecorderStart];
        pending := pending + [(Rollover, RolloverDelay)];
      }
    }

    /** `prepareRecorder`. */
    method PrepareRecorder(p: Platform)
      modifies this`calls
      ensures calls == old(calls) + PrepareCalls(cameraHeld, p)
    {
      calls := calls + [RecorderCreate];
      if cameraHeld {
        calls := calls + [CameraUnlock];
      }
      calls := calls + [RecorderConfigure];
      if p.outputCreated {
        calls := calls + [RecorderSetOutput];
      }
      calls := calls + [RecorderSetPreviewDisplay];
      calls := calls + [RecorderPrepare(p.prepareSucceeds)];
    }

    /** `requestPermissions`: asks for the three permissions, in order, under
        request code 101. */
    method RequestPermissions()
      requires Valid()
      modifies this`calls
      ensures Valid()
      ensures calls == old(calls) + [PermissionRequest(Requested, RequestCode)]
    {
      calls := calls + [PermissionRequest(Requested, RequestCode)];
      ReplayAppend(Stopped, old(calls), [PermissionRequest(Requested, RequestCode)]);
      ReplayQuiet(Replay(Stopped, old(calls)), [PermissionRequest(Requested, RequestCode)]);
    }

    /** `onRequestPermissionsResult`: starts the camera preview when the
        answer is to request 101 and nothing was denied, and otherwise only
        shows a notice. It never starts recording. */
    method OnRequestPermissionsResult(requestCode: int, grantResults: seq<int>, p: Platform)
      requires Valid()
      modifies this`cameraHeld, this`calls
      ensures Valid()
      ensures isRecording == old(isRecording) && pending == old(pending)
      ensures PreviewOnResult(requestCode, grantResults) ==>
                cameraHeld == (p.cameraOpens && !p.previewFails) && calls == old(calls) + PreviewCalls(p)
      ensures !PreviewOnResult(requestCode, grantResults) ==>
                cameraHeld == old(cameraHeld) && calls == old(calls) + [Notice(PermissionNotice)]
    {
      if requestCode == RequestCode && AllGranted(grantResults) {
        StartCameraPreview(p);
      } else {
        calls := calls + [Notice(PermissionNotice)];
        ReplayAppend(Stopped, old(calls), [Notice(PermissionNotice)]);
        ReplayQuiet(Replay(Stopped, old(calls)), [Notice(PermissionNotice)]);
      }
    }

    /** `surfaceDestroyed`: stops the preview of a held camera and releases
        it, whatever the recording state. */
    method SurfaceDestroyed()
      requires Valid()
      modifies this`cameraHeld, this`calls
      ensures Valid() && !cameraHeld
      ensures isRecording == old(isRecording) && pending == old(pending)
      ensures calls == old(calls) + (if old(cameraHeld) then [CameraStopPreview, CameraRelease] else [])
    {
      var released: seq<Call> := [];
      if cameraHeld {
        released := [CameraStopPreview, CameraRelease];
      }
      calls := calls + released;
      cameraHeld := false;
      ReplayAppend(Stopped, old(calls), released);
      ReplayQuiet(Replay(Stopped, old(calls)), released);
    }

    /** The main looper running a due callback: the entry leaves the queue and
        its task runs. Any pending entry may be the one that is due. While
        idle nothing is pending, so a stale ticker or rollover never runs. */
    method Dispatch(i: nat, now: int, p: Platform)
      requires Valid() && i < |pending|
      modifies this`timerLabel, this`calls, this`pending
      ensures Valid() && isRecording
      ensures old(pending[i]).0 == Ticker ==>
                timerLabel == ElapsedTime(now - startTime) && calls == old(calls)
      ensures old(pending[i]).0 == Rollover ==>
                timerLabel == old(timerLabel) && calls == old(calls) + RolloverCalls(cameraHeld, p)
    {
      var entry := pending[i];
      DueEntry(pending, i, isRecording);
      pending := pending[..i] + pending[i + 1..];
      if entry.0 == Ticker {
        UpdateTimer(now);
      } else {
        SwitchFile(p);
        RolloverKeepsRunning(old(calls), cameraHeld, p);
      }
    }
  }
}
