/**
 * The detection server's bookkeeping (app.py). The computer-vision part of
 * `process_frame` is an oracle: each grabbed frame arrives as "no face" or as
 * "a face with this many eyes classified closed". What is modelled is what the
 * server does with that: the consecutive-closed-frame counter, the drowsiness
 * percentage, the `alarm_on` latch and its single ALERT log line, the
 * 100-entry log, the recording `Session`, the `is_running` start/stop state
 * machine, the clamped frame threshold and the sorted session listing.
 *
 * The module globals of app.py become the fields of one `Server` object.
 */
module Backend {
  import opened Wrappers
  import opened Text
  import opened Window

  const LogCapacity: nat := 100
  const MinThreshold: int := 5
  const MaxThreshold: int := 50
  const DefaultThreshold: int := 20

  /** One entry of `logs`. */
  datatype LogEntry = LogEntry(timestamp: string, message: string)

  /**
   * Two readings of `datetime.now()`, in the two renderings the server uses:
   * `time` is the `%H:%M:%S` reading of the status's `last_update`, `stamp`
   * the `%Y-%m-%d %H:%M:%S` reading `add_to_log` takes for the ALERT or
   * grab-failure line. The two strings are independent inputs.
   */
  datatype Clock = Clock(time: string, stamp: string)

  /** The `detection_status` dictionary served by `/status`. */
  datatype DetectionStatus = DetectionStatus(
    faceDetected: bool, eyesClosed: nat, drowsinessLevel: int, alertActive: bool, lastUpdate: string)

  const InitialStatus := DetectionStatus(false, 0, 0, false, "")

  // ---------------------------------------------------------------- threshold and level

  /** The clamp in `set_threshold`. */
  function ClampThreshold(threshold: int): (r: int)
    ensures MinThreshold <= r <= MaxThreshold
    ensures MinThreshold <= threshold <= MaxThreshold ==> r == threshold
  {
    if threshold < MinThreshold then MinThreshold
    else if threshold > MaxThreshold then MaxThreshold
    else threshold
  }

  /** Clamping keeps the order of requests, so it sends everything below 5 to 5 and above 50 to 50. */
  lemma ClampThresholdMonotone(a: int, b: int)
    requires a <= b
    ensures ClampThreshold(a) <= ClampThreshold(b)
    ensures ClampThreshold(ClampThreshold(a)) == ClampThreshold(a)
  {
  }

  lemma MulMonotone(x: int, y: int, d: nat)
    requires x <= y
    ensures x * d <= y * d
  {
  }

  lemma DivMonotone(a: nat, b: nat, d: nat)
    requires a <= b && d > 0
    ensures a / d <= b / d
  {
    var qa, qb := a / d, b / d;
    assert qa * d <= a;
    assert b < (qb + 1) * d;
    if qb + 1 <= qa {
      MulMonotone(qb + 1, qa, d);
    }
  }

  /**
   * `min(100, int((closed_frames / frame_check_threshold) * 100))`, in exact
   * arithmetic: a percentage, zero with no closed frames, full at the threshold.
   */
  function DrowsinessLevel(closedFrames: nat, threshold: int): (r: int)
    requires threshold > 0
    ensures 0 <= r <= 100
    ensures closedFrames == 0 ==> r == 0
    ensures closedFrames >= threshold ==> r == 100
  {
    var q := (closedFrames * 100) / threshold;
    if closedFrames >= threshold then
      assert closedFrames * 100 >= threshold * 100;
      DivMonotone(threshold * 100, closedFrames * 100, threshold);
      100
    else if q < 100 then q else 100
  }

  /** More consecutive closed frames never lower the percentage. */
  lemma DrowsinessLevelMonotone(c1: nat, c2: nat, threshold: int)
    requires c1 <= c2 && threshold > 0
    ensures DrowsinessLevel(c1, threshold) <= DrowsinessLevel(c2, threshold)
  {
    DivMonotone(c1 * 100, c2 * 100, threshold);
  }

  // ---------------------------------------------------------------- one frame

  /** An exception the eye resize or the classifier raised, and the clock reading of its log line. */
  datatype EyeError = EyeError(stamp: string, reason: string)

  /**
   * What the face mesh and the eye classifier report for a grabbed frame: no
   * face, or a face with the number of eyes classified closed and the errors
   * raised while classifying the others, in the order they were raised.
   */
  datatype FaceResult = NoFace | Face(eyesClosed: nat, eyeErrors: seq<EyeError>)

  /** The "Error processing eye" lines the eye loop logs, in order. */
  function FaceLog(face: FaceResult): (r: seq<LogEntry>)
    ensures face.NoFace? ==> r == []
    ensures face.Face? ==> |r| == |face.eyeErrors| && forall i :: 0 <= i < |r| ==>
      r[i].timestamp == face.eyeErrors[i].stamp && r[i].message == "Error processing eye: " + face.eyeErrors[i].reason
  {
    match face
    case NoFace => []
    case Face(_, errors) =>
      seq(|errors|, i requires 0 <= i < |errors| => LogEntry(errors[i].stamp, "Error processing eye: " + errors[i].reason))
  }

  /** `cap.read()` either fails or yields a frame. */
  datatype Frame = GrabFailed | Grabbed(face: FaceResult)

  /** The two globals `closed_frames` and `alarm_on`. */
  datatype Tracker = Tracker(closedFrames: nat, alarmOn: bool)

  /** What one analysed frame leaves behind. */
  datatype FrameOutcome = FrameOutcome(
    tracker: Tracker, eyesClosed: nat, level: int, alertActive: bool, raisesAlert: bool)

  /** The counter, level and alarm updates of `process_frame` for one grabbed frame. */
  function Observe(t: Tracker, face: FaceResult, threshold: int): (r: FrameOutcome)
    requires threshold > 0
    ensures r.tracker.closedFrames == if face.Face? && face.eyesClosed == 2 then t.closedFrames + 1 else 0
    ensures r.eyesClosed == if face.Face? then face.eyesClosed else 0
    ensures 0 <= r.level <= 100
    ensures r.tracker.closedFrames == 0 ==> r.level == 0
    ensures face.Face? ==> r.level == DrowsinessLevel(r.tracker.closedFrames, threshold)
    ensures r.alertActive <==> face.Face? && r.tracker.closedFrames >= threshold
    ensures r.tracker.alarmOn == r.alertActive
    ensures r.raisesAlert <==> r.alertActive && !t.alarmOn
  {
    match face
    case Face(eyes, _) =>
      var closed := if eyes == 2 then t.closedFrames + 1 else 0;
      var level := DrowsinessLevel(closed, threshold);
      if closed >= threshold then
        FrameOutcome(Tracker(closed, true), eyes, level, true, !t.alarmOn)
      else
        FrameOutcome(Tracker(closed, false), eyes, level, false, false)
    case NoFace =>
      FrameOutcome(Tracker(0, false), 0, 0, false, false)
  }

  /** Successive grabbed frames, each starting from the previous frame's counters. */
  function Observations(t: Tracker, faces: seq<FaceResult>, threshold: int): (r: seq<FrameOutcome>)
    requires threshold > 0
    ensures |r| == |faces|
    decreases |faces|
  {
    if faces == [] then []
    else
      var o := Observe(t, faces[0], threshold);
      [o] + Observations(o.tracker, faces[1..], threshold)
  }

  /** Whether the alert was active before frame `i`: the latch, then the previous frame. */
  function ActiveBefore(t: Tracker, outcomes: seq<FrameOutcome>, i: nat): bool
    requires i <= |outcomes|
  {
    if i == 0 then t.alarmOn else outcomes[i - 1].alertActive
  }

  /** Over any run of frames, the ALERT line is written exactly on a rising edge of the alert. */
  lemma {:induction false} AlertOnRisingEdge(t: Tracker, faces: seq<FaceResult>, threshold: int, i: nat)
    requires threshold > 0 && i < |faces|
    ensures var r := Observations(t, faces, threshold);
      r[i].raisesAlert <==> r[i].alertActive && !ActiveBefore(t, r, i)
    decreases i
  {
    if i > 0 {
      var o := Observe(t, faces[0], threshold);
      AlertOnRisingEdge(o.tracker, faces[1..], threshold, i - 1);
      var r, r' := Observations(t, faces, threshold), Observations(o.tracker, faces[1..], threshold);
      assert r[i] == r'[i - 1];
      assert ActiveBefore(o.tracker, r', i - 1) == ActiveBefore(t, r, i);
    }
  }

  /**
   * Eyes held closed from a consistent latch: frame `i` counts `c + i + 1`
   * closed frames and writes the ALERT line exactly when that count reaches
   * the threshold, so a sustained closure is reported once.
   */
  lemma {:induction false} SustainedClosure(c: nat, n: nat, threshold: int, i: nat)
    requires threshold > 0 && i < n
    ensures var r := Observations(Tracker(c, c >= threshold), seq(n, _ => Face(2, [])), threshold);
      && r[i].tracker.closedFrames == c + i + 1
      && (r[i].raisesAlert <==> c + i + 1 == threshold)
    decreases i
  {
    var faces := seq(n, _ => Face(2, []));
    var t := Tracker(c, c >= threshold);
    var o := Observe(t, faces[0], threshold);
    if i > 0 {
      SustainedClosure(c + 1, n - 1, threshold, i - 1);
      assert faces[1..] == seq(n - 1, _ => Face(2, []));
      assert o.tracker == Tracker(c + 1, c + 1 >= threshold);
      assert Observations(t, faces, threshold)[i] == Observations(o.tracker, faces[1..], threshold)[i - 1];
    }
  }

  // ---------------------------------------------------------------- sessions

  /** One element of `Session.data`. */
  datatype FrameRecord = FrameRecord(
    timestamp: string, faceDetected: bool, eyesClosed: nat, drowsinessLevel: int, alertActive: bool)

  function RecordOf(status: DetectionStatus, timestamp: string): FrameRecord
  {
    FrameRecord(timestamp, status.faceDetected, status.eyesClosed, status.drowsinessLevel, status.alertActive)
  }

  /** A recorded detection run. */
  class Session {
    var startTime: string
    var sessionId: string
    var data: seq<FrameRecord>
    var isRecording: bool

    /** `startTime` is the ISO form of `utcnow()`, `sessionId` its `%Y%m%d_%H%M%S` form. */
    constructor(startTime: string, sessionId: string)
      ensures this.startTime == startTime && this.sessionId == sessionId
      ensures data == [] && isRecording
    {
      this.startTime := startTime;
      this.sessionId := sessionId;
      data := [];
      isRecording := true;
    }

    /** `add_frame_data`: one record while recording, nothing otherwise. */
    method AddFrameData(status: DetectionStatus, timestamp: string)
      modifies this`data
      ensures data == if isRecording then old(data) + [RecordOf(status, timestamp)] else old(data)
    {
      if isRecording {
        data := data + [RecordOf(status, timestamp)];
      }
    }

    /** `stop`: recording ends for good. */
    method Stop()
      modifies this`isRecording
      ensures !isRecording
    {
      isRecording := false;
    }
  }

  /** After `stop()`, a later `add_frame_data` records nothing. */
  method StopThenAdd(s: Session, status: DetectionStatus, timestamp: string)
    modifies s
    ensures !s.isRecording && s.data == old(s.data)
  {
    s.Stop();
    s.AddFrameData(status, timestamp);
  }

  // ---------------------------------------------------------------- the server

  /** `cap`: no capture object, or one that did or did not open. */
  datatype Capture = NoCapture | Capture(isOpened: bool)

  /** The JSON answer of `/start_detection`. */
  datatype StartReply = Started(sessionId: string) | AlreadyRunning | StartError(message: string)

  /** The JSON answer of `/stop_detection`. */
  datatype StopReply = Stopped | NotRunning

  /** `model_paths`, tried in order. */
  const ModelPaths: seq<string> := ["model/drowsiness_model.keras", "model/drowsiness_model.h5"]

  /** The first of `paths` that exists. */
  function FirstExisting(paths: seq<string>, existing: set<string>): (r: Option<string>)
    ensures r.None? <==> forall p :: p in paths ==> p !in existing
    ensures r.Some? ==> r.value in existing && exists i ::
      0 <= i < |paths| && paths[i] == r.value && forall j :: 0 <= j < i ==> paths[j] !in existing
    decreases |paths|
  {
    if paths == [] then None
    else if paths[0] in existing then Some(paths[0])
    else FirstExisting(paths[1..], existing)
  }

  /** The search loop of `load_detection_model`: the first existing model file, if any. */
  method FindModelPath(existing: set<string>) returns (path: Option<string>)
    ensures path == FirstExisting(ModelPaths, existing)
    ensures path.Some? ==> path.value in ModelPaths && path.value in existing
    ensures path.None? <==> forall p :: p in ModelPaths ==> p !in existing
  {
    path := None;
    var i := 0;
    while i < |ModelPaths|
      invariant 0 <= i <= |ModelPaths|
      invariant path.None? ==> FirstExisting(ModelPaths, existing) == FirstExisting(ModelPaths[i..], existing)
      invariant path.None? ==> forall j :: 0 <= j < i ==> ModelPaths[j] !in existing
      invariant path.Some? ==> path == FirstExisting(ModelPaths, existing) && path.value in existing && path.value in ModelPaths
    {
      if ModelPaths[i] in existing {
        path := Some(ModelPaths[i]);
        assert ModelPaths[i..][0] == ModelPaths[i];
        break;
      }
      assert ModelPaths[i..][1..] == ModelPaths[i + 1..];
      i := i + 1;
    }
  }

  /**
   * The log lines `load_detection_model` writes, given the file found and the
   * loader's error: `before` is the clock reading taken before `load_model`,
   * `after` the one taken after it.
   */
  function ModelLoadLog(path: Option<string>, loadError: Option<string>, before: string, after: string): (r: seq<LogEntry>)
    ensures |r| == if path.Some? then 2 else 1
    ensures r[0].timestamp == before
    ensures path.None? ==> r[0].message == "ERROR: Model file not found!"
    ensures path.Some? ==> r[0].message == "Loading model from: " + path.value && r[1].timestamp == after
    ensures path.Some? && loadError.None? ==> r[1].message == "Model loaded successfully!"
    ensures path.Some? && loadError.Some? ==> r[1].message == "Error loading model: " + loadError.value
  {
    match path
    case None => [LogEntry(before, "ERROR: Model file not found!")]
    case Some(p) =>
      [LogEntry(before, "Loading model from: " + p),
       LogEntry(after, if loadError.None? then "Model loaded successfully!" else "Error loading model: " + loadError.value)]
  }

  class Server {
    var logs: seq<LogEntry>
    var frameCheckThreshold: int
    var closedFrames: nat
    var alarmOn: bool
    var status: DetectionStatus
    var isRunning: bool
    var currentSession: Session?
    var modelLoaded: bool
    var cap: Capture

    ghost predicate Valid()
      reads this
    {
      && |logs| <= LogCapacity
      && MinThreshold <= frameCheckThreshold <= MaxThreshold
      && 0 <= status.drowsinessLevel <= 100
    }

    /** The module-level initial values. */
    constructor()
      ensures Valid()
      ensures logs == [] && frameCheckThreshold == DefaultThreshold && closedFrames == 0 && !alarmOn
      ensures status == InitialStatus && !isRunning && currentSession == null && !modelLoaded && cap == NoCapture
    {
      logs := [];
      frameCheckThreshold := DefaultThreshold;
      closedFrames := 0;
      alarmOn := false;
      status := InitialStatus;
      isRunning := false;
      currentSession := null;
      modelLoaded := false;
      cap := NoCapture;
    }

    /** `add_to_log`: append, then drop the oldest entry once over 100. */
    method AddToLog(stamp: string, message: string)
      requires Valid()
      modifies this`logs
      ensures Valid()
      ensures logs == Slide(old(logs), LogEntry(stamp, message), LogCapacity)
    {
      logs := logs + [LogEntry(stamp, message)];
      if |logs| > LogCapacity {
        logs := logs[1..];
      }
    }

    /** `add_to_log` for several entries in a row, each with its own clock reading. */
    method AddAllToLog(entries: seq<LogEntry>)
      requires Valid()
      modifies this`logs
      ensures Valid()
      ensures logs == SlideAll(old(logs), entries, LogCapacity)
    {
      var i := 0;
      while i < |entries|
        invariant 0 <= i <= |entries| && Valid()
        invariant SlideAll(old(logs), entries, LogCapacity) == SlideAll(logs, entries[i..], LogCapacity)
      {
        assert entries[i..][0] == entries[i];
        assert entries[i..][1..] == entries[i + 1..];
        AddToLog(entries[i].timestamp, entries[i].message);
        i := i + 1;
      }
    }

    /** `load_detection_model`, with the file system and the loader's failure as inputs. */
    method LoadDetectionModel(existing: set<string>, loadError: Option<string>, before: string, after: string) returns (ok: bool)
      requires Valid()
      modifies this`logs, this`modelLoaded
      ensures Valid()
      ensures ok <==> FirstExisting(ModelPaths, existing).Some? && loadError.None?
      ensures modelLoaded == (old(modelLoaded) || ok)
      ensures logs == SlideAll(old(logs), ModelLoadLog(FirstExisting(ModelPaths, existing), loadError, before, after), LogCapacity)
    {
      var path := FindModelPath(existing);
      if path.None? {
        AddAllToLog([LogEntry(before, "ERROR: Model file not found!")]);
        return false;
      }
      AddAllToLog(ModelLoadLog(path, loadError, before, after));
      ok := loadError.None?;
      if ok {
        modelLoaded := true;
      }
    }

    /** The counter, level and alarm bookkeeping of `process_frame`. */
    method ProcessFrame(frame: Frame, clock: Clock)
      requires Valid()
      modifies this`logs, this`closedFrames, this`alarmOn, this`status
      ensures Valid()
      ensures cap != Capture(true) ==>
        logs == old(logs) && closedFrames == old(closedFrames) && alarmOn == old(alarmOn) && status == old(status)
      ensures cap == Capture(true) && frame.GrabFailed? ==>
        && logs == Slide(old(logs), LogEntry(clock.stamp, "Failed to grab frame from webcam"), LogCapacity)
        && closedFrames == old(closedFrames) && alarmOn == old(alarmOn) && status == old(status)
      ensures cap == Capture(true) && frame.Grabbed? ==>
        var o := Observe(Tracker(old(closedFrames), old(alarmOn)), frame.face, frameCheckThreshold);
        && closedFrames == o.tracker.closedFrames && alarmOn == o.tracker.alarmOn
        && status == DetectionStatus(frame.face.Face?, o.eyesClosed, o.level, o.alertActive, clock.time)
        && var eyeLog := SlideAll(old(logs), FaceLog(frame.face), LogCapacity);
           logs == if o.raisesAlert then Slide(eyeLog, LogEntry(clock.stamp, "ALERT: Drowsiness detected!"), LogCapacity) else eyeLog
    {
      if cap != Capture(true) {
        return;
      }
      if frame.GrabFailed? {
        AddToLog(clock.stamp, "Failed to grab frame from webcam");
        return;
      }
      var face := frame.face;
      status := status.(faceDetected := face.Face?, lastUpdate := clock.time);
      if face.Face? {
        AddAllToLog(FaceLog(face));
        var eyesClosed := face.eyesClosed;
        status := status.(eyesClosed := eyesClosed);
        if eyesClosed == 2 {
          closedFrames := closedFrames + 1;
        } else {
          closedFrames := 0;
        }
        status := status.(drowsinessLevel := DrowsinessLevel(closedFrames, frameCheckThreshold));
        if closedFrames >= frameCheckThreshold {
          status := status.(alertActive := true);
          if !alarmOn {
            alarmOn := true;
            AddToLog(clock.stamp, "ALERT: Drowsiness detected!");
          }
        } else {
          alarmOn := false;
          status := status.(alertActive := false);
        }
      } else {
        status := status.(eyesClosed := 0, drowsinessLevel := 0, alertActive := false);
        closedFrames := 0;
        alarmOn := false;
      }
    }

    /** The prologue of `run_detection_thread`. */
    method DetectionThreadStarted(stamp: string)
      requires Valid()
      modifies this`logs, this`closedFrames
      ensures Valid()
      ensures closedFrames == 0
      ensures logs == Slide(old(logs), LogEntry(stamp, "Detection thread started"), LogCapacity)
    {
      AddToLog(stamp, "Detection thread started");
      closedFrames := 0;
    }

    /** The epilogue of `run_detection_thread`, once `is_running` has been cleared. */
    method DetectionThreadStopped(stamp: string)
      requires Valid()
      modifies this`logs
      ensures Valid()
      ensures logs == Slide(old(logs), LogEntry(stamp, "Detection thread stopped"), LogCapacity)
    {
      AddToLog(stamp, "Detection thread stopped");
    }

    /** `start_detection`, with the model files, the loader's error and the webcam's answer as inputs. */
    method StartDetection(existing: set<string>, loadError: Option<string>, webcamOpens: bool,
                          before: string, after: string, sessionStart: string, sessionId: string) returns (reply: StartReply)
      requires Valid()
      modifies this
      ensures Valid()
      ensures old(isRunning) ==> reply == AlreadyRunning && unchanged(this)
      ensures !old(isRunning) ==>
        var modelOk := old(modelLoaded) || (FirstExisting(ModelPaths, existing).Some? && loadError.None?);
        var camOk := old(cap).Capture? || webcamOpens;
        && (reply.Started? <==> modelOk && camOk)
        && (!modelOk ==> reply == StartError("Failed to load model") && cap == old(cap))
        && (modelOk && !camOk ==> reply == StartError("Could not open webcam") && cap == Capture(false))
        && (modelOk && camOk ==> cap == if old(cap).Capture? then old(cap) else Capture(true))
        && modelLoaded == modelOk
        && logs == if old(modelLoaded) then old(logs) else
             SlideAll(old(logs), ModelLoadLog(FirstExisting(ModelPaths, existing), loadError, before, after), LogCapacity)
      ensures reply.Started? ==>
        && isRunning && reply.sessionId == sessionId && currentSession != null && fresh(currentSession)
        && currentSession.sessionId == sessionId && currentSession.startTime == sessionStart
        && currentSession.data == [] && currentSession.isRecording
      ensures !reply.Started? ==> isRunning == old(isRunning) && currentSession == old(currentSession)
      ensures closedFrames == old(closedFrames) && alarmOn == old(alarmOn) && status == old(status)
      ensures frameCheckThreshold == old(frameCheckThreshold)
    {
      if isRunning {
        return AlreadyRunning;
      }
      if !modelLoaded {
        var ok := LoadDetectionModel(existing, loadError, before, after);
        if !ok {
          return StartError("Failed to load model");
        }
      }
      if cap.NoCapture? {
        cap := Capture(webcamOpens);
        if !webcamOpens {
          return StartError("Could not open webcam");
        }
      }
      isRunning := true;
      currentSession := new Session(sessionStart, sessionId);
      reply := Started(sessionId);
    }

    /** `stop_detection`: stop and keep the session, release the camera. */
    method StopDetection() returns (reply: StopReply)
      requires Valid()
      modifies this, currentSession
      ensures Valid()
      ensures old(isRunning) <==> reply == Stopped
      ensures !old(isRunning) ==> unchanged(this) && (old(currentSession) != null ==> unchanged(old(currentSession)))
      ensures old(isRunning) ==>
        && !isRunning && cap == NoCapture && currentSession == old(currentSession)
        && (currentSession != null ==>
              && !currentSession.isRecording && currentSession.data == old(currentSession.data)
              && currentSession.sessionId == old(currentSession.sessionId)
              && currentSession.startTime == old(currentSession.startTime))
      ensures logs == old(logs) && closedFrames == old(closedFrames) && alarmOn == old(alarmOn) && status == old(status)
      ensures frameCheckThreshold == old(frameCheckThreshold) && modelLoaded == old(modelLoaded)
    {
      if !isRunning {
        return NotRunning;
      }
      isRunning := false;
      if currentSession != null {
        currentSession.Stop();
      }
      if cap != NoCapture {
        cap := NoCapture;
      }
      reply := Stopped;
    }

    /** `set_threshold`: Flask's `<int:...>` converter only passes non-negative integers. */
    method SetThreshold(threshold: nat, stamp: string) returns (applied: int)
      requires Valid()
      modifies this`frameCheckThreshold, this`logs
      ensures Valid()
      ensures applied == ClampThreshold(threshold) && frameCheckThreshold == applied
      ensures logs == Slide(old(logs), LogEntry(stamp, "Drowsiness threshold set to " + IntToString(applied)), LogCapacity)
    {
      applied := threshold;
      if applied < MinThreshold {
        applied := MinThreshold;
      } else if applied > MaxThreshold {
        applied := MaxThreshold;
      }
      frameCheckThreshold := applied;
      AddToLog(stamp, "Drowsiness threshold set to " + IntToString(applied));
    }
  }

  // ---------------------------------------------------------------- listing sessions

  /** The JSON a session file holds. */
  datatype SessionFile = SessionFile(sessionId: string, startTime: string, frames: seq<FrameRecord>)

  /** A directory entry of `SESSIONS_DIR` with its decoded contents. */
  datatype DirEntry = DirEntry(filename: string, content: SessionFile)

  /** One element of the `/sessions` answer. */
  datatype SessionSummary = SessionSummary(sessionId: string, startTime: string, frameCount: nat)

  function Summarize(f: SessionFile): SessionSummary
  {
    SessionSummary(f.sessionId, f.startTime, |f.frames|)
  }

  /** The summaries of the `.json` entries, in directory order. */
  function Summaries(entries: seq<DirEntry>): (r: seq<SessionSummary>)
    ensures |r| <= |entries|
    decreases |entries|
  {
    if entries == [] then []
    else
      var e := entries[|entries| - 1];
      Summaries(entries[..|entries| - 1]) + (if EndsWith(e.filename, ".json") then [Summarize(e.content)] else [])
  }

  /** A summary is listed exactly when it comes from a `.json` entry, with that file's frame count. */
  lemma {:induction false} SummariesMembers(entries: seq<DirEntry>, x: SessionSummary)
    ensures x in Summaries(entries) <==>
      exists e :: e in entries && EndsWith(e.filename, ".json") && x == Summarize(e.content)
    decreases |entries|
  {
    if entries != [] {
      var init, e := entries[..|entries| - 1], entries[|entries| - 1];
      SummariesMembers(init, x);
      assert entries == init + [e];
      if x in Summaries(entries) && x !in Summaries(init) {
        assert EndsWith(e.filename, ".json") && x == Summarize(e.content);
      }
      forall e' | e' in entries && EndsWith(e'.filename, ".json") && x == Summarize(e'.content)
        ensures x in Summaries(entries)
      {
        if e' != e {
          assert e' in init;
        }
      }
    }
  }

  /** Newest first by `start_time`, compared as strings. */
  ghost predicate SortedDesc(s: seq<SessionSummary>)
  {
    forall i, j :: 0 <= i < j < |s| ==> LexLe(s[j].startTime, s[i].startTime)
  }

  /** Put `x` before the first element whose start time is not later than its own. */
  function InsertDesc(x: SessionSummary, s: seq<SessionSummary>): (r: seq<SessionSummary>)
    ensures multiset(r) == multiset(s) + multiset{x}
    decreases |s|
  {
    if s == [] || LexLe(s[0].startTime, x.startTime) then [x] + s
    else
      assert s == [s[0]] + s[1..];
      [s[0]] + InsertDesc(x, s[1..])
  }

  lemma {:induction false} InsertDescSorted(x: SessionSummary, s: seq<SessionSummary>)
    requires SortedDesc(s)
    ensures SortedDesc(InsertDesc(x, s))
    decreases |s|
  {
    if s == [] {
    } else if LexLe(s[0].startTime, x.startTime) {
      forall j | 0 < j < |s| ensures LexLe(s[j].startTime, x.startTime) {
        LexLeTransitive(s[j].startTime, s[0].startTime, x.startTime);
      }
    } else {
      LexLeTotal(s[0].startTime, x.startTime);
      InsertDescSorted(x, s[1..]);
      var rest := InsertDesc(x, s[1..]);
      forall k | 0 <= k < |rest| ensures LexLe(rest[k].startTime, s[0].startTime) {
        assert rest[k] in multiset(rest);
        if rest[k] != x {
          assert rest[k] in multiset(s[1..]);
          var idx :| 0 <= idx < |s[1..]| && s[1..][idx] == rest[k];
          assert s[idx + 1] == rest[k];
        }
      }
    }
  }

  /** The `sorted(sessions, key=start_time, reverse=True)` of `list_sessions`. */
  function SortDesc(s: seq<SessionSummary>): (r: seq<SessionSummary>)
    ensures multiset(r) == multiset(s)
    ensures SortedDesc(r)
    decreases |s|
  {
    if s == [] then []
    else
      assert s == [s[0]] + s[1..];
      InsertDescSorted(s[0], SortDesc(s[1..]));
      InsertDesc(s[0], SortDesc(s[1..]))
  }

  /**
   * `list_sessions`: every `.json` session file, newest first, each with the
   * number of frames it holds; nothing when the directory does not exist.
   */
  method ListSessions(dir: Option<seq<DirEntry>>) returns (sessions: seq<SessionSummary>)
    ensures dir.None? ==> sessions == []
    ensures dir.Some? ==> multiset(sessions) == multiset(Summaries(dir.value))
    ensures SortedDesc(sessions)
  {
    if dir.None? {
      return [];
    }
    var entries := dir.value;
    var found: seq<SessionSummary> := [];
    for i := 0 to |entries|
      invariant found == Summaries(entries[..i])
    {
      assert entries[..i + 1][..i] == entries[..i];
      if EndsWith(entries[i].filename, ".json") {
        found := found + [Summarize(entries[i].content)];
      }
    }
    assert entries[..|entries|] == entries;
    sessions := SortDesc(found);
  }
}
