/**
 * The posture monitor: a hidden component whose effect schedules one
 * posture check per work session, when the remaining time reaches a fixed
 * trigger point, and whose check captures one camera frame, sends it for
 * analysis and turns the answer into a logged event, a reminder, a cue and
 * speech. The camera and the analysis request are abstract outcomes.
 */
module PostureMonitor {
  import opened Text
  import Config
  import TimerStore
  import HealthStore
  import Storage
  import Sound

  // ---------------------------------------------------------------------
  // The one-shot trigger

  /** The remaining time at which the check is scheduled: the work duration
      less the check interval, clamped at 0. */
  function TriggerPoint(workDuration: int, checkInterval: int): (t: int)
    ensures t >= 0 && t >= workDuration - checkInterval
    ensures t == 0 || t == workDuration - checkInterval
  {
    if workDuration - checkInterval > 0 then workDuration - checkInterval else 0
  }

  const TriggerTime: int := TriggerPoint(Config.WorkDuration, Config.PostureCheckInterval)

  /** With the default configuration the check comes 10 minutes into a
      25-minute session, at 900 seconds remaining. */
  lemma DefaultTriggerTime()
    ensures Config.PostureCheckInterval < Config.WorkDuration
    ensures TriggerTime == 900
  {
  }

  /** The state the effect keeps between runs: the remembered session id
      and whether the check for it has been scheduled. */
  datatype Latch = Latch(previousSessionId: Option<string>, hasChecked: bool)

  const Unarmed: Latch := Latch(None, false)

  /** A truthy session id (present and not the empty string) other than the
      remembered one re-arms the latch. */
  predicate Rearms(l: Latch, currentSessionId: Option<string>)
  {
    currentSessionId.Some? && currentSessionId.value != "" && currentSessionId != l.previousSessionId
  }

  /** The guard: checking enabled, the timer running, a work session. */
  predicate Armed(enabled: bool, s: TimerStore.TimerState)
  {
    enabled && s.status == TimerStore.Running && s.sessionType == TimerStore.Work
  }

  /** One run of the effect on the latch: the new latch and whether a check
      is scheduled. */
  function Step(l: Latch, enabled: bool, s: TimerStore.TimerState): (r: (Latch, bool))
    ensures r.0.previousSessionId == if Rearms(l, s.currentSessionId) then s.currentSessionId else l.previousSessionId
    ensures r.1 <==> Armed(enabled, s) && s.timeRemaining == TriggerTime && (Rearms(l, s.currentSessionId) || !l.hasChecked)
    ensures r.0.hasChecked <==> r.1 || (l.hasChecked && !Rearms(l, s.currentSessionId))
  {
    var l' := if Rearms(l, s.currentSessionId) then Latch(s.currentSessionId, false) else l;
    if Armed(enabled, s) && s.timeRemaining == TriggerTime && !l'.hasChecked then (l'.(hasChecked := true), true)
    else (l', false)
  }

  /** The number of checks scheduled over successive runs of the effect. */
  function Scheduled(l: Latch, enabled: bool, run: seq<TimerStore.TimerState>): nat
    decreases |run|
  {
    if run == [] then 0
    else
      var (l', fired) := Step(l, enabled, run[0]);
      (if fired then 1 else 0) + Scheduled(l', enabled, run[1..])
  }

  /** A run whose session id is falsy (absent or the empty string) never
      re-arms: a set latch stays as it is and schedules nothing. */
  lemma FalsyIdKeepsLatch(l: Latch, enabled: bool, s: TimerStore.TimerState)
    requires s.currentSessionId == None || s.currentSessionId == Some("")
    requires l.hasChecked
    ensures Step(l, enabled, s) == (l, false)
  {
  }

  /** Once the latch is set and `id` would not re-arm it (it is the
      remembered id, or the empty string), no further run with that session
      id schedules a check. */
  lemma {:induction false} CheckedStaysQuiet(l: Latch, enabled: bool, run: seq<TimerStore.TimerState>, id: string)
    requires l.hasChecked && !Rearms(l, Some(id))
    requires forall k :: 0 <= k < |run| ==> run[k].currentSessionId == Some(id)
    ensures Scheduled(l, enabled, run) == 0
    decreases |run|
  {
    if run != [] {
      CheckedStaysQuiet(Step(l, enabled, run[0]).0, enabled, run[1..], id);
    }
  }

  /** At most one check is scheduled per session id: over any runs of the
      effect that all see the same session id, from any latch. */
  lemma {:induction false} AtMostOncePerSession(l: Latch, enabled: bool, run: seq<TimerStore.TimerState>, id: string)
    requires forall k :: 0 <= k < |run| ==> run[k].currentSessionId == Some(id)
    ensures Scheduled(l, enabled, run) <= 1
    decreases |run|
  {
    if run != [] {
      var (l', fired) := Step(l, enabled, run[0]);
      assert !Rearms(l', Some(id));
      if fired {
        CheckedStaysQuiet(l', enabled, run[1..], id);
      } else if l'.hasChecked {
        CheckedStaysQuiet(l', enabled, run[1..], id);
      } else {
        AtMostOncePerSession(l', enabled, run[1..], id);
      }
    }
  }

  // ---------------------------------------------------------------------
  // The check

  /** How the camera capture ends: the camera cannot be opened; it opens
      but a later step throws; it yields no frame; it yields a frame. */
  datatype Capture = NoStream | FailsAfterOpen | NoFrame | Frame

  /** How the analysis request ends: it throws (network or decoding); a
      non-ok status; an ok answer with its analysis text and severity. */
  datatype Response = Threw | NotOk(status: int) | Ok(analysis: string, severity: string)

  datatype StreamEvent = Opened | Stopped

  /** The check ends with a reminder. */
  predicate Succeeds(c: Capture, r: Response)
  {
    c == Frame && r.Ok?
  }

  /** The camera statuses the check sets, in order. A capture that throws
      sets the error status inside the capture and again in the check. */
  function CameraPath(c: Capture, r: Response): (p: seq<HealthStore.CameraStatus>)
    ensures |p| >= 2 && p[0] == HealthStore.Capturing
    ensures p[|p| - 1] == if Succeeds(c, r) then HealthStore.CameraIdle else HealthStore.CameraError
    ensures Succeeds(c, r) ==> p == [HealthStore.Capturing, HealthStore.Processing, HealthStore.CameraIdle]
    ensures HealthStore.Processing in p <==> c == Frame
  {
    match c
    case NoStream => [HealthStore.Capturing, HealthStore.CameraError, HealthStore.CameraError]
    case FailsAfterOpen => [HealthStore.Capturing, HealthStore.CameraError, HealthStore.CameraError]
    case NoFrame => [HealthStore.Capturing, HealthStore.CameraError]
    case Frame =>
      [HealthStore.Capturing, HealthStore.Processing]
      + (if r.Ok? then [HealthStore.CameraIdle] else [HealthStore.CameraError])
  }

  /** The path as the capture's part followed by the rest. */
  lemma CameraPathSplit(c: Capture, r: Response)
    ensures CameraPath(c, r) ==
      [HealthStore.Capturing] + (if c == NoStream || c == FailsAfterOpen then [HealthStore.CameraError] else [])
      + (if c == Frame then [HealthStore.Processing, if r.Ok? then HealthStore.CameraIdle else HealthStore.CameraError]
         else [HealthStore.CameraError])
  {
  }

  /** The cue for a severity: a warning for "bad", the good cue for "good",
      and none otherwise. */
  function SeverityCue(severity: string): (cs: seq<Sound.Cue>)
    ensures |cs| <= 1
    ensures Sound.PostureWarning in cs <==> severity == "bad"
    ensures Sound.PostureGood in cs <==> severity == "good"
  {
    if severity == "bad" then [Sound.PostureWarning]
    else if severity == "good" then [Sound.PostureGood]
    else []
  }

  class Monitor {
    const enabled: bool
    const health: HealthStore.Store
    const db: Storage.RecordStore
    const sound: Sound.SoundManager
    var previousSessionId: Option<string>
    var hasChecked: bool
    /** A check is scheduled and not yet cancelled. */
    var pending: bool
    /** The opening and stopping of camera streams, in order. */
    var streams: seq<StreamEvent>

    function Latched(): Latch
      reads this
    {
      Latch(previousSessionId, hasChecked)
    }

    constructor (enabled: bool, health: HealthStore.Store, db: Storage.RecordStore, sound: Sound.SoundManager)
      ensures this.enabled == enabled && this.health == health && this.db == db && this.sound == sound
      ensures Latched() == Unarmed && !pending && streams == []
    {
      this.enabled := enabled;
      this.health := health;
      this.db := db;
      this.sound := sound;
      previousSessionId := None;
      hasChecked := false;
      pending := false;
      streams := [];
    }

    /** One run of the effect for the timer state `s`, after the previous
        run's cleanup: re-arms on a new session id; outside a running work
        session (or with checking off) leaves no check pending; at the
        trigger point, if not yet checked, sets the latch and schedules the
        check. A check still pending from an earlier run is cancelled
        either way, so the one pending afterwards is the one scheduled now. */
    method Evaluate(s: TimerStore.TimerState) returns (scheduled: bool)
      modifies this
      ensures (Latched(), scheduled) == Step(old(Latched()), enabled, s)
      ensures pending == scheduled
      ensures scheduled ==> Armed(enabled, s)
      ensures streams == old(streams)
    {
      // The cleanup a guarded run leaves behind runs before the next run.
      if pending {
        pending := false;
      }
      if s.currentSessionId.Some? && s.currentSessionId.value != "" && s.currentSessionId != previousSessionId {
        hasChecked := false;
        previousSessionId := s.currentSessionId;
      }
      scheduled := false;
      if !enabled || s.status != TimerStore.Running || s.sessionType != TimerStore.Work {
        return;
      }
      var triggerTime := TriggerPoint(Config.WorkDuration, Config.PostureCheckInterval);
      if s.timeRemaining == triggerTime && !hasChecked {
        hasChecked := true;
        pending := true;
        scheduled := true;
      }
    }

    /** `captureImageOnDemand`: the capturing status, the error status when
        a step throws, and a stream that is stopped whenever it was opened. */
    method CaptureImage(c: Capture) returns (frame: bool)
      modifies this, health
      ensures frame <==> c == Frame
      ensures health.cameraLog == old(health.cameraLog) +
        [HealthStore.Capturing] + (if c == NoStream || c == FailsAfterOpen then [HealthStore.CameraError] else [])
      ensures health.State() == old(health.State()).(cameraStatus := health.cameraLog[|health.cameraLog| - 1])
      ensures streams == old(streams) + if c == NoStream then [] else [Opened, Stopped]
      ensures Latched() == old(Latched()) && pending == old(pending)
    {
      var open := false;
      health.SetCameraStatus(HealthStore.Capturing);
      if c == NoStream {
        health.SetCameraStatus(HealthStore.CameraError);
        frame := false;
      } else {
        streams := streams + [Opened];
        open := true;
        if c == FailsAfterOpen {
          health.SetCameraStatus(HealthStore.CameraError);
        }
        frame := c == Frame;
      }
      if open {
        streams := streams + [Stopped];
      }
    }

    /** `checkPosture`, with `id` the fresh id of the logged event and
        `nowIso`, `nowMs` the clock. Every failure ends in the error status
        with nothing logged, shown, played or spoken; success logs the
        analysis, plays the severity's cue, shows the analysis as a posture
        reminder, speaks it and ends in the idle status. */
    method CheckPosture(c: Capture, r: Response, id: string, nowIso: string, nowMs: int)
      modifies this, health, db, sound
      ensures health.cameraLog == old(health.cameraLog) + CameraPath(c, r)
      ensures health.State() == old(health.State()).(
        activeReminders := old(health.activeReminders) +
          (if Succeeds(c, r) then [HealthStore.Reminder(id, HealthStore.Posture, r.analysis, nowMs)] else []),
        cameraStatus := if Succeeds(c, r) then HealthStore.CameraIdle else HealthStore.CameraError)
      ensures db.healthEvents == old(db.healthEvents) +
        if Succeeds(c, r) && db.hasWindow then [Storage.HealthEvent(id, "posture", nowIso, false, Some(r.analysis), nowIso)] else []
      ensures db.sessions == old(db.sessions) && db.aiMemory == old(db.aiMemory)
      ensures sound.cues == old(sound.cues) + if Succeeds(c, r) && sound.hasAudio then SeverityCue(r.severity) else []
      ensures sound.speech == old(sound.speech) +
        if Succeeds(c, r) && sound.hasSpeech then Sound.SpeakStart(r.analysis, Sound.DefaultLang, old(sound.paused)) else []
      ensures streams == old(streams) + if c == NoStream then [] else [Opened, Stopped]
      ensures Latched() == old(Latched()) && pending == old(pending)
    {
      CameraPathSplit(c, r);
      var frame := CaptureImage(c);
      if !frame {
        health.SetCameraStatus(HealthStore.CameraError);
        return;
      }
      Process(r, id, nowIso, nowMs);
    }

    /** The part of `checkPosture` after a frame was captured: the request
        and, if it succeeds, the report. */
    method Process(r: Response, id: string, nowIso: string, nowMs: int)
      modifies health, db, sound
      ensures health.cameraLog == old(health.cameraLog) +
        [HealthStore.Processing, if r.Ok? then HealthStore.CameraIdle else HealthStore.CameraError]
      ensures health.State() == old(health.State()).(
        activeReminders := old(health.activeReminders) +
          (if r.Ok? then [HealthStore.Reminder(id, HealthStore.Posture, r.analysis, nowMs)] else []),
        cameraStatus := if r.Ok? then HealthStore.CameraIdle else HealthStore.CameraError)
      ensures db.healthEvents == old(db.healthEvents) +
        if r.Ok? && db.hasWindow then [Storage.HealthEvent(id, "posture", nowIso, false, Some(r.analysis), nowIso)] else []
      ensures db.sessions == old(db.sessions) && db.aiMemory == old(db.aiMemory)
      ensures sound.cues == old(sound.cues) + if r.Ok? && sound.hasAudio then SeverityCue(r.severity) else []
      ensures sound.speech == old(sound.speech) +
        if r.Ok? && sound.hasSpeech then Sound.SpeakStart(r.analysis, Sound.DefaultLang, old(sound.paused)) else []
    {
      health.SetCameraStatus(HealthStore.Processing);
      if !r.Ok? {
        health.SetCameraStatus(HealthStore.CameraError);
        return;
      }
      Report(r.analysis, r.severity, id, nowIso, nowMs);
    }

    /** The success path of `checkPosture`, once the analysis is in. */
    method Report(analysis: string, severity: string, id: string, nowIso: string, nowMs: int)
      modifies health, db, sound
      ensures health.cameraLog == old(health.cameraLog) + [HealthStore.CameraIdle]
      ensures health.State() == old(health.State()).(
        activeReminders := old(health.activeReminders) + [HealthStore.Reminder(id, HealthStore.Posture, analysis, nowMs)],
        cameraStatus := HealthStore.CameraIdle)
      ensures db.healthEvents == old(db.healthEvents) +
        if db.hasWindow then [Storage.HealthEvent(id, "posture", nowIso, false, Some(analysis), nowIso)] else []
      ensures db.sessions == old(db.sessions) && db.aiMemory == old(db.aiMemory)
      ensures sound.cues == old(sound.cues) + if sound.hasAudio then SeverityCue(severity) else []
      ensures sound.speech == old(sound.speech) +
        if sound.hasSpeech then Sound.SpeakStart(analysis, Sound.DefaultLang, old(sound.paused)) else []
    {
      var event := db.CreateHealthEvent(id, "posture", Some(analysis), nowIso);
      if severity == "bad" {
        sound.Play(Sound.PostureWarning);
      } else if severity == "good" {
        sound.Play(Sound.PostureGood);
      }
      health.AddActiveReminder(HealthStore.Reminder(event.id, HealthStore.Posture, analysis, nowMs));
      sound.Speak(analysis, Sound.DefaultLang);
      health.SetCameraStatus(HealthStore.CameraIdle);
    }
  }
}
