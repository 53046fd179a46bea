/**
 * The Pomodoro timer component: the start, pause and reset handlers, the
 * completion transition between work sessions and breaks, the dispatch of
 * the worker's messages, and the `mm:ss` display of the remaining time.
 * The component drives four collaborators: the timer store, the countdown
 * worker, the record store and the sound manager.
 */
module PomodoroTimer {
  import opened Text
  import Config
  import opened TimerStore
  import TimerWorker
  import Storage
  import Sound

  /** The full length of a session of the given type. */
  function Duration(t: SessionType): (d: int)
    ensures d > 0
    ensures t == Work ==> d == Config.WorkDuration
    ensures t == ShortBreak ==> d == Config.ShortBreakDuration
    ensures t == LongBreak ==> d == Config.LongBreakDuration
  {
    match t
    case Work => Config.WorkDuration
    case ShortBreak => Config.ShortBreakDuration
    case LongBreak => Config.LongBreakDuration
  }

  /** The break that follows the work session that brings the count from
      `count` to `count + 1`. */
  function NextBreak(count: nat): (t: SessionType)
    ensures t != Work
    ensures t == LongBreak <==> (count + 1) % Config.SessionsUntilLongBreak == 0
  {
    if (count + 1) % Config.SessionsUntilLongBreak == 0 then LongBreak else ShortBreak
  }

  /** Every fourth work session, and only those, is followed by a long break. */
  lemma {:induction false} OneLongBreakInFour(c: nat)
    ensures NextBreak(c) == LongBreak <==> NextBreak(c + 4) == LongBreak
    ensures |set k | c <= k < c + 4 && NextBreak(k) == LongBreak| == 1
  {
    var longs := set k | c <= k < c + 4 && NextBreak(k) == LongBreak;
    var m := c + (4 - (c + 1) % 4) % 4;
    assert (m + 1) % 4 == 0;
    assert longs == {m} by {
      forall k | c <= k < c + 4 && k != m ensures NextBreak(k) != LongBreak {
        assert (k + 1) % 4 != 0;
      }
    }
  }

  /** The store after `handleSessionComplete`, reading the current state. */
  function Completed(s: TimerState): (r: TimerState)
    ensures r.status == Idle && r.currentSessionId == s.currentSessionId
    ensures s.sessionType == Work ==>
      && r.sessionCount == s.sessionCount + 1
      && r.sessionType != Work
      && (r.sessionType == LongBreak <==> r.sessionCount % Config.SessionsUntilLongBreak == 0)
      && r.timeRemaining == Duration(r.sessionType)
    ensures s.sessionType != Work ==>
      r == s.(status := Idle, sessionType := Work, timeRemaining := Config.WorkDuration)
  {
    if s.sessionType == Work then
      var next := NextBreak(s.sessionCount);
      s.(status := Idle, sessionCount := s.sessionCount + 1, sessionType := next, timeRemaining := Duration(next))
    else
      s.(status := Idle, sessionType := Work, timeRemaining := Config.WorkDuration)
  }

  /** A work session and the break after it bring the timer back to an idle,
      full work session with one more session counted and the same id. */
  lemma WorkThenBreak(s: TimerState)
    requires s.sessionType == Work
    ensures Completed(Completed(s)) ==
      s.(status := Idle, sessionCount := s.sessionCount + 1, timeRemaining := Config.WorkDuration)
  {
  }

  /** The store after `handleStart` with `newId` as the id of a new session. */
  function Started(s: TimerState, newId: string): (r: TimerState)
    ensures r.status == Running
    ensures r.timeRemaining == s.timeRemaining && r.sessionType == s.sessionType && r.sessionCount == s.sessionCount
    ensures r.currentSessionId == if s.sessionType == Work && s.status == Idle then Some(newId) else s.currentSessionId
  {
    if s.sessionType == Work && s.status == Idle then s.(currentSessionId := Some(newId), status := Running)
    else s.(status := Running)
  }

  /** The store after `handlePause`. */
  function PausedState(s: TimerState): (r: TimerState)
    ensures r.status == Paused && r == s.(status := Paused)
  {
    s.(status := Paused)
  }

  /** The store after `handleReset`. */
  function ResetToDuration(s: TimerState): (r: TimerState)
    ensures r.status == Idle && r.timeRemaining == Duration(s.sessionType)
    ensures r.sessionType == s.sessionType && r.sessionCount == s.sessionCount && r.currentSessionId == s.currentSessionId
  {
    s.(status := Idle, timeRemaining := Duration(s.sessionType))
  }

  /** Pausing and resuming keeps the session: the second start creates no
      new session id, and reset keeps the id too. */
  lemma ResumeKeepsSession(s: TimerState, id1: string, id2: string)
    requires s.sessionType == Work && s.status == Idle
    ensures Started(PausedState(Started(s, id1)), id2) == Started(s, id1)
    ensures ResetToDuration(Started(s, id1)).currentSessionId == Some(id1)
  {
  }

  // ---------------------------------------------------------------------
  // displayTime

  /** JavaScript's `%` for a positive divisor: the remainder takes the sign
      of the dividend. */
  function JsRem(a: int, b: int): (r: int)
    requires b > 0
    ensures a >= 0 ==> r == a % b
    ensures -b < r < b && (a < 0 ==> r <= 0)
  {
    if a >= 0 then a % b else -((-a) % b)
  }

  /** `minutes.toString().padStart(2, "0") + ":" + seconds...` with
      `minutes = Math.floor(t / 60)` and `seconds = t % 60`. */
  function DisplayTime(t: int): (d: string)
    ensures ':' in d
  {
    PadStart(IntToString(t / 60), 2, '0') + ":" + PadStart(IntToString(JsRem(t, 60)), 2, '0')
  }

  lemma {:induction false} PadStartValue(s: string, width: nat)
    requires forall i :: 0 <= i < |s| ==> IsDigit(s[i])
    ensures forall i :: 0 <= i < |PadStart(s, width, '0')| ==> IsDigit(PadStart(s, width, '0')[i])
    ensures DigitsValue(PadStart(s, width, '0')) == DigitsValue(s)
    decreases width - |s|
  {
    if |s| < width {
      DigitsValueLeadingZero(s);
      PadStartValue("0" + s, width);
    }
  }

  lemma NatToStringShort(n: nat)
    requires n < 100
    ensures |NatToString(n)| <= 2
  {
    if n >= 10 {
      assert NatToString(n) == NatToString(n / 10) + [DigitChar(n % 10)];
    }
  }

  /** A two-digit field padded to width two, as both halves of the display are. */
  lemma PaddedField(n: nat)
    ensures var f := PadStart(NatToString(n), 2, '0');
      && |f| >= 2 && (n < 100 ==> |f| == 2)
      && (forall i :: 0 <= i < |f| ==> IsDigit(f[i]))
      && DigitsValue(f) == n
  {
    PadStartValue(NatToString(n), 2);
    NatToStringValue(n);
    if n < 100 {
      NatToStringShort(n);
    }
  }

  lemma Recombine(minutes: int, seconds: int, t: int)
    requires minutes == t / 60 && seconds == t % 60
    ensures minutes * 60 + seconds == t
  {
  }

  /** Splitting `mm:ss` at its colon; the whole is all digits but the colon
      when both halves are. */
  lemma SplitAtColon(d: string, mm: string, ss: string)
    requires |ss| == 2 && d == mm + ":" + ss
    requires forall i :: 0 <= i < |mm| ==> IsDigit(mm[i])
    requires forall i :: 0 <= i < |ss| ==> IsDigit(ss[i])
    ensures |d| == |mm| + 3
    ensures d[..|d| - 3] == mm && d[|d| - 3] == ':' && d[|d| - 2..] == ss
    ensures forall i :: 0 <= i < |d| && i != |d| - 3 ==> IsDigit(d[i])
  {
    forall i | 0 <= i < |d| && i != |d| - 3 ensures IsDigit(d[i]) {
      if i < |mm| {
        assert d[i] == mm[i];
      } else {
        assert d[i] == ss[i - |mm| - 1];
      }
    }
  }

  /** A non-negative time shows its whole minutes and its seconds, each
      padded to two digits. */
  lemma DisplayTimeFields(t: int)
    requires t >= 0
    ensures DisplayTime(t) == PadStart(NatToString(t / 60), 2, '0') + ":" + PadStart(NatToString(t % 60), 2, '0')
  {
  }

  /** For a non-negative time the display is two or more minute digits, a
      colon and exactly two second digits; below an hour it is exactly five
      characters. */
  lemma DisplayTimeShape(t: int)
    requires t >= 0
    ensures var d := DisplayTime(t);
      && |d| >= 5 && d[|d| - 3] == ':'
      && (forall i :: 0 <= i < |d| && i != |d| - 3 ==> IsDigit(d[i]))
      && (t < 3600 ==> |d| == 5)
  {
    var mm := PadStart(NatToString(t / 60), 2, '0');
    var ss := PadStart(NatToString(t % 60), 2, '0');
    var d := DisplayTime(t);
    assert d == mm + ":" + ss by {
      DisplayTimeFields(t);
    }
    assert t % 60 < 100;
    assert t < 3600 ==> t / 60 < 100;
    PaddedField(t / 60);
    PaddedField(t % 60);
    SplitAtColon(d, mm, ss);
  }

  /** The display reads back: the minutes before the colon times 60 plus
      the seconds after it is the time. */
  lemma DisplayTimeReadsBack(t: int)
    requires t >= 0
    ensures var d := DisplayTime(t);
      |d| >= 3 && DigitsValue(d[..|d| - 3]) * 60 + DigitsValue(d[|d| - 2..]) == t
  {
    var mm := PadStart(NatToString(t / 60), 2, '0');
    var ss := PadStart(NatToString(t % 60), 2, '0');
    var d := DisplayTime(t);
    assert d == mm + ":" + ss by {
      DisplayTimeFields(t);
    }
    FieldsRecombine(t);
    ValueAroundColon(d, mm, ss, t);
  }

  lemma FieldsRecombine(t: int)
    requires t >= 0
    ensures |PadStart(NatToString(t % 60), 2, '0')| == 2
    ensures DigitsValue(PadStart(NatToString(t / 60), 2, '0')) * 60 + DigitsValue(PadStart(NatToString(t % 60), 2, '0')) == t
  {
    var minutes, seconds := t / 60, t % 60;
    PaddedField(minutes);
    PaddedField(seconds);
    Recombine(minutes, seconds, t);
  }

  lemma ValueAroundColon(d: string, mm: string, ss: string, t: int)
    requires |ss| == 2 && d == mm + ":" + ss
    requires DigitsValue(mm) * 60 + DigitsValue(ss) == t
    ensures |d| >= 3 && DigitsValue(d[..|d| - 3]) * 60 + DigitsValue(d[|d| - 2..]) == t
  {
    assert d[..|d| - 3] == mm;
    assert d[|d| - 2..] == ss;
  }

  // ---------------------------------------------------------------------
  // The component

  class Timer {
    const store: Store
    const worker: TimerWorker.Worker
    const db: Storage.RecordStore
    const sound: Sound.SoundManager

    constructor (store: Store, worker: TimerWorker.Worker, db: Storage.RecordStore, sound: Sound.SoundManager)
      ensures this.store == store && this.worker == worker && this.db == db && this.sound == sound
    {
      this.store := store;
      this.worker := worker;
      this.db := db;
      this.sound := sound;
    }

    /** The cues that play when the sound manager has an audio context. */
    function Audible(cs: seq<Sound.Cue>): seq<Sound.Cue>
      reads sound
    {
      if sound.hasAudio then cs else []
    }

    /** `handleSessionComplete` at time `now`, reading the current state.
        A work session records its end time on the current session, if
        there is one, and is followed by a break; a break is followed by a
        work session. */
    method HandleSessionComplete(now: string)
      modifies store, db, sound
      ensures store.State() == Completed(old(store.State()))
      ensures var id := old(store.currentSessionId);
        db.sessions ==
          if old(store.sessionType) == Work && id.Some? && id.value != "" && db.hasWindow
          then Storage.UpdatedSessions(old(db.sessions), id.value, Storage.EndTimeUpdate(now), now)
          else old(db.sessions)
      ensures db.healthEvents == old(db.healthEvents) && db.aiMemory == old(db.aiMemory)
      ensures sound.cues == old(sound.cues) +
        Audible(if old(store.sessionType) == Work then [Sound.SessionComplete] else [Sound.SessionComplete, Sound.BreakEnd])
      ensures sound.speech == old(sound.speech)
    {
      HandleCompleteFromMount(store.State(), now);
    }

    /** `handleSessionComplete` as the closure of the render whose state was
        `captured` runs it: the branch, the session count of the break rule
        and the break-end cue follow `captured`, while the setters, the
        session id (read through `getState()`) and the record store act on
        the current state. The worker's handler is this closure with
        `captured` the state at mount. */
    method HandleCompleteFromMount(captured: TimerState, now: string)
      modifies store, db, sound
      ensures store.State() == CompletedFromMount(captured, old(store.State()))
      ensures var id := old(store.currentSessionId);
        db.sessions ==
          if captured.sessionType == Work && id.Some? && id.value != "" && db.hasWindow
          then Storage.UpdatedSessions(old(db.sessions), id.value, Storage.EndTimeUpdate(now), now)
          else old(db.sessions)
      ensures db.healthEvents == old(db.healthEvents) && db.aiMemory == old(db.aiMemory)
      ensures sound.cues == old(sound.cues) +
        Audible(if captured.sessionType == Work then [Sound.SessionComplete] else [Sound.SessionComplete, Sound.BreakEnd])
      ensures sound.speech == old(sound.speech)
    {
      sound.Play(Sound.SessionComplete);
      store.SetStatus(Idle);
      if captured.sessionType == Work {
        var sessionId := store.currentSessionId;
        if sessionId.Some? && sessionId.value != "" {
          var _ := db.UpdateSession(sessionId.value, Storage.EndTimeUpdate(now), now);
        }
        store.IncrementSessionCount();
        var next := NextBreak(captured.sessionCount);
        store.SetSessionType(next);
        store.SetTimeRemaining(Duration(next));
      } else {
        sound.Play(Sound.BreakEnd);
        store.SetSessionType(Work);
        store.SetTimeRemaining(Config.WorkDuration);
      }
    }

    /** `handleStart` at time `now`, with `newId` as the id a new session
        would get: an idle work session creates a session record first;
        resuming keeps the current one. The worker starts from the store's
        remaining time. */
    method HandleStart(newId: string, now: string)
      requires worker.Valid()
      modifies store, db, worker
      ensures store.State() == Started(old(store.State()), newId)
      ensures db.sessions ==
        if old(store.sessionType) == Work && old(store.status) == Idle && db.hasWindow
        then old(db.sessions) + [Storage.Session(newId, now, None, None, None, now, now)]
        else old(db.sessions)
      ensures db.healthEvents == old(db.healthEvents) && db.aiMemory == old(db.aiMemory)
      ensures worker.Valid() && worker.Ticking() && worker.timeRemaining == old(store.timeRemaining)
    {
      if store.sessionType == Work && store.status == Idle {
        var session := db.CreateSession(newId, now, now);
        store.SetCurrentSessionId(Some(session.id));
      }
      store.SetStatus(Running);
      var _ := worker.Start(Some(store.timeRemaining));
    }

    /** `handlePause`: the store is paused and the worker stops ticking with
        its counter kept. */
    method HandlePause()
      requires worker.Valid()
      modifies store, worker
      ensures store.State() == PausedState(old(store.State()))
      ensures worker.Valid() && !worker.Ticking() && worker.timeRemaining == old(worker.timeRemaining)
    {
      store.SetStatus(Paused);
      var _ := worker.Pause();
    }

    /** `handleReset`: the store goes back to the full length of its current
        session type; the worker stops and zeroes its counter. */
    method HandleReset()
      requires worker.Valid()
      modifies store, worker
      ensures store.State() == ResetToDuration(old(store.State()))
      ensures worker.Valid() && !worker.Ticking() && worker.timeRemaining == 0
    {
      store.SetStatus(Idle);
      var _ := worker.Reset();
      store.SetTimeRemaining(Duration(store.sessionType));
    }

    /** The worker's `onmessage` handler: a tick sets the remaining time, a
        completion runs the completion transition, anything else is ignored. */
    method OnWorkerMessage(m: TimerWorker.Outgoing, now: string)
      modifies store, db, sound
      ensures m.TickMsg? ==> store.State() == old(store.State()).(timeRemaining := m.timeRemaining)
      ensures m.CompleteMsg? ==> store.State() == Completed(old(store.State()))
      ensures !m.TickMsg? && !m.CompleteMsg? ==> store.State() == old(store.State())
      ensures !m.CompleteMsg? ==> db.sessions == old(db.sessions) && sound.cues == old(sound.cues)
      ensures db.healthEvents == old(db.healthEvents) && db.aiMemory == old(db.aiMemory)
      ensures sound.speech == old(sound.speech)
    {
      match m
      case TickMsg(t) => store.SetTimeRemaining(t);
      case CompleteMsg => HandleSessionComplete(now);
      case _ =>
    }

    /** One run of the worker's interval, its messages delivered in order to
        the component: the store shows the new count, and the tick that
        brings it to 0 completes the session. */
    method OnIntervalTick(now: string)
      requires worker.Valid() && worker.Ticking()
      modifies store, worker, db, sound
      ensures worker.Valid() && worker.timeRemaining == old(worker.timeRemaining) - 1
      ensures worker.timeRemaining > 0 ==>
        worker.Ticking() && store.State() == old(store.State()).(timeRemaining := worker.timeRemaining)
      ensures worker.timeRemaining <= 0 ==>
        !worker.Ticking() && store.State() == Completed(old(store.State()).(timeRemaining := worker.timeRemaining))
    {
      var out := worker.Tick();
      OnWorkerMessage(out[0], now);
      if |out| == 2 {
        OnWorkerMessage(out[1], now);
      }
    }
  }

  // ---------------------------------------------------------------------
  // The completion handler as the mounted component runs it

  /** The completion transition as the worker's handler runs it: the
      handler is installed once, when the component mounts, so the session
      type and count it reads are those of `captured`, the state at mount,
      while the setters act on the current state. */
  function CompletedFromMount(captured: TimerState, current: TimerState): (r: TimerState)
    ensures r.status == Idle && r.currentSessionId == current.currentSessionId
    ensures captured.sessionType == Work ==>
      r.sessionCount == current.sessionCount + 1 && r.sessionType == NextBreak(captured.sessionCount)
  {
    if captured.sessionType == Work then
      var next := NextBreak(captured.sessionCount);
      current.(status := Idle, sessionCount := current.sessionCount + 1, sessionType := next, timeRemaining := Duration(next))
    else
      current.(status := Idle, sessionType := Work, timeRemaining := Config.WorkDuration)
  }

  /** Mounted with the initial state, the handler treats every completion,
      breaks included, as the end of a work session followed by a short
      break: a break never gives way to a work session and a long break
      never comes. */
  lemma MountedHandlerNeverLeavesBreaks(current: TimerState)
    ensures CompletedFromMount(Initial, current).sessionType == ShortBreak
    ensures CompletedFromMount(Initial, current).timeRemaining == Config.ShortBreakDuration
    ensures CompletedFromMount(Initial, current).sessionCount == current.sessionCount + 1
  {
  }

  /** The fourth work session shows the difference: the intended transition
      gives a long break, the mounted handler a short one. */
  lemma MountedHandlerMissesLongBreak()
    ensures var s := Initial.(sessionCount := 3, status := Running, timeRemaining := 0);
      && Completed(s).sessionType == LongBreak
      && CompletedFromMount(Initial, s).sessionType == ShortBreak
  {
  }
}
