/**
 * The timer store: the remaining time, status, session type, number of
 * completed work sessions and the id of the current work session, with
 * one action per field and a reset.
 */
module TimerStore {
  import opened Text
  import Config

  datatype TimerStatus = Idle | Running | Paused | Break

  datatype SessionType = Work | ShortBreak | LongBreak

  datatype TimerState = TimerState(
    timeRemaining: int,
    status: TimerStatus,
    sessionType: SessionType,
    sessionCount: nat,
    currentSessionId: Option<string>)

  /** The store's state before any action. */
  const Initial: TimerState := TimerState(Config.WorkDuration, Idle, Work, 0, None)

  /** The state `reset` leaves: every field but the session count is back
      to its initial value. */
  function ResetState(s: TimerState): (r: TimerState)
    ensures r.sessionCount == s.sessionCount
  {
    s.(timeRemaining := Config.WorkDuration, status := Idle, sessionType := Work, currentSessionId := None)
  }

  /** Reset returns to the initial state except for the session count, and
      resetting twice is resetting once. */
  lemma ResetIsInitialButCount(s: TimerState)
    ensures ResetState(s) == Initial.(sessionCount := s.sessionCount)
    ensures ResetState(ResetState(s)) == ResetState(s)
    ensures s.sessionCount == 0 ==> ResetState(s) == Initial
  {
  }

  class Store {
    var timeRemaining: int
    var status: TimerStatus
    var sessionType: SessionType
    var sessionCount: nat
    var currentSessionId: Option<string>

    function State(): TimerState
      reads this
    {
      TimerState(timeRemaining, status, sessionType, sessionCount, currentSessionId)
    }

    constructor ()
      ensures State() == Initial
    {
      timeRemaining := Config.WorkDuration;
      status := Idle;
      sessionType := Work;
      sessionCount := 0;
      currentSessionId := None;
    }

    method SetTimeRemaining(time: int)
      modifies this
      ensures State() == old(State()).(timeRemaining := time)
    {
      timeRemaining := time;
    }

    method SetStatus(s: TimerStatus)
      modifies this
      ensures State() == old(State()).(status := s)
    {
      status := s;
    }

    method SetSessionType(t: SessionType)
      modifies this
      ensures State() == old(State()).(sessionType := t)
    {
      sessionType := t;
    }

    method IncrementSessionCount()
      modifies this
      ensures State() == old(State()).(sessionCount := old(sessionCount) + 1)
    {
      sessionCount := sessionCount + 1;
    }

    method SetCurrentSessionId(id: Option<string>)
      modifies this
      ensures State() == old(State()).(currentSessionId := id)
    {
      currentSessionId := id;
    }

    method Reset()
      modifies this
      ensures State() == ResetState(old(State()))
    {
      timeRemaining := Config.WorkDuration;
      status := Idle;
      sessionType := Work;
      currentSessionId := None;
    }
  }
}
