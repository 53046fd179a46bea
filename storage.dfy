/**
 * The client-side record store: work sessions, health events and AI
 * memories, each kept as a list under its own storage key. The stored
 * lists are the fields of `RecordStore`; `hasWindow` says whether the code
 * runs in a browser, without which every read yields an empty list and
 * every write is dropped. Ids and clock readings are parameters.
 */
module Storage {
  import opened Text

  datatype Session = Session(
    id: string,
    startTime: string,
    endTime: Option<string>,
    focusScore: Option<int>,
    notes: Option<string>,
    createdAt: string,
    updatedAt: string)

  /** The fields a partial session update may carry; `None` is an absent field. */
  datatype SessionUpdate = SessionUpdate(
    id: Option<string>,
    startTime: Option<string>,
    endTime: Option<string>,
    focusScore: Option<int>,
    notes: Option<string>,
    createdAt: Option<string>)

  datatype HealthEvent = HealthEvent(
    id: string,
    kind: string,
    timestamp: string,
    acknowledged: bool,
    message: Option<string>,
    createdAt: string)

  datatype AiMemory = AiMemory(
    id: string,
    category: string,
    content: string,
    confidenceScore: real,
    createdAt: string,
    updatedAt: string)

  /** The confidence an AI memory gets when the caller gives none. */
  const DefaultConfidence: real := 0.7

  /** An update carrying only an end time, as written when a work session ends. */
  function EndTimeUpdate(endTime: string): SessionUpdate
  {
    SessionUpdate(None, None, Some(endTime), None, None, None)
  }

  // ---------------------------------------------------------------------
  // findIndex

  /** The index of the first element whose key is `id`. */
  function FirstIndex<T>(xs: seq<T>, key: T -> string, id: string): (r: Option<nat>)
    ensures r.None? <==> forall k :: 0 <= k < |xs| ==> key(xs[k]) != id
    ensures r.Some? ==> r.value < |xs| && key(xs[r.value]) == id
    ensures r.Some? ==> forall k :: 0 <= k < r.value ==> key(xs[k]) != id
  {
    if xs == [] then None
    else if key(xs[0]) == id then Some(0)
    else match FirstIndex(xs[1..], key, id)
      case None => None
      case Some(i) => Some(i + 1)
  }

  /** A list with the same keys has its first match at the same place. */
  lemma FirstIndexSameKeys<T>(xs: seq<T>, ys: seq<T>, key: T -> string, id: string)
    requires |xs| == |ys| && forall k :: 0 <= k < |xs| ==> key(xs[k]) == key(ys[k])
    ensures FirstIndex(xs, key, id) == FirstIndex(ys, key, id)
  {
    var a, b := FirstIndex(xs, key, id), FirstIndex(ys, key, id);
    if a.Some? {
      assert key(ys[a.value]) == id;
    }
    if b.Some? {
      assert key(xs[b.value]) == id;
    }
  }

  /** `Array.prototype.findIndex` over a key: -1 when nothing matches. */
  method FindIndex<T>(xs: seq<T>, key: T -> string, id: string) returns (index: int)
    ensures index == match FirstIndex(xs, key, id) case None => -1 case Some(i) => i
  {
    index := 0;
    while index < |xs|
      invariant 0 <= index <= |xs|
      invariant forall k :: 0 <= k < index ==> key(xs[k]) != id
    {
      if key(xs[index]) == id {
        return;
      }
      index := index + 1;
    }
    index := -1;
  }

  function SessionId(s: Session): string { s.id }

  function EventId(e: HealthEvent): string { e.id }

  // ---------------------------------------------------------------------
  // Pure effects of the update operations

  /** `{ ...session, ...updates, updatedAt: now }`. */
  function ApplyUpdate(s: Session, u: SessionUpdate, now: string): (r: Session)
    ensures r.updatedAt == now
    ensures r.endTime == if u.endTime.Some? then u.endTime else s.endTime
    ensures r.id == if u.id.Some? then u.id.value else s.id
    ensures u == EndTimeUpdate(now) ==> r == s.(endTime := Some(now), updatedAt := now)
  {
    Session(
      if u.id.Some? then u.id.value else s.id,
      if u.startTime.Some? then u.startTime.value else s.startTime,
      if u.endTime.Some? then u.endTime else s.endTime,
      if u.focusScore.Some? then u.focusScore else s.focusScore,
      if u.notes.Some? then u.notes else s.notes,
      if u.createdAt.Some? then u.createdAt.value else s.createdAt,
      now)
  }

  /** Applying the same update at the same time twice is applying it once. */
  lemma ApplyUpdateIdempotent(s: Session, u: SessionUpdate, now: string)
    ensures ApplyUpdate(ApplyUpdate(s, u, now), u, now) == ApplyUpdate(s, u, now)
  {
  }

  /** The stored sessions after `updateSession(id, u)` at time `now`. */
  function UpdatedSessions(ss: seq<Session>, id: string, u: SessionUpdate, now: string): (r: seq<Session>)
    ensures |r| == |ss|
  {
    match FirstIndex(ss, SessionId, id)
    case None => ss
    case Some(i) => ss[i := ApplyUpdate(ss[i], u, now)]
  }

  /** Only the first session with the id is updated; the others, before and
      after it, are kept as they were, and an unknown id changes nothing. */
  lemma UpdatedSessionsFirstMatchOnly(ss: seq<Session>, id: string, u: SessionUpdate, now: string)
    ensures (forall k :: 0 <= k < |ss| ==> ss[k].id != id) ==> UpdatedSessions(ss, id, u, now) == ss
    ensures forall i :: 0 <= i < |ss| && ss[i].id == id && (forall k :: 0 <= k < i ==> ss[k].id != id) ==>
      UpdatedSessions(ss, id, u, now) == ss[i := ApplyUpdate(ss[i], u, now)]
  {
    forall i | 0 <= i < |ss| && ss[i].id == id && (forall k :: 0 <= k < i ==> ss[k].id != id)
      ensures UpdatedSessions(ss, id, u, now) == ss[i := ApplyUpdate(ss[i], u, now)]
    {
      var first := FirstIndex(ss, SessionId, id);
      assert SessionId(ss[i]) == id;
    }
    if forall k :: 0 <= k < |ss| ==> ss[k].id != id {
      assert forall k :: 0 <= k < |ss| ==> SessionId(ss[k]) != id;
    }
  }

  /** An update that keeps the session's id, applied twice at the same time,
      leaves the list as applying it once. */
  lemma UpdatedSessionsIdempotent(ss: seq<Session>, id: string, u: SessionUpdate, now: string)
    requires u.id.None? || u.id == Some(id)
    ensures UpdatedSessions(UpdatedSessions(ss, id, u, now), id, u, now) == UpdatedSessions(ss, id, u, now)
  {
    var once := UpdatedSessions(ss, id, u, now);
    FirstIndexSameKeys(ss, once, SessionId, id);
    match FirstIndex(ss, SessionId, id)
    case None =>
    case Some(i) =>
      ApplyUpdateIdempotent(ss[i], u, now);
  }

  /** The stored events after `acknowledgeHealthEvent(id)`. */
  function AcknowledgedEvents(es: seq<HealthEvent>, id: string): (r: seq<HealthEvent>)
    ensures |r| == |es|
  {
    match FirstIndex(es, EventId, id)
    case None => es
    case Some(i) => es[i := es[i].(acknowledged := true)]
  }

  /** Acknowledging marks the first event with the id and only it, an
      unknown id changes nothing, and acknowledging twice is acknowledging
      once. */
  lemma AcknowledgeFirstMatchOnly(es: seq<HealthEvent>, id: string)
    ensures (forall k :: 0 <= k < |es| ==> es[k].id != id) ==> AcknowledgedEvents(es, id) == es
    ensures forall i :: 0 <= i < |es| && es[i].id == id && (forall k :: 0 <= k < i ==> es[k].id != id) ==>
      AcknowledgedEvents(es, id) == es[i := es[i].(acknowledged := true)]
    ensures AcknowledgedEvents(AcknowledgedEvents(es, id), id) == AcknowledgedEvents(es, id)
  {
    forall i | 0 <= i < |es| && es[i].id == id && (forall k :: 0 <= k < i ==> es[k].id != id)
      ensures AcknowledgedEvents(es, id) == es[i := es[i].(acknowledged := true)]
    {
      var first := FirstIndex(es, EventId, id);
      assert EventId(es[i]) == id;
    }
    if forall k :: 0 <= k < |es| ==> es[k].id != id {
      assert forall k :: 0 <= k < |es| ==> EventId(es[k]) != id;
    }
    var once := AcknowledgedEvents(es, id);
    FirstIndexSameKeys(es, once, EventId, id);
  }

  // ---------------------------------------------------------------------
  // The store

  class RecordStore {
    const hasWindow: bool
    var sessions: seq<Session>
    var healthEvents: seq<HealthEvent>
    var aiMemory: seq<AiMemory>

    constructor (hasWindow: bool)
      ensures this.hasWindow == hasWindow
      ensures sessions == [] && healthEvents == [] && aiMemory == []
    {
      this.hasWindow := hasWindow;
      sessions := [];
      healthEvents := [];
      aiMemory := [];
    }

    /** `getSessions`: the stored list, or [] outside a browser. */
    function GetSessions(): (r: seq<Session>)
      reads this
      ensures !hasWindow ==> r == []
      ensures hasWindow ==> r == sessions
    {
      if hasWindow then sessions else []
    }

    /** `saveSessions`: stores the list, or does nothing outside a browser. */
    method SaveSessions(ss: seq<Session>)
      modifies this
      ensures sessions == (if hasWindow then ss else old(sessions))
      ensures healthEvents == old(healthEvents) && aiMemory == old(aiMemory)
    {
      if hasWindow {
        sessions := ss;
      }
    }

    function GetHealthEvents(): (r: seq<HealthEvent>)
      reads this
      ensures !hasWindow ==> r == []
      ensures hasWindow ==> r == healthEvents
    {
      if hasWindow then healthEvents else []
    }

    method SaveHealthEvents(es: seq<HealthEvent>)
      modifies this
      ensures healthEvents == (if hasWindow then es else old(healthEvents))
      ensures sessions == old(sessions) && aiMemory == old(aiMemory)
    {
      if hasWindow {
        healthEvents := es;
      }
    }

    function GetAiMemory(): (r: seq<AiMemory>)
      reads this
      ensures !hasWindow ==> r == []
      ensures hasWindow ==> r == aiMemory
    {
      if hasWindow then aiMemory else []
    }

    method SaveAiMemory(ms: seq<AiMemory>)
      modifies this
      ensures aiMemory == (if hasWindow then ms else old(aiMemory))
      ensures sessions == old(sessions) && healthEvents == old(healthEvents)
    {
      if hasWindow {
        aiMemory := ms;
      }
    }

    /** `createSession(startTime)` with the fresh id `id` at time `now`:
        appends a session with no end time. */
    method CreateSession(id: string, startTime: string, now: string) returns (s: Session)
      modifies this
      ensures s == Session(id, startTime, None, None, None, now, now)
      ensures sessions == (if hasWindow then old(sessions) + [s] else old(sessions))
      ensures healthEvents == old(healthEvents) && aiMemory == old(aiMemory)
    {
      s := Session(id, startTime, None, None, None, now, now);
      var ss := GetSessions();
      ss := ss + [s];
      SaveSessions(ss);
    }

    /** `updateSession(id, u)` at time `now`: merges the update into the
        first session with the id, or returns `None` when there is none. */
    method UpdateSession(id: string, u: SessionUpdate, now: string) returns (r: Option<Session>)
      modifies this
      ensures sessions == (if hasWindow then UpdatedSessions(old(sessions), id, u, now) else old(sessions))
      ensures r.None? <==> !hasWindow || forall k :: 0 <= k < |old(sessions)| ==> old(sessions)[k].id != id
      ensures r.Some? ==> (FirstIndex(old(sessions), SessionId, id).Some?
        && r == Some(ApplyUpdate(old(sessions)[FirstIndex(old(sessions), SessionId, id).value], u, now)))
      ensures healthEvents == old(healthEvents) && aiMemory == old(aiMemory)
    {
      var ss := GetSessions();
      var index := FindIndex(ss, SessionId, id);
      if index == -1 {
        return None;
      }
      ss := ss[index := ApplyUpdate(ss[index], u, now)];
      SaveSessions(ss);
      r := Some(ss[index]);
    }

    /** `createHealthEvent(kind, message)` with the fresh id `id` at time
        `now`: appends an unacknowledged event. */
    method CreateHealthEvent(id: string, kind: string, message: Option<string>, now: string) returns (e: HealthEvent)
      modifies this
      ensures e == HealthEvent(id, kind, now, false, message, now)
      ensures healthEvents == (if hasWindow then old(healthEvents) + [e] else old(healthEvents))
      ensures sessions == old(sessions) && aiMemory == old(aiMemory)
    {
      e := HealthEvent(id, kind, now, false, message, now);
      var es := GetHealthEvents();
      es := es + [e];
      SaveHealthEvents(es);
    }

    /** `acknowledgeHealthEvent(id)`: marks the first event with the id, or
        returns `None` when there is none. */
    method AcknowledgeHealthEvent(id: string) returns (r: Option<HealthEvent>)
      modifies this
      ensures healthEvents == (if hasWindow then AcknowledgedEvents(old(healthEvents), id) else old(healthEvents))
      ensures r.None? <==> !hasWindow || forall k :: 0 <= k < |old(healthEvents)| ==> old(healthEvents)[k].id != id
      ensures r.Some? ==> (FirstIndex(old(healthEvents), EventId, id).Some?
        && r == Some(old(healthEvents)[FirstIndex(old(healthEvents), EventId, id).value].(acknowledged := true)))
      ensures r.Some? ==> r.value.id == id && r.value.acknowledged
      ensures sessions == old(sessions) && aiMemory == old(aiMemory)
    {
      var es := GetHealthEvents();
      var index := FindIndex(es, EventId, id);
      if index == -1 {
        return None;
      }
      es := es[index := es[index].(acknowledged := true)];
      SaveHealthEvents(es);
      r := Some(es[index]);
    }

    /** `createAiMemory(category, content, confidence)` with the fresh id
        `id` at time `now`; an absent confidence is the default. */
    method CreateAiMemory(id: string, category: string, content: string, confidence: Option<real>, now: string)
      returns (m: AiMemory)
      modifies this
      ensures m.id == id && m.category == category && m.content == content
      ensures m.confidenceScore == if confidence.Some? then confidence.value else DefaultConfidence
      ensures m.createdAt == now && m.updatedAt == now
      ensures aiMemory == (if hasWindow then old(aiMemory) + [m] else old(aiMemory))
      ensures sessions == old(sessions) && healthEvents == old(healthEvents)
    {
      var score := if confidence.Some? then confidence.value else DefaultConfidence;
      m := AiMemory(id, category, content, score, now, now);
      var ms := GetAiMemory();
      ms := ms + [m];
      SaveAiMemory(ms);
    }
  }
}
