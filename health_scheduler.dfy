/**
 * The health scheduler: an effect that runs whenever the timer's status or
 * remaining time changes and, while the timer is running, raises a
 * hydration reminder at 10 seconds remaining and a stretch reminder at 0.
 * Raising a reminder logs a health event, shows a reminder carrying the
 * event's id, plays the notification cue and speaks the message.
 */
module HealthScheduler {
  import opened Text
  import TimerStore
  import HealthStore
  import Storage
  import Sound

  const HydrationMessage: string := "Jangan lupa minum air! Hydration itu penting biar tetap fokus."
  const StretchMessage: string := "Waktunya stretching! Berdiri dan regangkan tubuh kamu biar fresh lagi."

  /** The remaining times at which the two reminders fire. */
  const HydrationAt: int := 10
  const StretchAt: int := 0

  /** The type name a health event is logged under. */
  function KindName(k: HealthStore.ReminderType): (name: string)
    ensures name != ""
  {
    match k
    case Posture => "posture"
    case Hydration => "hydration"
    case Stretch => "stretch"
  }

  /** The reminders one run of the effect raises for the timer state `s`, in
      the order it raises them. */
  function Fired(s: TimerStore.TimerState): (r: seq<HealthStore.ReminderType>)
    ensures |r| <= 1
    ensures HealthStore.Hydration in r <==> s.status == TimerStore.Running && s.timeRemaining == HydrationAt
    ensures HealthStore.Stretch in r <==> s.status == TimerStore.Running && s.timeRemaining == StretchAt
    ensures HealthStore.Posture !in r
  {
    if s.status != TimerStore.Running then []
    else
      (if s.timeRemaining == HydrationAt then [HealthStore.Hydration] else [])
      + (if s.timeRemaining == StretchAt then [HealthStore.Stretch] else [])
  }

  /** The session type plays no part: the reminders fire during breaks too,
      and the session count and id play no part either. */
  lemma FiredIgnoresSession(s: TimerStore.TimerState, t: TimerStore.SessionType, n: nat, id: Option<string>)
    ensures Fired(s.(sessionType := t, sessionCount := n, currentSessionId := id)) == Fired(s)
  {
  }

  /** Over a countdown that passes every value from `from` down to 0 while
      running, the effect fires each reminder exactly once. */
  lemma {:induction false} CountdownFiresEachOnce(s: TimerStore.TimerState, from: nat)
    requires s.status == TimerStore.Running && from >= HydrationAt
    ensures FiredOver(s, from) == [HealthStore.Hydration, HealthStore.Stretch]
  {
    FiredOverBelow(s, HydrationAt - 1);
    FiredOverQuiet(s, from);
  }

  /** The reminders raised when the effect runs for every remaining time
      from `from` down to 0, in that order. */
  function FiredOver(s: TimerStore.TimerState, from: nat): seq<HealthStore.ReminderType>
  {
    Fired(s.(timeRemaining := from)) + (if from == 0 then [] else FiredOver(s, from - 1))
  }

  lemma {:induction false} FiredOverBelow(s: TimerStore.TimerState, from: nat)
    requires s.status == TimerStore.Running && from < HydrationAt
    ensures FiredOver(s, from) == [HealthStore.Stretch]
  {
    if from > 0 {
      FiredOverBelow(s, from - 1);
    }
  }

  lemma {:induction false} FiredOverQuiet(s: TimerStore.TimerState, from: nat)
    requires s.status == TimerStore.Running && from >= HydrationAt
    ensures FiredOver(s, from) == [HealthStore.Hydration] + FiredOver(s, HydrationAt - 1)
  {
    if from > HydrationAt {
      assert Fired(s.(timeRemaining := from)) == [];
      FiredOverQuiet(s, from - 1);
    } else {
      assert Fired(s.(timeRemaining := from)) == [HealthStore.Hydration];
    }
  }

  class Scheduler {
    const health: HealthStore.Store
    const db: Storage.RecordStore
    const sound: Sound.SoundManager
    var hydrationTriggered: bool
    var stretchTriggered: bool

    constructor (health: HealthStore.Store, db: Storage.RecordStore, sound: Sound.SoundManager)
      ensures this.health == health && this.db == db && this.sound == sound
      ensures !hydrationTriggered && !stretchTriggered
    {
      this.health := health;
      this.db := db;
      this.sound := sound;
      hydrationTriggered := false;
      stretchTriggered := false;
    }

    /** `triggerHydrationReminder` / `triggerStretchReminder`, with `id` the
        fresh id of the logged event, `nowIso` and `nowMs` the clock. */
    method Trigger(kind: HealthStore.ReminderType, message: string, id: string, nowIso: string, nowMs: int)
      modifies health, db, sound
      ensures health.State() == old(health.State()).(activeReminders :=
        old(health.activeReminders) + [HealthStore.Reminder(id, kind, message, nowMs)])
      ensures health.cameraLog == old(health.cameraLog)
      ensures db.healthEvents == old(db.healthEvents) +
        (if db.hasWindow then [Storage.HealthEvent(id, KindName(kind), nowIso, false, Some(message), nowIso)] else [])
      ensures db.sessions == old(db.sessions) && db.aiMemory == old(db.aiMemory)
      ensures sound.cues == old(sound.cues) + (if sound.hasAudio then [Sound.Notification] else [])
      ensures sound.speech == old(sound.speech) +
        if sound.hasSpeech then Sound.SpeakStart(message, Sound.DefaultLang, old(sound.paused)) else []
      ensures sound.hasSpeech ==> sound.sentences == Sound.Sentences(message) && sound.index == 0
    {
      var event := db.CreateHealthEvent(id, KindName(kind), Some(message), nowIso);
      health.AddActiveReminder(HealthStore.Reminder(event.id, kind, message, nowMs));
      sound.Play(Sound.Notification);
      sound.Speak(message, Sound.DefaultLang);
    }

    /** One run of the effect for the timer state `s`. While running, both
        latches are cleared first, so each check depends on the remaining
        time alone. */
    method Evaluate(s: TimerStore.TimerState, hydrationId: string, stretchId: string, nowIso: string, nowMs: int)
      modifies this, health, db, sound
      ensures s.status != TimerStore.Running ==>
        && hydrationTriggered == old(hydrationTriggered) && stretchTriggered == old(stretchTriggered)
        && health.State() == old(health.State()) && db.healthEvents == old(db.healthEvents)
        && sound.cues == old(sound.cues) && sound.speech == old(sound.speech)
      ensures s.status == TimerStore.Running ==>
        hydrationTriggered == (s.timeRemaining == HydrationAt) && stretchTriggered == (s.timeRemaining == StretchAt)
      ensures health.State() == old(health.State()).(activeReminders := old(health.activeReminders) + Reminders(s, hydrationId, stretchId, nowMs))
      ensures db.healthEvents == old(db.healthEvents) + if db.hasWindow then Events(s, hydrationId, stretchId, nowIso) else []
      ensures db.sessions == old(db.sessions) && db.aiMemory == old(db.aiMemory)
      ensures sound.cues == old(sound.cues) + if sound.hasAudio then Notifications(|Fired(s)|) else []
      ensures sound.speech == old(sound.speech) + if sound.hasSpeech && Fired(s) != [] then
        Sound.SpeakStart(Reminders(s, hydrationId, stretchId, nowMs)[0].message, Sound.DefaultLang, old(sound.paused)) else []
      ensures health.cameraLog == old(health.cameraLog)
    {
      if s.status == TimerStore.Running {
        hydrationTriggered := false;
        stretchTriggered := false;
      }
      if s.status != TimerStore.Running {
        return;
      }
      assert Notifications(1) == [Sound.Notification];
      assert s.timeRemaining != HydrationAt && s.timeRemaining != StretchAt ==>
        Fired(s) == [] && Reminders(s, hydrationId, stretchId, nowMs) == [] && Events(s, hydrationId, stretchId, nowIso) == [];
      if s.timeRemaining == HydrationAt && !hydrationTriggered {
        hydrationTriggered := true;
        Trigger(HealthStore.Hydration, HydrationMessage, hydrationId, nowIso, nowMs);
      }
      if s.timeRemaining == StretchAt && !stretchTriggered {
        stretchTriggered := true;
        Trigger(HealthStore.Stretch, StretchMessage, stretchId, nowIso, nowMs);
      }
    }
  }

  /** The reminders one run of the effect shows, each carrying the id of its
      logged event and its fixed message. */
  function Reminders(s: TimerStore.TimerState, hydrationId: string, stretchId: string, nowMs: int): (r: seq<HealthStore.Reminder>)
    ensures |r| == |Fired(s)|
    ensures forall k :: 0 <= k < |r| ==> r[k].kind == Fired(s)[k] && r[k].timestamp == nowMs
    ensures forall k :: 0 <= k < |r| ==>
      (r[k].kind == HealthStore.Hydration ==> r[k].id == hydrationId && r[k].message == HydrationMessage)
      && (r[k].kind == HealthStore.Stretch ==> r[k].id == stretchId && r[k].message == StretchMessage)
  {
    if s.status != TimerStore.Running then []
    else if s.timeRemaining == HydrationAt then [HealthStore.Reminder(hydrationId, HealthStore.Hydration, HydrationMessage, nowMs)]
    else if s.timeRemaining == StretchAt then [HealthStore.Reminder(stretchId, HealthStore.Stretch, StretchMessage, nowMs)]
    else []
  }

  /** The health events one run of the effect logs: one per fired reminder,
      unacknowledged, with the reminder's id, type name and message, created
      and updated at `nowIso`. */
  function Events(s: TimerStore.TimerState, hydrationId: string, stretchId: string, nowIso: string): (r: seq<Storage.HealthEvent>)
    ensures |r| == |Fired(s)|
    ensures forall nowMs: int, k :: 0 <= k < |r| ==>
      var m := Reminders(s, hydrationId, stretchId, nowMs)[k];
      r[k] == Storage.HealthEvent(m.id, KindName(m.kind), nowIso, false, Some(m.message), nowIso)
  {
    if s.status != TimerStore.Running then []
    else if s.timeRemaining == HydrationAt then [Storage.HealthEvent(hydrationId, KindName(HealthStore.Hydration), nowIso, false, Some(HydrationMessage), nowIso)]
    else if s.timeRemaining == StretchAt then [Storage.HealthEvent(stretchId, KindName(HealthStore.Stretch), nowIso, false, Some(StretchMessage), nowIso)]
    else []
  }

  function Notifications(n: nat): (r: seq<Sound.Cue>)
    ensures |r| == n && forall k :: 0 <= k < n ==> r[k] == Sound.Notification
  {
    if n == 0 then [] else [Sound.Notification] + Notifications(n - 1)
  }
}
