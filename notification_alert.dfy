/**
 * The notification alert: shows the stacked reminders, acknowledges one
 * (logging it in the record store, then removing it) or dismisses one
 * (removing it only), and chimes when the number of reminders changes and
 * the newest is not a posture reminder. Whether posture priority is active
 * is an input.
 */
module NotificationAlert {
  import opened Text
  import opened HealthStore
  import Storage
  import Sound

  /** Whether the alert shows anything: nothing for an empty list. */
  function Renders(rs: seq<Reminder>): (b: bool)
    ensures b <==> rs != []
  {
    |rs| != 0
  }

  /** The new-reminder rule: the list is non-empty, its last reminder is
      not a posture reminder, and posture priority is not active. */
  function ShouldChime(rs: seq<Reminder>, posturePriority: bool): bool
  {
    |rs| > 0 && rs[|rs| - 1].kind != Posture && !posturePriority
  }

  /** After an append, the chime depends on the appended reminder alone:
      a posture reminder never chimes, any other one chimes unless posture
      priority is active. */
  lemma ChimeAfterAppend(rs: seq<Reminder>, x: Reminder, posturePriority: bool)
    ensures ShouldChime(rs + [x], posturePriority) <==> x.kind != Posture && !posturePriority
    ensures !ShouldChime([], posturePriority)
  {
  }

  /** The accent colour of a reminder's border. */
  function AccentColour(k: ReminderType): (c: string)
    ensures k == Posture ==> c == "#ef4444"
    ensures k == Hydration ==> c == "#3b82f6"
    ensures k != Posture && k != Hydration ==> c == "#22c55e"
  {
    if k == Posture then "#ef4444" else if k == Hydration then "#3b82f6" else "#22c55e"
  }

  /** Each reminder type has its own colour. */
  lemma AccentColoursDistinct(a: ReminderType, b: ReminderType)
    ensures a != b ==> AccentColour(a) != AccentColour(b)
  {
  }

  class Alert {
    const health: Store
    const db: Storage.RecordStore
    const sound: Sound.SoundManager

    constructor (health: Store, db: Storage.RecordStore, sound: Sound.SoundManager)
      ensures this.health == health && this.db == db && this.sound == sound
    {
      this.health := health;
      this.db := db;
      this.sound := sound;
    }

    /** `handleAcknowledge`: marks the reminder's event acknowledged, then
        removes the reminder from the list. */
    method HandleAcknowledge(reminder: Reminder)
      modifies health, db
      ensures db.healthEvents ==
        if db.hasWindow then Storage.AcknowledgedEvents(old(db.healthEvents), reminder.id) else old(db.healthEvents)
      ensures db.sessions == old(db.sessions) && db.aiMemory == old(db.aiMemory)
      ensures health.State() == old(health.State()).(activeReminders := WithoutId(old(health.activeReminders), reminder.id))
      ensures health.cameraLog == old(health.cameraLog)
      ensures forall k :: 0 <= k < |health.activeReminders| ==> health.activeReminders[k].id != reminder.id
    {
      var _ := db.AcknowledgeHealthEvent(reminder.id);
      health.RemoveActiveReminder(reminder.id);
    }

    /** `handleDismiss`: removes the reminder and leaves the event log alone. */
    method HandleDismiss(id: string)
      modifies health
      ensures health.State() == old(health.State()).(activeReminders := WithoutId(old(health.activeReminders), id))
      ensures health.cameraLog == old(health.cameraLog)
      ensures forall k :: 0 <= k < |health.activeReminders| ==> health.activeReminders[k].id != id
    {
      health.RemoveActiveReminder(id);
    }

    /** The sound effect, run whenever the number of reminders changes. */
    method OnReminderCountChanged(posturePriority: bool)
      modifies sound
      ensures sound.cues == old(sound.cues) +
        if ShouldChime(health.activeReminders, posturePriority) && sound.hasAudio then [Sound.Notification] else []
      ensures sound.speech == old(sound.speech)
    {
      var rs := health.activeReminders;
      if |rs| > 0 {
        var latest := rs[|rs| - 1];
        if latest.kind != Posture && !posturePriority {
          sound.Play(Sound.Notification);
        }
      }
    }
  }
}
