/**
 * The settings store: seven numeric settings, defaulting to the
 * configuration's values, updated by merging a partial update over them
 * (present fields win, absent fields stay) and reset to the defaults. No
 * value is checked: whatever number an update holds is stored.
 */
module SettingsStore {
  import opened Text
  import Config

  datatype Settings = Settings(
    workDuration: int,
    shortBreakDuration: int,
    longBreakDuration: int,
    sessionsUntilLongBreak: int,
    postureCheckInterval: int,
    hydrationReminderInterval: int,
    stretchReminderInterval: int)

  /** A partial update: `None` for a field the update leaves out. */
  datatype Update = Update(
    workDuration: Option<int>,
    shortBreakDuration: Option<int>,
    longBreakDuration: Option<int>,
    sessionsUntilLongBreak: Option<int>,
    postureCheckInterval: Option<int>,
    hydrationReminderInterval: Option<int>,
    stretchReminderInterval: Option<int>)

  const NoChange: Update := Update(None, None, None, None, None, None, None)

  const Defaults: Settings := Settings(
    Config.WorkDuration,
    Config.ShortBreakDuration,
    Config.LongBreakDuration,
    Config.SessionsUntilLongBreak,
    Config.PostureCheckInterval,
    Config.HydrationReminderInterval,
    Config.StretchReminderInterval)

  /** The defaults are the configured durations in seconds. */
  lemma DefaultsAreConfigured()
    ensures Defaults.workDuration == 1500 && Defaults.shortBreakDuration == 300
    ensures Defaults.longBreakDuration == 900 && Defaults.sessionsUntilLongBreak == 4
    ensures Defaults.postureCheckInterval == 600
    ensures Defaults.hydrationReminderInterval == 1800 && Defaults.stretchReminderInterval == 3600
  {
  }

  /** One field of the spread: the update's value if present. */
  function Field(update: Option<int>, current: int): (v: int)
    ensures update.Some? ==> v == update.value
    ensures update.None? ==> v == current
  {
    if update.Some? then update.value else current
  }

  /** `{ ...settings, ...updates }`. */
  function Merge(s: Settings, u: Update): (r: Settings)
    ensures u.workDuration.Some? ==> r.workDuration == u.workDuration.value
    ensures u.workDuration.None? ==> r.workDuration == s.workDuration
    ensures u.shortBreakDuration.Some? ==> r.shortBreakDuration == u.shortBreakDuration.value
    ensures u.shortBreakDuration.None? ==> r.shortBreakDuration == s.shortBreakDuration
    ensures u.longBreakDuration.Some? ==> r.longBreakDuration == u.longBreakDuration.value
    ensures u.longBreakDuration.None? ==> r.longBreakDuration == s.longBreakDuration
    ensures u.sessionsUntilLongBreak.Some? ==> r.sessionsUntilLongBreak == u.sessionsUntilLongBreak.value
    ensures u.sessionsUntilLongBreak.None? ==> r.sessionsUntilLongBreak == s.sessionsUntilLongBreak
    ensures u.postureCheckInterval.Some? ==> r.postureCheckInterval == u.postureCheckInterval.value
    ensures u.postureCheckInterval.None? ==> r.postureCheckInterval == s.postureCheckInterval
    ensures u.hydrationReminderInterval.Some? ==> r.hydrationReminderInterval == u.hydrationReminderInterval.value
    ensures u.hydrationReminderInterval.None? ==> r.hydrationReminderInterval == s.hydrationReminderInterval
    ensures u.stretchReminderInterval.Some? ==> r.stretchReminderInterval == u.stretchReminderInterval.value
    ensures u.stretchReminderInterval.None? ==> r.stretchReminderInterval == s.stretchReminderInterval
  {
    Settings(
      Field(u.workDuration, s.workDuration),
      Field(u.shortBreakDuration, s.shortBreakDuration),
      Field(u.longBreakDuration, s.longBreakDuration),
      Field(u.sessionsUntilLongBreak, s.sessionsUntilLongBreak),
      Field(u.postureCheckInterval, s.postureCheckInterval),
      Field(u.hydrationReminderInterval, s.hydrationReminderInterval),
      Field(u.stretchReminderInterval, s.stretchReminderInterval))
  }

  /** Two updates in a row, as one: the later one's present fields win. */
  function Then(u: Update, v: Update): Update
  {
    Update(
      if v.workDuration.Some? then v.workDuration else u.workDuration,
      if v.shortBreakDuration.Some? then v.shortBreakDuration else u.shortBreakDuration,
      if v.longBreakDuration.Some? then v.longBreakDuration else u.longBreakDuration,
      if v.sessionsUntilLongBreak.Some? then v.sessionsUntilLongBreak else u.sessionsUntilLongBreak,
      if v.postureCheckInterval.Some? then v.postureCheckInterval else u.postureCheckInterval,
      if v.hydrationReminderInterval.Some? then v.hydrationReminderInterval else u.hydrationReminderInterval,
      if v.stretchReminderInterval.Some? then v.stretchReminderInterval else u.stretchReminderInterval)
  }

  /** Merging is idempotent, leaves settings alone for an empty update,
      composes as one combined update, and a full update replaces
      everything. */
  lemma MergeLaws(s: Settings, u: Update, v: Update)
    ensures Merge(Merge(s, u), u) == Merge(s, u)
    ensures Merge(s, NoChange) == s
    ensures Merge(Merge(s, u), v) == Merge(s, Then(u, v))
    ensures Merge(s, Update(Some(s.workDuration), Some(s.shortBreakDuration), Some(s.longBreakDuration),
                            Some(s.sessionsUntilLongBreak), Some(s.postureCheckInterval),
                            Some(s.hydrationReminderInterval), Some(s.stretchReminderInterval))) == s
  {
  }

  /** No value is refused: any number in an update is stored as given,
      zero and negative ones included. */
  lemma MergeStoresAnyValue(s: Settings, n: int)
    ensures Merge(s, NoChange.(workDuration := Some(n))).workDuration == n
    ensures Merge(s, NoChange.(sessionsUntilLongBreak := Some(n))).sessionsUntilLongBreak == n
  {
  }

  class Store {
    var settings: Settings

    constructor ()
      ensures settings == Defaults
    {
      settings := Defaults;
    }

    /** `setSettings`. */
    method SetSettings(updates: Update)
      modifies this
      ensures settings == Merge(old(settings), updates)
    {
      settings := Merge(settings, updates);
    }

    /** `resetSettings`: the defaults, whatever came before. */
    method ResetSettings()
      modifies this
      ensures settings == Defaults
    {
      settings := Defaults;
    }
  }
}
