# Pomodoro timer with health nudges — a Dafny model

This project models the rule-carrying core of a Pomodoro web application.
The application counts down work sessions and breaks, and nudges the user
about hydration, stretching and posture. Posture is judged by a vision model
from a camera frame. Intervention messages come from a language model, with
fixed fallbacks. Records are kept in the browser's local storage.

The model has one module per source file:

- `TimerWorker` (`timer_worker.dfy`): the countdown Web Worker. A class holds
  the counter, the current interval handle and the set of live intervals.
  It has one method per message, and a `Tick` method that returns what one
  run of the interval callback posts.
- `TimerStore` (`timer_store.dfy`): the timer store, with its setters and `reset`.
- `PomodoroTimer` (`pomodoro_timer.dfy`): the timer component. It covers the
  completion transition, the start/pause/reset handlers, the worker message
  dispatch and the `mm:ss` display. Each handler is a method over the
  stores, the worker, the record store and the sound manager. Each is proved
  against a transition function on `TimerState`.
- `HealthScheduler` (`health_scheduler.dfy`): the hydration and stretch
  triggers, with their latches.
- `PostureMonitor` (`posture_monitor.dfy`): the one-shot posture trigger and
  the `checkPosture` sequence. The camera and the analysis request are
  abstract outcomes.
- `HealthStore` (`health_store.dfy`): the health store's reminder lists, the
  camera status and the last-reminder times.
- `NotificationAlert` (`notification_alert.dfy`): acknowledge, dismiss, the
  new-reminder chime and the colour rule.
- `Storage` (`storage.dfy`): the local-storage record store. Sessions, health
  events and AI memories are sequences, and a flag records whether a
  browser window exists.
- `SettingsStore` (`settings_store.dfy`): the persisted settings store's
  defaults, merge and reset.
- `Config` (`config.dfy`): the configuration loaded from the environment,
  and both validation helpers.
- `PostureRoute` (`posture_route.dfy`): the posture-analysis endpoint. It
  covers the validation order, the keyword severity rule and deletion of
  the upload in `finally`.
- `Prompts` (`prompts.dfy`): the prompt templates, placeholder substitution,
  the static fallback messages and the exported table.
- `Glm` (`glm.dfy`): how the language-model and vision calls choose their
  answer, and `parseAIResponse`. Network outcomes are a datatype.
- `ChatRoute` (`chat_route.dfy`): the intervention endpoint.
- `Sound` (`sound.dfy`): the sound manager's cues, and `speak`. It covers
  the sentence split of `/[^.!?]+[.!?]+/g` and the utterance-by-utterance
  sequencing.
- `Text` (`text.dfy`): the JavaScript string operations the code relies on,
  over `seq<char>`. These are `trim`, `toLowerCase`, `includes`,
  `startsWith`, `replace` with a string pattern, `padStart`, number
  formatting and `join`.

Ids from `generateId`, clock readings, the fresh upload file name, and the
outcomes of the camera, the network and the cloud storage are all
parameters of the operations that use them.

## Behaviour worth knowing

These are behaviours of the code that a reader might not expect. The model
states each of them:

- `handleReset` and the break-completion branch keep `currentSessionId`.
  Neither clears it. See `PomodoroTimer.ResetToDuration` and `PomodoroTimer.Completed`.
- `handleStart` sends the worker the stored remaining time as it is. It does
  not substitute a default for 0.
- The hydration and stretch reminders fire at the fixed remaining times 10
  and 0. They fire in any session type, breaks included. They do not depend
  on the time since the last reminder, and there is no break reminder.
- Posture severity is decided by keywords in the lower-cased analysis text
  alone. No label is parsed, and the analysis is passed on unchanged.
- `setSettings` stores any number it is given. It does not validate
  durations.
- There is no skip operation.

## Model

| member | source | states |
|---|---|---|
| TimerWorker.CountdownShape | public/timer-worker.js:19-29 | An interval started at `t` posts `tick` for every value from `t-1` down to 0 (only `-1` when `t <= 0`), then exactly one `complete` |
| TimerWorker.Countdown | public/timer-worker.js:19-29 | What one interval posts: starts with a tick of `t-1` and ends with `complete` |
| TimerWorker.Worker.constructor | public/timer-worker.js:3-4 | The counter starts at 0, with no interval running |
| TimerWorker.Worker.Start | public/timer-worker.js:10-30 | A given time replaces the counter and a missing one keeps it. The previous interval is cleared, so exactly one interval is live. Nothing is posted |
| TimerWorker.Worker.Tick | public/timer-worker.js:19-29 | The counter drops by exactly 1 and is posted. At or below 0 the interval stops and one `complete` follows. The posted messages plus what the interval still posts equal the countdown from the old counter |
| TimerWorker.Worker.Pause | public/timer-worker.js:32-37 | Ticking stops, the handle is nulled and the counter is kept |
| TimerWorker.Worker.Reset | public/timer-worker.js:39-46 | Ticking stops, the counter becomes 0 and one `reset` message is posted |
| TimerWorker.Worker.GetTime | public/timer-worker.js:48-50 | Posts the counter and changes nothing |
| TimerWorker.Worker.OnMessage | public/timer-worker.js:6-52 | The message switch: each action has its effect on the ticking state and counter, and unknown actions change nothing |
| TimerStore.ResetState | store/timer-store.ts:39-45 | `reset` keeps the session count |
| TimerStore.ResetIsInitialButCount | store/timer-store.ts:26-45 | Reset yields the initial state except for the session count. It is idempotent, and with count 0 it is exactly the initial state |
| TimerStore.Store.constructor | store/timer-store.ts:26-30 | The initial state is work duration, idle, work, 0 sessions and no id |
| TimerStore.Store.SetTimeRemaining | store/timer-store.ts:33 | Replaces the remaining time and nothing else |
| TimerStore.Store.SetStatus | store/timer-store.ts:34 | Replaces the status and nothing else |
| TimerStore.Store.SetSessionType | store/timer-store.ts:35 | Replaces the session type and nothing else |
| TimerStore.Store.IncrementSessionCount | store/timer-store.ts:36-37 | Adds exactly 1 to the session count and nothing else |
| TimerStore.Store.SetCurrentSessionId | store/timer-store.ts:38 | Replaces the current session id and nothing else |
| TimerStore.Store.Reset | store/timer-store.ts:39-45 | The new state is the reset state of the old one |
| PomodoroTimer.Duration | components/Timer/PomodoroTimer.tsx:98-103 | Each session type's configured length, always positive |
| PomodoroTimer.NextBreak | components/Timer/PomodoroTimer.tsx:59-62 | Always a break. It is the long break iff `(count+1) mod sessionsUntilLongBreak == 0` |
| PomodoroTimer.OneLongBreakInFour | components/Timer/PomodoroTimer.tsx:59-62 | The break pattern repeats every 4 sessions, and exactly one of any 4 consecutive counts gives a long break |
| PomodoroTimer.Completed | components/Timer/PomodoroTimer.tsx:43-76 | Completion sets the status to idle and keeps the id. After work: the count goes up by 1, a break follows, it is long iff the new count is a multiple of 4, and its length is that break's duration. After a break: a full work session follows with the count unchanged |
| PomodoroTimer.WorkThenBreak | components/Timer/PomodoroTimer.tsx:43-76 | A work session and the break after it return to an idle, full-length work session, with one more session counted and the same id |
| PomodoroTimer.Started | components/Timer/PomodoroTimer.tsx:78-87 | Start sets running and keeps the time, type and count. The new id is taken only from idle work |
| PomodoroTimer.PausedState | components/Timer/PomodoroTimer.tsx:89-92 | Pause changes only the status |
| PomodoroTimer.ResetToDuration | components/Timer/PomodoroTimer.tsx:94-106 | Reset sets idle and the full length of the current type. Type, count and id are unchanged |
| PomodoroTimer.ResumeKeepsSession | components/Timer/PomodoroTimer.tsx:78-106 | Pausing and resuming keeps the session id from the first start, and so does a reset |
| PomodoroTimer.JsRem | components/Timer/PomodoroTimer.tsx:110 | JavaScript `%`: it agrees with the mathematical remainder for non-negative time and takes the dividend's sign otherwise |
| PomodoroTimer.PaddedField | components/Timer/PomodoroTimer.tsx:111-113 | A padded field is all digits and at least two long (exactly two below 100), and it reads back as its number |
| PomodoroTimer.DisplayTimeFields | components/Timer/PomodoroTimer.tsx:109-113 | For non-negative time the display is the padded whole minutes, a colon and the padded seconds |
| PomodoroTimer.DisplayTime | components/Timer/PomodoroTimer.tsx:108-113 | `formatTime`: floor minutes and the remainder seconds, each padded to two digits, joined by a colon (the shape and read-back are the lemmas beside it) |
| PomodoroTimer.DisplayTimeShape | components/Timer/PomodoroTimer.tsx:109-113 | For non-negative time the display is digits around one colon, with exactly two second digits. It is exactly 5 characters below an hour |
| PomodoroTimer.DisplayTimeReadsBack | components/Timer/PomodoroTimer.tsx:109-113 | The minutes before the colon times 60, plus the seconds after it, give back the time |
| PomodoroTimer.Timer.constructor | components/Timer/PomodoroTimer.tsx:22-26 | The component is wired to its store, worker, record store and sound manager |
| PomodoroTimer.Timer.HandleSessionComplete | components/Timer/PomodoroTimer.tsx:43-76 | Read against the current state: the store takes the completion transition. Work ends the current session's record at `now`. The cues are session-complete, plus break-end after a break |
| PomodoroTimer.Timer.HandleCompleteFromMount | components/Timer/PomodoroTimer.tsx:25-76 | The closure of a render with state `captured`: the store takes `CompletedFromMount`. If `captured` is a work session, the current session's record gets its end time, even when the current session is a break. Break-end plays only if `captured` is a break |
| PomodoroTimer.Timer.HandleStart | components/Timer/PomodoroTimer.tsx:78-87 | The store takes the start transition. An idle work session appends one session record. The worker ticks from the store's time |
| PomodoroTimer.Timer.HandlePause | components/Timer/PomodoroTimer.tsx:89-92 | The store is paused, and the worker stops with its counter kept |
| PomodoroTimer.Timer.HandleReset | components/Timer/PomodoroTimer.tsx:94-106 | The store takes the reset transition. The worker stops with its counter at 0 |
| PomodoroTimer.Timer.OnWorkerMessage | components/Timer/PomodoroTimer.tsx:28-36 | A tick sets the time, a completion runs the completion transition, and other messages change nothing |
| PomodoroTimer.Timer.OnIntervalTick | components/Timer/PomodoroTimer.tsx:28-36 | One worker tick delivered to the component: the store shows the new count, and the tick that reaches 0 completes the session |
| PomodoroTimer.CompletedFromMount | components/Timer/PomodoroTimer.tsx:25-62 | The completion as the handler installed at mount runs it: type and count are read from the captured state, and the setters act on the current one |
| PomodoroTimer.MountedHandlerNeverLeavesBreaks | components/Timer/PomodoroTimer.tsx:25-75 | Mounted with the initial state, every completion, breaks included, counts a session and yields a short break |
| PomodoroTimer.MountedHandlerMissesLongBreak | components/Timer/PomodoroTimer.tsx:25-62 | Completing the 4th work session: the intended transition gives a long break, the mounted handler a short one |
| HealthScheduler.KindName | components/Health/HealthScheduler.tsx:44 | The event type name of a reminder kind, never empty |
| HealthScheduler.Fired | components/Health/HealthScheduler.tsx:16-39 | Hydration fires iff running at 10 s left, stretch iff running at 0 s left, and posture never |
| HealthScheduler.FiredIgnoresSession | components/Health/HealthScheduler.tsx:11-39 | Session type, count and id play no part, so reminders also fire during breaks |
| HealthScheduler.CountdownFiresEachOnce | components/Health/HealthScheduler.tsx:28-38 | A running countdown through every value down to 0 fires hydration once, then stretch once |
| HealthScheduler.Reminders | components/Health/HealthScheduler.tsx:41-68 | Each fired reminder carries its event's id, its fixed message and the clock |
| HealthScheduler.Scheduler.constructor | components/Health/HealthScheduler.tsx:13-14 | Both latches start cleared |
| HealthScheduler.Scheduler.Trigger | components/Health/HealthScheduler.tsx:41-73 | Logs one event, appends one reminder with that event's id, type and message, plays the notification cue and speaks the message |
| HealthScheduler.Scheduler.Evaluate | components/Health/HealthScheduler.tsx:16-39 | Not running: nothing changes. Running: the latches are reset first. The fired reminders are appended to the active list, their events (id, type name, message, unacknowledged) are appended to the log when there is a window, one notification cue plays per reminder, and the fired reminder's message is spoken when speech is available |
| HealthScheduler.Events | components/Health/HealthScheduler.tsx:42-64 | One logged event per fired reminder, carrying that reminder's id, type name and message, unacknowledged, stamped with the clock |
| PostureMonitor.TriggerPoint | components/Health/PostureMonitor.tsx:37-40 | `max(workDuration - checkInterval, 0)`: never negative |
| PostureMonitor.DefaultTriggerTime | components/Health/PostureMonitor.tsx:37-40 | With the default configuration the check comes at 900 s remaining |
| PostureMonitor.Step | components/Health/PostureMonitor.tsx:19-48 | A new truthy id (present and not empty) re-arms. A check is scheduled iff the guard holds, the time is the trigger point and the latch is unset. Scheduling sets the latch |
| PostureMonitor.CheckedStaysQuiet | components/Health/PostureMonitor.tsx:20-48 | Once the latch is set and an id would not re-arm it (the remembered id, or the empty string), no later run with that id schedules a check |
| PostureMonitor.FalsyIdKeepsLatch | components/Health/PostureMonitor.tsx:20-23 | An absent or empty session id never re-arms: a set latch stays set and nothing is scheduled |
| PostureMonitor.AtMostOncePerSession | components/Health/PostureMonitor.tsx:20-48 | Over any runs with the same session id, at most one check is scheduled |
| PostureMonitor.CameraPath | components/Health/PostureMonitor.tsx:125-186 | The status path starts with capturing. It is capturing, processing, idle on success and ends in error otherwise. Processing appears iff a frame was captured |
| PostureMonitor.SeverityCue | components/Health/PostureMonitor.tsx:164-168 | "bad" gives the warning cue, "good" the gentle cue, and anything else no cue |
| PostureMonitor.Monitor.constructor | components/Health/PostureMonitor.tsx:14-16 | The latch is unset, with no remembered id, no pending check and no streams |
| PostureMonitor.Monitor.Evaluate | components/Health/PostureMonitor.tsx:19-56 | Latch and scheduling follow `Step`. The check left pending is exactly the one this run scheduled, and only when the guard holds |
| PostureMonitor.Monitor.CaptureImage | components/Health/PostureMonitor.tsx:62-123 | Sets capturing, then error on a failed step. A frame is returned iff capture succeeds. An opened stream is always stopped |
| PostureMonitor.Monitor.CheckPosture | components/Health/PostureMonitor.tsx:125-186 | The statuses follow `CameraPath`. Only success logs an event, appends a posture reminder with the analysis, plays the severity cue and speaks. Streams are paired |
| PostureMonitor.Monitor.Process | components/Health/PostureMonitor.tsx:135-185 | After a frame: processing, then a failed request gives error with nothing logged and a good answer gives the report |
| PostureMonitor.Monitor.Report | components/Health/PostureMonitor.tsx:157-181 | Logs the event, cues by severity, appends the reminder carrying the event id and analysis, speaks it and sets idle |
| HealthStore.WithoutId | store/health-store.ts:52-55 | Filtering keeps exactly the reminders with another id |
| HealthStore.WithoutIdAppend | store/health-store.ts:52-55 | Removing an id distributes over concatenation, so the kept reminders keep their order |
| HealthStore.WithoutAbsentId | store/health-store.ts:52-55 | Removing an absent id leaves the list unchanged |
| HealthStore.WithoutIdIdempotent | store/health-store.ts:52-55 | Removing an id twice is removing it once |
| HealthStore.AppendThenRemove | store/health-store.ts:48-55 | Append then remove either cancels out (same id) or commutes (other id) |
| HealthStore.Store.constructor | store/health-store.ts:35-41 | Empty lists, idle camera, no reminder times, no active reminder |
| HealthStore.Store.SetLastPostureReminder | store/health-store.ts:44 | Replaces that one field |
| HealthStore.Store.SetLastHydrationReminder | store/health-store.ts:45 | Replaces that one field |
| HealthStore.Store.SetLastStretchReminder | store/health-store.ts:46 | Replaces that one field |
| HealthStore.Store.SetActiveReminder | store/health-store.ts:47 | Replaces that one field |
| HealthStore.Store.AddActiveReminder | store/health-store.ts:48-51 | Appends at the end and touches nothing else |
| HealthStore.Store.RemoveActiveReminder | store/health-store.ts:52-55 | Filters the id out of the active list only |
| HealthStore.Store.SetCameraStatus | store/health-store.ts:56 | Replaces the status and logs it |
| HealthStore.Store.AddToQueue | store/health-store.ts:57-60 | Appends to the queue only |
| HealthStore.Store.RemoveFromQueue | store/health-store.ts:61-64 | Filters the id out of the queue only |
| HealthStore.Store.ClearQueue | store/health-store.ts:65 | Empties the queue only |
| NotificationAlert.Renders | components/Health/NotificationAlert.tsx:31 | Something is shown iff the list is non-empty |
| NotificationAlert.ChimeAfterAppend | components/Health/NotificationAlert.tsx:22-29 | After an append, the chime depends only on the appended reminder not being posture and on posture priority being off. An empty list never chimes |
| NotificationAlert.AccentColour | components/Health/NotificationAlert.tsx:63-69 | Red for posture, blue for hydration, green otherwise |
| NotificationAlert.AccentColoursDistinct | components/Health/NotificationAlert.tsx:63-69 | The three kinds have three different colours |
| NotificationAlert.Alert.constructor | components/Health/NotificationAlert.tsx:9 | The alert is wired to the health store, record store and sound manager |
| NotificationAlert.Alert.HandleAcknowledge | components/Health/NotificationAlert.tsx:11-15 | The event is acknowledged in the log, and then no active reminder keeps that id |
| NotificationAlert.Alert.HandleDismiss | components/Health/NotificationAlert.tsx:17-19 | The reminder is removed and the event log is untouched |
| NotificationAlert.Alert.OnReminderCountChanged | components/Health/NotificationAlert.tsx:22-29 | The notification cue plays iff the list is non-empty, its last reminder is not posture and posture priority is off |
| Storage.FirstIndex | lib/storage.ts:77 | The first index whose key matches, or none when no element matches |
| Storage.FirstIndexSameKeys | lib/storage.ts:122 | Lists with the same keys have their first match at the same place |
| Storage.FindIndex | lib/storage.ts:77 | `findIndex`: the first match, or -1 |
| Storage.ApplyUpdate | lib/storage.ts:81-85 | Present update fields win, the others are kept, and `updatedAt` is refreshed |
| Storage.ApplyUpdateIdempotent | lib/storage.ts:81-85 | Applying the same update at the same time twice is applying it once |
| Storage.UpdatedSessions | lib/storage.ts:76-88 | The length is kept |
| Storage.UpdatedSessionsFirstMatchOnly | lib/storage.ts:76-88 | An unknown id changes nothing. Otherwise only the first match is updated |
| Storage.UpdatedSessionsIdempotent | lib/storage.ts:76-88 | An id-preserving update applied twice is applied once |
| Storage.AcknowledgedEvents | lib/storage.ts:120-130 | The length is kept |
| Storage.AcknowledgeFirstMatchOnly | lib/storage.ts:120-130 | An unknown id changes nothing. Only the first match is marked. Acknowledging twice is acknowledging once |
| Storage.RecordStore.constructor | lib/storage.ts:34-38 | Three empty stores |
| Storage.RecordStore.GetSessions | lib/storage.ts:51-55 | The stored list, or [] without a window |
| Storage.RecordStore.SaveSessions | lib/storage.ts:46-49 | Stores the list, or does nothing without a window |
| Storage.RecordStore.GetHealthEvents | lib/storage.ts:97-101 | The stored list, or [] without a window |
| Storage.RecordStore.SaveHealthEvents | lib/storage.ts:92-95 | Stores the list, or does nothing without a window |
| Storage.RecordStore.GetAiMemory | lib/storage.ts:138-142 | The stored list, or [] without a window |
| Storage.RecordStore.SaveAiMemory | lib/storage.ts:133-136 | Stores the list, or does nothing without a window |
| Storage.RecordStore.CreateSession | lib/storage.ts:57-70 | Returns the new session (no end time) and appends it, keeping earlier sessions |
| Storage.RecordStore.UpdateSession | lib/storage.ts:72-89 | The list becomes the first-match update. Null iff the id is unknown or there is no window. Otherwise the returned session is the first match with the update merged in and `updatedAt` refreshed |
| Storage.RecordStore.CreateHealthEvent | lib/storage.ts:103-118 | Returns an unacknowledged event with the given type and message, and appends it |
| Storage.RecordStore.AcknowledgeHealthEvent | lib/storage.ts:120-130 | Marks the first match. Null iff the id is unknown or there is no window. Otherwise the returned event is the stored first match with `acknowledged` set |
| Storage.RecordStore.CreateAiMemory | lib/storage.ts:144-163 | Appends one memory with the given category and content, and the given or default confidence |
| SettingsStore.DefaultsAreConfigured | store/pomodoro-settings-store.ts:21-29 | The defaults are the configured values in seconds |
| SettingsStore.Field | store/pomodoro-settings-store.ts:38-39 | A present field wins over the current value |
| SettingsStore.Merge | store/pomodoro-settings-store.ts:35-41 | Each present field takes the new value and each absent field is unchanged |
| SettingsStore.MergeLaws | store/pomodoro-settings-store.ts:35-41 | Merging is idempotent, an empty update is the identity, two merges are one merge of the combined update, and restating the settings changes nothing |
| SettingsStore.MergeStoresAnyValue | store/pomodoro-settings-store.ts:35-41 | No validation: any number is stored as given |
| SettingsStore.Store.constructor | store/pomodoro-settings-store.ts:34 | Starts at the defaults |
| SettingsStore.Store.SetSettings | store/pomodoro-settings-store.ts:35-41 | The settings become the merge of the update |
| SettingsStore.Store.ResetSettings | store/pomodoro-settings-store.ts:42 | The settings become the defaults from any prior state |
| Config.OrElse | config/index.ts:3-10 | An unset or empty variable falls back to its default |
| Config.Load | config/index.ts:1-34 | The base URLs are never empty. The API key is empty iff the variable is unset or empty. The debug flag is on iff the variable is exactly "true" |
| Config.EmptyNames | config/index.ts:38-45 | Exactly the names of the empty fields |
| Config.ValidateConfig | config/index.ts:37-47 | The missing names are in check order, valid iff none is missing, and each name appears iff its field is empty |
| Config.ValidateGcsConfig | config/index.ts:50-61 | The same for the three storage settings |
| Config.LoadedGlmMissesOnlyTheKey | config/index.ts:3-47 | With loaded configuration only `GLM_API_KEY` can be missing |
| Config.DefaultDurations | config/index.ts:17-28 | 1500/300/900 seconds, 4 sessions, and a posture interval below the work duration that leaves 900 s |
| PostureRoute.ClassifySeverity | app/api/posture/analyze/route.ts:45-61 | The computed severity satisfies the keyword rule: bad iff a bad keyword occurs, warning iff only a warning keyword does |
| PostureRoute.Classified | app/api/posture/analyze/route.ts:45-61 | The keyword severity rule. Bad wins: whenever a bad keyword occurs in the lower-cased text, bad is the only severity the rule admits |
| PostureRoute.ClassifiedUnique | app/api/posture/analyze/route.ts:46-61 | The rule gives each text exactly one severity |
| PostureRoute.KeywordInAnyCase | app/api/posture/analyze/route.ts:45-53 | A word that lower-cases to a keyword makes the lower-cased text contain it |
| PostureRoute.BadKeywordInAnyCase | app/api/posture/analyze/route.ts:45-54 | A bad keyword in any case, anywhere, makes the severity bad |
| PostureRoute.MonitorCueForSeverity | components/Health/PostureMonitor.tsx:164-168 | The endpoint's severities give the warning cue, the good cue and no cue |
| PostureRoute.Post | app/api/posture/analyze/route.ts:10-83 | The checks run in order: form error 500; no image or an empty text entry 400; a non-empty text entry 500 with the `TypeError` of `type.startsWith` (it passes the size check); too large 400; wrong type 400; all before any storage call. Upload errors give 500 with the message. Success returns the analysis unchanged with its severity. A named file is deleted unless debug keeps it |
| PostureRoute.Reject | app/api/posture/analyze/route.ts:15-33 | The first failing check decides the error, including the two text-entry outcomes |
| PostureRoute.FormCases | app/api/posture/analyze/route.ts:15-33 | Every read form has no image, a text entry, a too-large file, a wrong-type file or an acceptable file, and the cases exclude one another |
| PostureRoute.Analyse | app/api/posture/analyze/route.ts:39-76 | A failed upload gives 500 with its message; otherwise the analysis and its severity are returned |
| PostureRoute.FiveMebibytesAccepted | app/api/posture/analyze/route.ts:23-28 | Exactly 5 MiB is accepted and one byte more is not |
| Prompts.Placeholders | lib/prompts.ts:41-69 | Only overwork holds `{sessionCount}`, only procrastination holds `{userPattern}`, and the other templates hold no `{` |
| Prompts.Template | lib/prompts.ts:41-69 | The template of each type, never empty |
| Prompts.OverworkPlaceholders | lib/prompts.ts:62-64 | The overwork template holds the session-count placeholder and not the other one |
| Prompts.ProcrastinationPlaceholders | lib/prompts.ts:58-60 | The procrastination template holds the pattern placeholder and not the other one |
| Prompts.LiteralsBraceFree | lib/prompts.ts:41-69 | Outside the placeholders the templates hold no `{` |
| Prompts.ReplaceAfterHead | lib/prompts.ts:76-79 | A placeholder after a head that lacks its first character is the one `replace` rewrites |
| Prompts.ReplaceAbsent | lib/prompts.ts:76-79 | A pattern that does not occur leaves the text unchanged |
| Prompts.NumeralHasNoBrace | lib/prompts.ts:76 | A number's decimal string holds no `{` |
| Prompts.GeneratedPrompt | lib/prompts.ts:71-83 | Other types give their template verbatim. A defined count replaces the overwork placeholder with its numeral. A non-empty pattern replaces the procrastination placeholder. Otherwise the placeholder stays |
| Prompts.GeneratePrompt | lib/prompts.ts:71-83 | With no count and no non-empty pattern the prompt is the type's template |
| Prompts.OverworkPrompt | lib/prompts.ts:75-77 | The overwork prompt is head, numeral, tail when a count is given |
| Prompts.ProcrastinationPrompt | lib/prompts.ts:78-80 | The procrastination prompt is head, pattern, tail for a non-empty pattern |
| Prompts.StaticPrompt | lib/prompts.ts:86-98 | Total over the seven types and never empty |
| Prompts.StaticPromptsDistinct | lib/prompts.ts:86-94 | Each type has its own fallback |
| Prompts.StaticPromptLength | lib/prompts.ts:86-94 | The lengths of the seven fallbacks |
| Prompts.ParseType | lib/prompts.ts:24-31 | A parsed name is the name of its type |
| Prompts.ParseTypeName | lib/prompts.ts:24-31 | Every type's name reads back as that type |
| Prompts.StaticPromptTableAgrees | lib/prompts.ts:101-109 | The exported table has exactly the seven names as keys, and each entry is that type's fallback |
| Glm.GetAIIntervention | lib/glm.ts:39-90 | Failure or empty content gives the static prompt; otherwise the trimmed content |
| Glm.InterventionEmptyIff | lib/glm.ts:78-85 | The result is empty exactly for white-space-only content, because emptiness is checked before trimming |
| Glm.VisionText | lib/glm.ts:140-143 | Reasoning text is preferred over content |
| Glm.AnalyzePostureVision | lib/glm.ts:95-155 | Failure or empty text gives the fixed fallback; otherwise the trimmed text, reasoning first |
| Glm.AnalysisEmptyIff | lib/glm.ts:140-150 | The analysis is empty exactly when the chosen text is white space |
| Glm.RemoveStars | lib/glm.ts:164 | No `*` remains, star-free text is untouched, and the text never grows |
| Glm.StarsAfterPairs | lib/glm.ts:163-164 | Dropping `**` pairs and then single stars drops exactly every star |
| Glm.RemoveDoubleStars | lib/glm.ts:163 | Dropping `**` pairs never lengthens the text and leaves star-free text as it is |
| Glm.NoPairsWithoutStars | lib/glm.ts:163 | Star-free text has no pair to drop |
| Glm.HashRunEnd | lib/glm.ts:165 | The end of a run of `#` |
| Glm.HeadingLength | lib/glm.ts:165 | A `#+\s` match is at least two characters and within the text |
| Glm.StripHeadingsFrom | lib/glm.ts:165 | Dropping line-initial heading markers never lengthens the text |
| Glm.StripWithoutHashes | lib/glm.ts:165 | Without `#` nothing is stripped |
| Glm.StripLines | lib/glm.ts:165 | Stripping heading markers works line by line: text up to a line terminator and the text after it are stripped independently |
| Glm.TwoHeadingLines | lib/glm.ts:165 | `# a` followed by a line break and `## b` becomes `a`, a line break and `b` |
| Glm.HeadingLine | lib/glm.ts:165 | A line of hashes, one space and hash-free text loses exactly the marker |
| Glm.ParseAIResponseProperties | lib/glm.ts:160-167 | The output holds no `*`, and text without `*` and `#` is only trimmed |
| Glm.ParseAIResponse | lib/glm.ts:160-167 | `parseAIResponse`: the cleaned answer holds no `*` |
| Glm.ParseIgnoresStars | lib/glm.ts:162-166 | The two star replacements together remove every star |
| ChatRoute.Post | app/api/ai/chat/route.ts:6-62 | Configuration is checked first (500 with the joined names), then the body (500 with its error), then the type (400). Success is the cleaned intervention with the type echoed |
| ChatRoute.MissingMessage | app/api/ai/chat/route.ts:13-15 | The error text starts with the fixed prefix, and a single missing name follows it alone |
| ChatRoute.TwoMissingNames | app/api/ai/chat/route.ts:13-15 | With both model settings missing the text is the prefix followed by `GLM_API_KEY, GLM_BASE_URL` |
| Text.Join | app/api/ai/chat/route.ts:13-15 | `join`: empty for no parts, the part itself for one, and for more the first part, the separator, then the join of the rest |
| ChatRoute.MissingKeyMessage | app/api/ai/chat/route.ts:9-19 | With loaded configuration the check fails iff the key is empty, and the message then names only `GLM_API_KEY` |
| ChatRoute.SuccessMessage | app/api/ai/chat/route.ts:46-54 | A successful message never holds `*`, and a failed model request yields the type's fallback |
| ChatRoute.StaticPromptsPlain | lib/prompts.ts:86-94 | The fallbacks hold neither `*` nor `#`, so cleaning leaves them as they are |
| Sound.RunEnd | lib/sound.ts:104 | The end of a run of terminators or non-terminators |
| Sound.MatchesFrom | lib/sound.ts:104 | Each match is non-terminators followed by terminators |
| Sound.MatchesSpan | lib/sound.ts:104 | The matches joined are one contiguous stretch of the text. Only terminators precede it, and no match follows it |
| Sound.MatchesEmptyIff | lib/sound.ts:104 | There is no match iff no terminator follows a non-terminator |
| Sound.Sentences | lib/sound.ts:104 | Never empty. The whole text when nothing matches, otherwise the matches |
| Sound.Utterances | lib/sound.ts:106-131 | One utterance per sentence, trimmed, in order |
| Sound.SpeakStart | lib/sound.ts:94-138 | Cancel first, resume if paused, then the first trimmed sentence |
| Sound.UtterancesAppend | lib/sound.ts:106-131 | Speaking two runs of sentences is speaking each in turn |
| Sound.UtterancesSnoc | lib/sound.ts:118-122 | Speaking one more sentence adds its utterance at the end |
| Sound.SoundManager.constructor | lib/sound.ts:9-15 | Nothing played or spoken yet |
| Sound.SoundManager.Play | lib/sound.ts:53-88 | A cue is recorded iff there is an audio context |
| Sound.SoundManager.SpeakNext | lib/sound.ts:107-131 | Speaks the sentence at the index, trimmed, if there is one |
| Sound.SoundManager.Interrupt | lib/sound.ts:101-136 | Cancels speech, and resumes only a paused synthesiser |
| Sound.SoundManager.Begin | lib/sound.ts:106-138 | Installs the sentences at index 0 and speaks the first |
| Sound.SoundManager.Speak | lib/sound.ts:94-139 | Without a synthesiser nothing changes. Otherwise the speech is cancel, resume if paused, first sentence, with the new sentences installed |
| Sound.SoundManager.OnUtteranceDone | lib/sound.ts:118-128 | The index advances by exactly one, and the speech log gains exactly the next trimmed sentence, or nothing after the last |
| Text.ErrorMessage | app/api/posture/analyze/route.ts:73 | An `Error`'s message, otherwise the fallback |
| Text.TrimCutsSpace | lib/glm.ts:85 | Trimming cuts exactly the white space at both ends |
| Text.Trim | lib/glm.ts:85 | `trim`: never longer than its input, and neither starts nor ends with white space |
| Text.TrimEmpty | lib/glm.ts:78-85 | The trimmed text is empty iff the input is all white space |
| Text.TrimOfTrimmed | lib/glm.ts:166 | Text without white space at its ends is unchanged by trimming |
| Text.TrimKeepsCharacters | lib/glm.ts:166 | Trimming introduces no character |
| Text.LowerChar | app/api/posture/analyze/route.ts:45 | A-Z map to a-z, and other characters without special mappings are kept |
| Text.ToLowerAppend | app/api/posture/analyze/route.ts:45 | Lower-casing distributes over concatenation |
| Text.ToLower | app/api/posture/analyze/route.ts:45 | `toLowerCase` character by character: never shorter than its input |
| Text.IndexOf | lib/prompts.ts:76 | The first occurrence, or none iff the pattern does not occur |
| Text.ReplaceFirst | lib/prompts.ts:76 | Replaces the first occurrence only, and leaves text without the pattern unchanged |
| Text.NatToString | components/Timer/PomodoroTimer.tsx:111 | Non-empty digits with no leading zero |
| Text.IntToString | lib/prompts.ts:76 | The numeral, with a minus sign for negatives |
| Text.NatToStringValue | components/Timer/PomodoroTimer.tsx:111-113 | The numeral reads back as the number |
| Text.DigitsValueLeadingZero | components/Timer/PomodoroTimer.tsx:111-113 | A leading zero does not change the value |
| Text.PadStart | components/Timer/PomodoroTimer.tsx:111-113 | The result has the width, ends with the input and is fill before it |

## Left out

- Rendering, JSX and the progress ring (floating-point percentages) are not modelled.
- React effect scheduling is not modelled. The effects are methods the caller runs once per change of their dependencies.
- PostureMonitor.Monitor.Evaluate: the 100 ms `setTimeout` is reduced to a `pending` flag. Its cancellation by the effect's cleanup is modelled.
- Camera plumbing (`getUserMedia`, video, canvas, blob) is reduced to a `Capture` outcome. The upload request is reduced to a `Response` outcome.
- Network I/O, JSON decoding and `AbortSignal` timeouts in lib/glm.ts are outcome datatypes. The message bodies sent (model name, temperature, the system and vision prompt texts) are not modelled.
- lib/gcs.ts is not part of this model. The upload is an outcome, and deletion is a recorded call.
- PostureRoute.Reject: the message of the `TypeError` for a text entry is the Node.js runtime's wording. Other JavaScript engines word it differently.
- PostureRoute.Post takes the text the analysis call resolves to, not the vision outcome. Glm.AnalyzePostureVision states how that text follows from the outcome, and it never throws.
- NotificationAlert.Alert.OnReminderCountChanged takes posture priority as a boolean input. `soundManager.isPosturePriorityActive` is called but is not defined in lib/sound.ts.
- PomodoroTimer.Timer.OnWorkerMessage delivers a completion to `HandleSessionComplete`, which reads the current state. That is the evidently intended handler. The program's handler is the closure installed at mount: `HandleCompleteFromMount` with the state at mount (see "## Findings").
- PomodoroTimer.Timer.OnIntervalTick has the same difference: its completing tick runs `Completed` of the current state, not `CompletedFromMount` of the state at mount.
- Sound.SoundManager.Play records which cue plays. The Web Audio synthesis in `playTone` (frequencies, durations, gain ramps) is not modelled.
- Sound.SoundManager.OnUtteranceDone models one ending per utterance of the latest `speak` call. The 100 ms delay after an ending is not modelled. `onerror` firing on the previous call's utterances when `cancel()` stops them is not modelled either.
- Storage: `generateId`, the clock and JSON serialisation are not modelled. Ids and times are parameters, and each store is a sequence.
- Storage.RecordStore.UpdateSession: an update field given explicitly as `undefined` is the same as an absent field.
- SettingsStore.Merge: a field given explicitly as `undefined` in the updates is the same as an absent field. In the object spread it would overwrite the setting with `undefined`.
- ChatRoute.Post: a `sessionCount` of JSON `null` is not expressible (the body's count is present or absent). In the code `null` passes the `!== undefined` test, `null.toString()` throws inside `getAIIntervention`'s `try`, and the type's static prompt is returned.
- Storage.RecordStore.CreateAiMemory: the confidence is a `real`, with 0.7 as the default.
- HealthScheduler.Scheduler.Trigger: a throwing `createHealthEvent` is not modelled. Storage is a sequence and cannot fail.
- The zustand `persist` middleware for the settings is not modelled. It is persistence I/O.
- Text.LowerChar covers only the characters whose lower case contains an ASCII letter: A-Z, the Kelvin sign and capital I with dot above. Other Unicode case mappings cannot create or break the ASCII keywords, so they are left out.
- Text.ReplaceFirst treats the replacement literally. The `$` patterns of `String.prototype.replace` are not modelled.
- Config.Load takes the environment as a value. The process environment is not read.
- The chat body's `type` is modelled as missing, empty or one of the seven types. A string outside the seven is not modelled.
- Numbers are unbounded integers. Floating-point durations and JavaScript number limits are not modelled.
- The prompt texts `SYSTEM_PROMPT` and `POSTURE_VISION_PROMPT` carry no logic, and are left out.

## Findings

| source | as written | input that shows it | evidently intended | confidence | as-written member | corrected member |
|---|---|---|---|---|---|---|
| components/Timer/PomodoroTimer.tsx:25-62 | The worker's message handler is installed once, in a mount-only effect. So `handleSessionComplete` reads `sessionType` and `sessionCount` from the first render: work and 0. Every completion then takes the work branch. After a break, the session still held gets the break's end as its `endTime`, and the break-end cue never plays (`PomodoroTimer.Timer.HandleCompleteFromMount`) | Complete the fourth work session (count 3), or complete any break | Read the current state: a long break after every fourth session, and work after a break | not executed | PomodoroTimer.MountedHandlerMissesLongBreak | PomodoroTimer.Completed |
