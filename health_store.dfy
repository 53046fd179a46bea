/**
 * The health store: the stacked reminders on screen, a reminder queue, the
 * camera status and the times of the last reminders, each replaced by its
 * own action. Lists grow by appending and shrink by filtering out an id.
 */
module HealthStore {
  import opened Text

  datatype ReminderType = Posture | Hydration | Stretch

  datatype Reminder = Reminder(id: string, kind: ReminderType, message: string, timestamp: int)

  datatype CameraStatus = CameraIdle | Capturing | CameraError | Processing

  datatype HealthState = HealthState(
    lastPostureReminder: Option<int>,
    lastHydrationReminder: Option<int>,
    lastStretchReminder: Option<int>,
    activeReminder: Option<Reminder>,
    activeReminders: seq<Reminder>,
    reminderQueue: seq<Reminder>,
    cameraStatus: CameraStatus)

  /** The store's state before any action. */
  const Initial: HealthState := HealthState(None, None, None, None, [], [], CameraIdle)

  /** `list.filter((r) => r.id !== id)`. */
  function WithoutId(rs: seq<Reminder>, id: string): (r: seq<Reminder>)
    ensures |r| <= |rs|
    ensures forall k :: 0 <= k < |r| ==> r[k].id != id && r[k] in rs
    ensures forall k :: 0 <= k < |rs| && rs[k].id != id ==> rs[k] in r
  {
    if rs == [] then []
    else if rs[0].id == id then WithoutId(rs[1..], id)
    else [rs[0]] + WithoutId(rs[1..], id)
  }

  /** Filtering distributes over concatenation, so the kept reminders stay
      in their order. */
  lemma {:induction false} WithoutIdAppend(a: seq<Reminder>, b: seq<Reminder>, id: string)
    ensures WithoutId(a + b, id) == WithoutId(a, id) + WithoutId(b, id)
  {
    if a == [] {
      assert a + b == b;
    } else {
      assert (a + b)[1..] == a[1..] + b;
      WithoutIdAppend(a[1..], b, id);
    }
  }

  /** Removing an id no reminder has changes nothing. */
  lemma {:induction false} WithoutAbsentId(rs: seq<Reminder>, id: string)
    requires forall k :: 0 <= k < |rs| ==> rs[k].id != id
    ensures WithoutId(rs, id) == rs
  {
    if rs != [] {
      WithoutAbsentId(rs[1..], id);
    }
  }

  /** Removing the same id twice is removing it once. */
  lemma WithoutIdIdempotent(rs: seq<Reminder>, id: string)
    ensures WithoutId(WithoutId(rs, id), id) == WithoutId(rs, id)
  {
    WithoutAbsentId(WithoutId(rs, id), id);
  }

  /** Appending a reminder and then removing its id is removing the id
      alone; removing another id keeps the new reminder last. */
  lemma AppendThenRemove(rs: seq<Reminder>, x: Reminder, id: string)
    ensures x.id == id ==> WithoutId(rs + [x], id) == WithoutId(rs, id)
    ensures x.id != id ==> WithoutId(rs + [x], id) == WithoutId(rs, id) + [x]
  {
    WithoutIdAppend(rs, [x], id);
    assert [x][1..] == [];
  }

  class Store {
    var lastPostureReminder: Option<int>
    var lastHydrationReminder: Option<int>
    var lastStretchReminder: Option<int>
    var activeReminder: Option<Reminder>
    var activeReminders: seq<Reminder>
    var reminderQueue: seq<Reminder>
    var cameraStatus: CameraStatus
    /** Every status `setCameraStatus` has been given, in order. */
    ghost var cameraLog: seq<CameraStatus>

    function State(): HealthState
      reads this
    {
      HealthState(lastPostureReminder, lastHydrationReminder, lastStretchReminder,
                  activeReminder, activeReminders, reminderQueue, cameraStatus)
    }

    constructor ()
      ensures State() == Initial && cameraLog == []
    {
      lastPostureReminder := None;
      lastHydrationReminder := None;
      lastStretchReminder := None;
      activeReminder := None;
      activeReminders := [];
      reminderQueue := [];
      cameraStatus := CameraIdle;
      cameraLog := [];
    }

    method SetLastPostureReminder(time: int)
      modifies this
      ensures State() == old(State()).(lastPostureReminder := Some(time)) && cameraLog == old(cameraLog)
    {
      lastPostureReminder := Some(time);
    }

    method SetLastHydrationReminder(time: int)
      modifies this
      ensures State() == old(State()).(lastHydrationReminder := Some(time)) && cameraLog == old(cameraLog)
    {
      lastHydrationReminder := Some(time);
    }

    method SetLastStretchReminder(time: int)
      modifies this
      ensures State() == old(State()).(lastStretchReminder := Some(time)) && cameraLog == old(cameraLog)
    {
      lastStretchReminder := Some(time);
    }

    method SetActiveReminder(reminder: Option<Reminder>)
      modifies this
      ensures State() == old(State()).(activeReminder := reminder) && cameraLog == old(cameraLog)
    {
      activeReminder := reminder;
    }

    /** `addActiveReminder`: appends at the end, keeping the earlier ones. */
    method AddActiveReminder(reminder: Reminder)
      modifies this
      ensures State() == old(State()).(activeReminders := old(activeReminders) + [reminder])
      ensures cameraLog == old(cameraLog)
    {
      activeReminders := activeReminders + [reminder];
    }

    /** `removeActiveReminder`: drops every reminder with the id. */
    method RemoveActiveReminder(id: string)
      modifies this
      ensures State() == old(State()).(activeReminders := WithoutId(old(activeReminders), id))
      ensures cameraLog == old(cameraLog)
    {
      activeReminders := WithoutId(activeReminders, id);
    }

    method SetCameraStatus(status: CameraStatus)
      modifies this
      ensures State() == old(State()).(cameraStatus := status)
      ensures cameraLog == old(cameraLog) + [status]
    {
      cameraStatus := status;
      cameraLog := cameraLog + [status];
    }

    method AddToQueue(reminder: Reminder)
      modifies this
      ensures State() == old(State()).(reminderQueue := old(reminderQueue) + [reminder])
      ensures cameraLog == old(cameraLog)
    {
      reminderQueue := reminderQueue + [reminder];
    }

    method RemoveFromQueue(id: string)
      modifies this
      ensures State() == old(State()).(reminderQueue := WithoutId(old(reminderQueue), id))
      ensures cameraLog == old(cameraLog)
    {
      reminderQueue := WithoutId(reminderQueue, id);
    }

    method ClearQueue()
      modifies this
      ensures State() == old(State()).(reminderQueue := [])
      ensures cameraLog == old(cameraLog)
    {
      reminderQueue := [];
    }
  }
}
