/**
 * The countdown worker: a message-driven state machine holding the counter
 * `timeRemaining` and the handle `intervalId` of its one-second interval.
 * The browser's timer table is modelled by `live`, the set of interval
 * handles that are still scheduled, and `nextId`, the next handle
 * `setInterval` hands out. Each method returns the messages the worker
 * posts back.
 */
module TimerWorker {
  import opened Text

  /** Messages the worker posts. */
  datatype Outgoing = TickMsg(timeRemaining: int) | CompleteMsg | ResetMsg | TimeMsg(timeRemaining: int)

  /** Messages the worker receives; `OtherAction` is an action the switch ignores. */
  datatype Incoming = StartAction(time: Option<int>) | PauseAction | ResetAction | GetTimeAction | OtherAction

  /** Everything one interval posts, tick by tick, when it starts from
      counter `t` and runs until it stops itself. */
  function Countdown(t: int): (r: seq<Outgoing>)
    ensures |r| >= 2 && r[|r| - 1] == CompleteMsg && r[0] == TickMsg(t - 1)
    decreases if t > 0 then t else 0
  {
    if t - 1 <= 0 then [TickMsg(t - 1), CompleteMsg] else [TickMsg(t - 1)] + Countdown(t - 1)
  }

  /** An interval started at `t` reports every value from `t - 1` down, one
      per tick, and stops after the first value that is at most 0, with
      exactly one `complete`, the last message. From a positive counter the
      last value reported is 0; from 0 or below it is `t - 1`. */
  lemma {:induction false} CountdownShape(t: int)
    ensures |Countdown(t)| == (if t >= 1 then t else 1) + 1
    ensures forall k :: 0 <= k < |Countdown(t)| - 1 ==> Countdown(t)[k] == TickMsg(t - 1 - k)
    ensures Countdown(t)[|Countdown(t)| - 1] == CompleteMsg
    decreases if t > 0 then t else 0
  {
    if t - 1 > 0 {
      CountdownShape(t - 1);
    }
  }

  class Worker {
    var timeRemaining: int
    var intervalId: Option<nat>
    var live: set<nat>
    var nextId: nat

    /** Interval handles are positive (so they are truthy), and the only
        interval that may still be scheduled is the one `intervalId` names. */
    predicate Valid()
      reads this
    {
      && 0 < nextId
      && (intervalId.Some? ==> 0 < intervalId.value < nextId)
      && (forall i :: i in live ==> intervalId == Some(i))
    }

    /** An interval is scheduled, so its callback keeps running. */
    predicate Ticking()
      reads this
    {
      live != {}
    }

    constructor ()
      ensures Valid() && !Ticking()
      ensures timeRemaining == 0 && intervalId == None
    {
      timeRemaining := 0;
      intervalId := None;
      live := {};
      nextId := 1;
    }

    /** `start`: takes the given time if there is one, clears the interval
        `intervalId` names and schedules a new one. */
    method Start(time: Option<int>) returns (out: seq<Outgoing>)
      requires Valid()
      modifies this
      ensures Valid() && out == []
      ensures timeRemaining == if time.Some? then time.value else old(timeRemaining)
      ensures intervalId == Some(old(nextId)) && live == {old(nextId)}
      ensures old(nextId) !in old(live)
    {
      if time.Some? {
        timeRemaining := time.value;
      }
      if intervalId.Some? {
        live := live - {intervalId.value};
      }
      var id := nextId;
      nextId := nextId + 1;
      live := live + {id};
      intervalId := Some(id);
      out := [];
    }

    /** One run of the interval callback. Once the counter reaches 0 or
        below the interval is cleared, but `intervalId` keeps its handle.
        The messages of this tick followed by those of the ticks still to
        come are exactly the countdown from the counter before this tick. */
    method Tick() returns (out: seq<Outgoing>)
      requires Valid() && Ticking()
      modifies this
      ensures Valid()
      ensures timeRemaining == old(timeRemaining) - 1
      ensures out == if timeRemaining <= 0 then [TickMsg(timeRemaining), CompleteMsg] else [TickMsg(timeRemaining)]
      ensures Ticking() <==> timeRemaining > 0
      ensures intervalId == old(intervalId) && nextId == old(nextId)
      ensures out + (if Ticking() then Countdown(timeRemaining) else []) == Countdown(old(timeRemaining))
    {
      timeRemaining := timeRemaining - 1;
      out := [TickMsg(timeRemaining)];
      if timeRemaining <= 0 {
        if intervalId.Some? {
          live := live - {intervalId.value};
        }
        out := out + [CompleteMsg];
      }
    }

    /** `pause`: stops ticking and keeps the counter. */
    method Pause() returns (out: seq<Outgoing>)
      requires Valid()
      modifies this
      ensures Valid() && !Ticking() && out == []
      ensures intervalId == None && timeRemaining == old(timeRemaining) && nextId == old(nextId)
    {
      if intervalId.Some? {
        live := live - {intervalId.value};
        intervalId := None;
      }
      out := [];
    }

    /** `reset`: stops ticking, zeroes the counter and posts one `reset`. */
    method Reset() returns (out: seq<Outgoing>)
      requires Valid()
      modifies this
      ensures Valid() && !Ticking() && out == [ResetMsg]
      ensures intervalId == None && timeRemaining == 0 && nextId == old(nextId)
    {
      if intervalId.Some? {
        live := live - {intervalId.value};
        intervalId := None;
      }
      timeRemaining := 0;
      out := [ResetMsg];
    }

    /** `getTime`: reports the counter and changes nothing. */
    method GetTime() returns (out: seq<Outgoing>)
      ensures out == [TimeMsg(timeRemaining)]
    {
      out := [TimeMsg(timeRemaining)];
    }

    /** The `onmessage` switch. */
    method OnMessage(m: Incoming) returns (out: seq<Outgoing>)
      requires Valid()
      modifies this
      ensures Valid()
      ensures m.StartAction? ==> Ticking() && out == []
      ensures m.StartAction? ==> timeRemaining == if m.time.Some? then m.time.value else old(timeRemaining)
      ensures m.PauseAction? || m.ResetAction? ==> !Ticking() && intervalId == None
      ensures m.ResetAction? ==> timeRemaining == 0 && out == [ResetMsg]
      ensures m.PauseAction? ==> timeRemaining == old(timeRemaining) && out == []
      ensures m.GetTimeAction? || m.OtherAction? ==> unchanged(this)
      ensures m.GetTimeAction? ==> out == [TimeMsg(timeRemaining)]
      ensures m.OtherAction? ==> out == []
    {
      match m
      case StartAction(time) => out := Start(time);
      case PauseAction => out := Pause();
      case ResetAction => out := Reset();
      case GetTimeAction => out := GetTime();
      case OtherAction => out := [];
    }
  }
}
