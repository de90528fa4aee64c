/**
 The request deadlines of elicitation-handler.ts, which stop while the user answers a prompt of the same server.
 `unpaused` is what the deadlines are meant to measure; nothing in the code keeps it.
 */
module PromptDeadline {
  import opened Options

  /** A timer that is set: it may fire from `due` on, once. */
  datatype Timer = Timer(due: int, fired: bool)

  /**
   One `callToolPausingForElicitation`. `unpaused` is the time without an open prompt since the call was registered
   or last made progress; `expired` says that the deadline aborted the request.
   */
  datatype Deadline = Deadline(
    timeout: int, remaining: int, startedAt: int, timer: Option<Timer>, registered: bool, expired: bool, unpaused: int)

  datatype State = State(now: int, open: nat, deadlines: map<nat, Deadline>)

  datatype Event =
    | Tick(elapsed: nat)
    | PromptOpens
    | PromptCloses
    | CallStarts(id: nat, timeout: int)
    | Progress(id: nat)
    | TimerFires(id: nat)
    | CallEnds(id: nat)

  predicate Enabled(s: State, e: Event) {
    match e
    case Tick(_) => true
    case PromptOpens => true
    case PromptCloses => s.open > 0
    case CallStarts(id, _) => id !in s.deadlines
    case Progress(id) => id in s.deadlines
    case TimerFires(id) =>
      id in s.deadlines && s.deadlines[id].timer.Some? &&
      !s.deadlines[id].timer.value.fired && s.deadlines[id].timer.value.due <= s.now
    case CallEnds(id) => id in s.deadlines && s.deadlines[id].registered
  }

  // ----- the steps -----

  function Paused(d: Deadline, now: int): Deadline {
    if d.timer.None? then d else d.(timer := None, remaining := d.remaining - (now - d.startedAt))
  }

  function Resumed(d: Deadline, now: int): Deadline {
    d.(startedAt := now, timer := Some(Timer(now + if d.remaining > 0 then d.remaining else 0, false)))
  }

  function Progressed(d: Deadline, now: int): Deadline {
    var reset := Paused(d, now).(remaining := d.timeout, unpaused := 0);
    if d.timer.Some? then Resumed(reset, now) else reset
  }

  function Started(timeout: int, open: nat, now: int): Deadline {
    var d := Deadline(timeout, timeout, 0, None, true, false, 0);
    if open == 0 then Resumed(d, now) else d
  }

  /** Time passes for a deadline only while its call runs and no prompt is open. */
  function Aged(d: Deadline, open: nat, elapsed: nat): Deadline {
    if d.registered && open == 0 then d.(unpaused := d.unpaused + elapsed) else d
  }

  function Next(s: State, e: Event): State
    requires Enabled(s, e)
  {
    match e
    case Tick(elapsed) =>
      s.(now := s.now + elapsed, deadlines := map id | id in s.deadlines :: Aged(s.deadlines[id], s.open, elapsed))
    case PromptOpens =>
      s.(open := s.open + 1,
         deadlines := map id | id in s.deadlines ::
           if s.open == 0 && s.deadlines[id].registered then Paused(s.deadlines[id], s.now) else s.deadlines[id])
    case PromptCloses =>
      s.(open := s.open - 1,
         deadlines := map id | id in s.deadlines ::
           if s.open == 1 && s.deadlines[id].registered then Resumed(s.deadlines[id], s.now) else s.deadlines[id])
    case CallStarts(id, timeout) => s.(deadlines := s.deadlines[id := Started(timeout, s.open, s.now)])
    case Progress(id) => s.(deadlines := s.deadlines[id := Progressed(s.deadlines[id], s.now)])
    case TimerFires(id) =>
      var d := s.deadlines[id];
      s.(deadlines := s.deadlines[id := d.(expired := true, timer := Some(d.timer.value.(fired := true)))])
    case CallEnds(id) => s.(deadlines := s.deadlines[id := Paused(s.deadlines[id], s.now).(registered := false)])
  }

  // ----- what holds in every reachable state -----

  /** What is left of the timeout, and the unpaused time, are together the timeout. */
  predicate Conserved(d: Deadline, now: int) {
    match d.timer
    case None => d.remaining + d.unpaused == d.timeout
    case Some(timer) =>
      && 0 <= now - d.startedAt <= d.unpaused
      && d.remaining - (now - d.startedAt) + d.unpaused == d.timeout
      && timer.due == d.startedAt + (if d.remaining > 0 then d.remaining else 0)
  }

  /** The timer runs exactly when no prompt is open, and never for a call that has ended. */
  predicate DeadlineInv(d: Deadline, open: nat, now: int) {
    && (d.timer.Some? <==> d.registered && open == 0)
    && (d.registered ==> Conserved(d, now))
    && 0 <= d.unpaused
  }

  ghost predicate Inv(s: State) {
    forall id :: id in s.deadlines ==> DeadlineInv(s.deadlines[id], s.open, s.now)
  }

  lemma InvStep(s: State, e: Event)
    requires Inv(s) && Enabled(s, e)
    ensures Inv(Next(s, e))
  {
    forall id | id in Next(s, e).deadlines
      ensures DeadlineInv(Next(s, e).deadlines[id], Next(s, e).open, Next(s, e).now)
    {
      if id in s.deadlines {
        assert DeadlineInv(s.deadlines[id], s.open, s.now);
      }
    }
  }

  function Initial(now: int): State { State(now, 0, map[]) }

  ghost predicate Runs(s: State, events: seq<Event>)
    decreases |events|
  {
    events == [] || (Enabled(s, events[0]) && Runs(Next(s, events[0]), events[1..]))
  }

  ghost function Run(s: State, events: seq<Event>): State
    requires Runs(s, events)
    decreases |events|
  {
    if events == [] then s else Run(Next(s, events[0]), events[1..])
  }

  lemma {:induction false} RunKeepsInv(s: State, events: seq<Event>)
    requires Inv(s) && Runs(s, events)
    ensures Inv(Run(s, events))
    decreases |events|
  {
    if events != [] {
      InvStep(s, events[0]);
      RunKeepsInv(Next(s, events[0]), events[1..]);
    }
  }

  // ----- the time of a call, from the events alone -----

  /** The clock, how many prompts are open, and one call: its timeout, the time it has used, and how it has ended. */
  datatype Meter = Meter(now: int, open: int, call: Option<Use>)

  datatype Use = Use(timeout: int, spent: int, ended: bool, expired: bool)

  /** A call uses time while no prompt is open, and has used none when it starts or makes progress. */
  ghost function Metered(m: Meter, e: Event, id: nat): Meter {
    match e
    case Tick(elapsed) =>
      var counts := m.call.Some? && !m.call.value.ended && m.open == 0;
      m.(now := m.now + elapsed,
         call := if counts then Some(m.call.value.(spent := m.call.value.spent + elapsed)) else m.call)
    case PromptOpens => m.(open := m.open + 1)
    case PromptCloses => m.(open := m.open - 1)
    case CallStarts(other, timeout) => if other == id then m.(call := Some(Use(timeout, 0, false, false))) else m
    case Progress(other) => if other == id && m.call.Some? then m.(call := Some(m.call.value.(spent := 0))) else m
    case TimerFires(other) => if other == id && m.call.Some? then m.(call := Some(m.call.value.(expired := true))) else m
    case CallEnds(other) => if other == id && m.call.Some? then m.(call := Some(m.call.value.(ended := true))) else m
  }

  ghost function MeterOf(m: Meter, events: seq<Event>, id: nat): Meter
    decreases |events|
  {
    if events == [] then m else MeterOf(Metered(m, events[0], id), events[1..], id)
  }

  ghost predicate IsMetered(s: State, m: Meter, id: nat) {
    && s.now == m.now && s.open == m.open
    && (id in s.deadlines <==> m.call.Some?)
    && (m.call.Some? ==>
          var d, u := s.deadlines[id], m.call.value;
          && d.timeout == u.timeout && d.unpaused == u.spent && d.registered == !u.ended && d.expired == u.expired
          && (d.timer.Some? && d.timer.value.fired ==> u.expired))
  }

  lemma MeterStep(s: State, m: Meter, e: Event, id: nat)
    requires Enabled(s, e) && IsMetered(s, m, id)
    ensures IsMetered(Next(s, e), Metered(m, e, id), id)
  {}

  lemma {:induction false} RunIsMetered(s: State, m: Meter, events: seq<Event>, id: nat)
    requires Runs(s, events) && IsMetered(s, m, id)
    ensures IsMetered(Run(s, events), MeterOf(m, events, id), id)
    decreases |events|
  {
    if events != [] {
      MeterStep(s, m, events[0], id);
      RunIsMetered(Next(s, events[0]), Metered(m, events[0], id), events[1..], id);
    }
  }

  /**
   However prompts nest and calls start, progress and end: a running call's timer is set exactly when no prompt is
   open, and is due exactly when the call has used up its timeout. So a request is never timed out early, and once its
   own time is used up it has been timed out or can be now.
   */
  lemma TimerMeasuresUnpausedTime(now: int, events: seq<Event>, id: nat)
    requires Runs(Initial(now), events)
    ensures var s, m := Run(Initial(now), events), MeterOf(Meter(now, 0, None), events, id);
      && s.now == m.now && s.open == m.open
      && (id in s.deadlines <==> m.call.Some?)
      && (m.call.Some? ==>
            var timer, u := s.deadlines[id].timer, m.call.value;
            var mayFire := Enabled(s, TimerFires(id));
            && s.deadlines[id].expired == u.expired && s.deadlines[id].registered == !u.ended
            && (timer.Some? <==> !u.ended && m.open == 0)
            && (timer.Some? ==> (timer.value.due <= m.now <==> u.timeout <= u.spent))
            && (mayFire ==> !u.ended && m.open == 0 && u.timeout <= u.spent)
            && (!u.ended && m.open == 0 && u.timeout <= u.spent ==> u.expired || mayFire))
  {
    RunKeepsInv(Initial(now), events);
    RunIsMetered(Initial(now), Meter(now, 0, None), events, id);
    var s := Run(Initial(now), events);
    assert id in s.deadlines ==> DeadlineInv(s.deadlines[id], s.open, s.now);
  }

  /**
   The code raises the SDK's own timer to the largest delay `setTimeout` takes, and caps each timeout at it. No
   timer it sets is longer than the call's timeout, so none overflows that limit and fires at once.
   */
  lemma DelaysNeverExceedTheTimeout(now: int, events: seq<Event>, id: nat)
    requires Runs(Initial(now), events) && id in Run(Initial(now), events).deadlines
    requires Run(Initial(now), events).deadlines[id].registered
    ensures var s := Run(Initial(now), events);
      var d := s.deadlines[id];
      && d.remaining <= d.timeout && Resumed(d, s.now).timer.value.due - s.now <= (if d.timeout > 0 then d.timeout else 0)
      && (d.timer.Some? ==> d.timer.value.due - d.startedAt <= if d.timeout > 0 then d.timeout else 0)
  {
    RunKeepsInv(Initial(now), events);
    assert DeadlineInv(Run(Initial(now), events).deadlines[id], Run(Initial(now), events).open, Run(Initial(now), events).now);
  }

  predicate Concerns(e: Event, id: nat) { (e.Progress? || e.TimerFires? || e.CallEnds?) && e.id == id }

  /** A prompt is open before each event, and none of them is about the call. */
  ghost predicate PromptStaysOpen(s: State, events: seq<Event>, id: nat)
    requires Runs(s, events)
    decreases |events|
  {
    events == [] || (s.open > 0 && !Concerns(events[0], id) && PromptStaysOpen(Next(s, events[0]), events[1..], id))
  }

  /** A running call that waits for prompts to close, and was left this much time, or has just been resumed with it. */
  ghost predicate LeftWith(s: State, id: nat, remaining: int, unpaused: int) {
    && id in s.deadlines && s.deadlines[id].registered
    && s.deadlines[id].remaining == remaining && s.deadlines[id].unpaused == unpaused
    && s.deadlines[id].timer == if s.open > 0 then None else Some(Timer(s.now + if remaining > 0 then remaining else 0, false))
  }

  lemma PromptStep(s: State, e: Event, id: nat, remaining: int, unpaused: int)
    requires Enabled(s, e) && s.open > 0 && !Concerns(e, id) && LeftWith(s, id, remaining, unpaused)
    ensures LeftWith(Next(s, e), id, remaining, unpaused)
  {}

  lemma {:induction false} PromptsLeave(s: State, events: seq<Event>, id: nat, remaining: int, unpaused: int)
    requires Runs(s, events) && PromptStaysOpen(s, events, id) && LeftWith(s, id, remaining, unpaused)
    ensures LeftWith(Run(s, events), id, remaining, unpaused)
    decreases |events|
  {
    if events != [] {
      PromptStep(s, events[0], id, remaining, unpaused);
      PromptsLeave(Next(s, events[0]), events[1..], id, remaining, unpaused);
    }
  }

  /**
   Prompts, however long and however many open and close inside each other, and whatever other calls do meanwhile,
   cost a running call no time: when the last one closes, its timer is set for exactly what was left.
   */
  lemma PromptsCostNothing(s: State, events: seq<Event>, id: nat)
    requires Inv(s) && Runs(s, events) && PromptStaysOpen(s, events, id)
    requires id in s.deadlines && s.deadlines[id].registered && s.open > 0
    ensures LeftWith(Run(s, events), id, s.deadlines[id].remaining, s.deadlines[id].unpaused)
  {
    assert DeadlineInv(s.deadlines[id], s.open, s.now);
    PromptsLeave(s, events, id, s.deadlines[id].remaining, s.deadlines[id].unpaused);
  }

  // ----- the code -----

  class PromptPause {
    var now: int
    var open: nat
    var deadlines: map<nat, Deadline>

    function Abstract(): State
      reads this
    {
      State(now, open, deadlines)
    }

    constructor (now: int)
      ensures Abstract() == Initial(now)
    {
      this.now, open, deadlines := now, 0, map[];
    }

    method Pause(id: nat)
      requires id in deadlines
      modifies this`deadlines
      ensures deadlines == old(deadlines)[id := Paused(old(deadlines)[id], now)]
    {
      var d := deadlines[id];
      if d.timer.None? { return; }
      d := d.(timer := None);
      d := d.(remaining := d.remaining - (now - d.startedAt));
      deadlines := deadlines[id := d];
    }

    method Resume(id: nat)
      requires id in deadlines
      modifies this`deadlines
      ensures deadlines == old(deadlines)[id := Resumed(old(deadlines)[id], now)]
    {
      var d := deadlines[id].(startedAt := now);
      var delay := if d.remaining > 0 then d.remaining else 0;
      deadlines := deadlines[id := d.(timer := Some(Timer(now + delay, false)))];
    }

    function Registered(): set<nat>
      reads this
    {
      set id | id in deadlines && deadlines[id].registered
    }

    method OpenPrompt()
      modifies this
      ensures Abstract() == Next(old(Abstract()), PromptOpens)
    {
      open := open + 1;
      if open == 1 {
        var ids := Registered();
        while ids != {}
          invariant open == old(open) + 1 && now == old(now) && deadlines.Keys == old(deadlines).Keys
          invariant forall id :: id in ids ==> id in deadlines && old(deadlines)[id].registered
          invariant forall id :: id in deadlines ==>
            deadlines[id] == if old(deadlines)[id].registered && id !in ids then Paused(old(deadlines)[id], now)
                             else old(deadlines)[id]
          decreases ids
        {
          var id :| id in ids;
          Pause(id);
          ids := ids - {id};
        }
      }
    }

    method ClosePrompt()
      requires open > 0
      modifies this
      ensures Abstract() == Next(old(Abstract()), PromptCloses)
    {
      open := open - 1;
      if open == 0 {
        var ids := Registered();
        while ids != {}
          invariant open == old(open) - 1 && now == old(now) && deadlines.Keys == old(deadlines).Keys
          invariant forall id :: id in ids ==> id in deadlines && old(deadlines)[id].registered
          invariant forall id :: id in deadlines ==>
            deadlines[id] == if old(deadlines)[id].registered && id !in ids then Resumed(old(deadlines)[id], now)
                             else old(deadlines)[id]
          decreases ids
        {
          var id :| id in ids;
          Resume(id);
          ids := ids - {id};
        }
      }
    }

    method StartCall(id: nat, timeout: int)
      requires id !in deadlines
      modifies this
      ensures Abstract() == Next(old(Abstract()), CallStarts(id, timeout))
    {
      deadlines := deadlines[id := Deadline(timeout, timeout, 0, None, true, false, 0)];
      if open == 0 { Resume(id); }
    }

    method OnProgress(id: nat)
      requires id in deadlines
      modifies this
      ensures Abstract() == Next(old(Abstract()), Event.Progress(id))
    {
      var running := deadlines[id].timer.Some?;
      Pause(id);
      deadlines := deadlines[id := deadlines[id].(remaining := deadlines[id].timeout, unpaused := 0)];
      if running { Resume(id); }
    }

    method EndCall(id: nat)
      requires id in deadlines && deadlines[id].registered
      modifies this
      ensures Abstract() == Next(old(Abstract()), CallEnds(id))
    {
      deadlines := deadlines[id := deadlines[id].(registered := false)];
      Pause(id);
    }
  }
}
