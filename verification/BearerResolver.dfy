/**
 bearer-command-resolver.ts as a step machine: one command-backed token, refreshed by at most one command at a time,
 that many callers wait for. Each step is what runs between two awaits; any interleaving of steps is allowed.
 */
module BearerResolver {
  import opened Options

  type Token = string
  type Error = string

  /** How a caller's promise ends: with a token, with a helper failure, or because the caller aborted. */
  datatype Verdict = Token(token: Token) | Failed(error: Error) | OwnAbort

  /** What the command of a flight gave. The flight's promise settles after its handlers have decided it. */
  datatype Phase =
    | Running
    | Decided(verdict: Verdict, at: int, wasAborted: bool)
    | Settled(verdict: Verdict, at: int, wasAborted: bool)

  datatype Flight = Flight(startedAt: int, phase: Phase, aborted: bool, waiters: int)

  /** A call of `resolve`. */
  datatype Call = Call(flight: Option<nat>, hasSignal: bool, verdict: Option<Verdict>, left: bool)

  datatype Cached = Cached(token: Token, expiresAt: int)
  datatype Failure = Failure(error: Error, retryAt: int)

  datatype State = State(
    ttl: int, now: int, cached: Option<Cached>, failure: Option<Failure>, inflight: Option<nat>,
    flights: map<nat, Flight>, started: nat, calls: map<nat, Call>)

  datatype Signal = NoSignal | Live | AlreadyAborted

  datatype Event =
    | Tick(elapsed: nat)
    | Resolve(call: nat, signal: Signal)
    | CommandEnds(flight: nat, result: CommandResult)
    | FlightSettles(flight: nat)
    | CallerAborts(call: nat)
    | WaiterLeaves(call: nat)

  datatype CommandResult = Output(token: Token) | CommandError(error: Error)

  function Initial(ttl: int, now: int): State {
    State(ttl, now, None, None, None, map[], 0, map[])
  }

  /**
   From its abort on, `runCommand` can only reject, unless its command had ended just before. Then the handlers of
   its promise, already queued, run before the command of a newer flight can end.
   */
  predicate MayStillGiveOutput(s: State) {
    s.inflight.Some? && s.inflight.value in s.flights ==> s.flights[s.inflight.value].phase.Running?
  }

  predicate Enabled(s: State, e: Event) {
    match e
    case Tick(_) => true
    case Resolve(c, _) => c !in s.calls
    case CommandEnds(f, result) =>
      f in s.flights && s.flights[f].phase.Running? && (s.flights[f].aborted && result.Output? ==> MayStillGiveOutput(s))
    case FlightSettles(f) => f in s.flights && s.flights[f].phase.Decided?
    case CallerAborts(c) => c in s.calls && s.calls[c].hasSignal && s.calls[c].flight.Some? && !s.calls[c].left
    case WaiterLeaves(c) =>
      c in s.calls && s.calls[c].flight.Some? && s.calls[c].flight.value in s.flights &&
      s.calls[c].verdict.Some? && !s.calls[c].left
  }

  // ----- the steps -----

  /** A call that needs no flight is answered at once. */
  function Answer(s: State, signal: Signal): Option<Verdict> {
    if signal.AlreadyAborted? then Some(OwnAbort)
    else if s.cached.Some? && s.now < s.cached.value.expiresAt then Some(Token(s.cached.value.token))
    else if s.failure.Some? && s.now < s.failure.value.retryAt then
      Some(if s.cached.Some? then Token(s.cached.value.token) else Failed(s.failure.value.error))
    else None
  }

  function Resolved(s: State, c: nat, signal: Signal): State {
    var answer := Answer(s, signal);
    var call := Call(None, signal.Live?, answer, answer.Some?);
    if answer.Some? then s.(calls := s.calls[c := call])
    else if s.inflight.Some? && s.inflight.value in s.flights then
      var f := s.inflight.value;
      var flight := s.flights[f];
      s.(flights := s.flights[f := flight.(waiters := flight.waiters + 1)], calls := s.calls[c := call.(flight := Some(f))])
    else
      var f := s.started;
      s.(flights := s.flights[f := Flight(s.now, Running, false, 1)], started := f + 1, inflight := Some(f),
         calls := s.calls[c := call.(flight := Some(f))])
  }

  function Ended(s: State, f: nat, result: CommandResult): State
    requires f in s.flights
  {
    var flight := s.flights[f];
    match result
    case Output(token) =>
      s.(cached := Some(Cached(token, s.now + s.ttl)), failure := None,
         flights := s.flights[f := flight.(phase := Decided(Token(token), s.now, flight.aborted))])
    case CommandError(error) =>
      var verdict := if s.cached.Some? then Token(s.cached.value.token) else Failed(error);
      s.(failure := if flight.aborted then s.failure else Some(Failure(error, s.now + s.ttl)),
         flights := s.flights[f := flight.(phase := Decided(verdict, s.now, flight.aborted))])
  }

  /** The flight's promise settles: it stops being in flight, and every undecided call that waits for it takes its verdict. */
  function Settles(s: State, f: nat): State
    requires f in s.flights && s.flights[f].phase.Decided?
  {
    var flight := s.flights[f];
    var Decided(verdict, at, wasAborted) := flight.phase;
    s.(inflight := if s.inflight == Some(f) then None else s.inflight,
       flights := s.flights[f := flight.(phase := Settled(verdict, at, wasAborted))],
       calls := map c | c in s.calls ::
         if s.calls[c].flight == Some(f) && s.calls[c].verdict.None? then s.calls[c].(verdict := Some(verdict)) else s.calls[c])
  }

  function Aborts(s: State, c: nat): State
    requires c in s.calls
  {
    if s.calls[c].verdict.Some? then s else s.(calls := s.calls[c := s.calls[c].(verdict := Some(OwnAbort))])
  }

  function Leaves(s: State, c: nat): State
    requires c in s.calls && s.calls[c].flight.Some? && s.calls[c].flight.value in s.flights
  {
    var f := s.calls[c].flight.value;
    var flight := s.flights[f];
    var waiters := flight.waiters - 1;
    var last := s.inflight == Some(f) && waiters == 0;
    s.(calls := s.calls[c := s.calls[c].(left := true)],
       inflight := if last then None else s.inflight,
       flights := s.flights[f := flight.(waiters := waiters, aborted := flight.aborted || last)])
  }

  function Next(s: State, e: Event): State
    requires Enabled(s, e)
  {
    match e
    case Tick(elapsed) => s.(now := s.now + elapsed)
    case Resolve(c, signal) => Resolved(s, c, signal)
    case CommandEnds(f, result) => Ended(s, f, result)
    case FlightSettles(f) => Settles(s, f)
    case CallerAborts(c) => Aborts(s, c)
    case WaiterLeaves(c) => Leaves(s, c)
  }

  // ----- what holds in every reachable state -----

  function Waiting(s: State, f: nat): set<nat> {
    set c | c in s.calls && s.calls[c].flight == Some(f) && !s.calls[c].left
  }

  predicate Rejects(p: Phase) { !p.Running? && p.verdict.Failed? }

  /** At most one unaborted flight is unsettled, and it is the one new callers join. */
  ghost predicate SingleFlight(s: State) {
    && (s.inflight.Some? ==> s.inflight.value in s.flights)
    && (forall f :: f in s.flights ==>
          (s.inflight == Some(f) <==> !s.flights[f].aborted && !s.flights[f].phase.Settled?))
    && (forall f :: f in s.flights ==> f < s.started)
    && (forall f :: f in s.flights && !s.flights[f].phase.Running? ==> !s.flights[f].phase.verdict.OwnAbort?)
  }

  /** A flight counts exactly the calls that wait for it, and is aborted only when none does. */
  ghost predicate WaitersCounted(s: State) {
    && (forall c :: c in s.calls && s.calls[c].flight.Some? ==> s.calls[c].flight.value in s.flights)
    && (forall f :: f in s.flights ==> s.flights[f].waiters == |Waiting(s, f)|)
    && (forall f :: f in s.flights && s.flights[f].aborted ==> Waiting(s, f) == {})
    && (forall f :: s.inflight == Some(f) ==> Waiting(s, f) != {})
  }

  /** A call that waits is undecided only while its flight can still decide it. */
  ghost predicate NobodyForgotten(s: State) {
    forall c :: c in s.calls && s.calls[c].verdict.None? ==>
      && !s.calls[c].left && s.calls[c].flight.Some? && s.calls[c].flight.value in s.flights
      && !s.flights[s.calls[c].flight.value].phase.Settled?
  }

  /** Once a token is cached, no flight that a call waits for fails. */
  ghost predicate NoFailureAfterSuccess(s: State) {
    s.cached.Some? && s.inflight.Some? && s.inflight.value in s.flights ==> !Rejects(s.flights[s.inflight.value].phase)
  }

  /** Until when a cached token or a failure keeps new commands from starting. */
  ghost predicate LockedUntil(s: State, t: int) {
    (s.cached.Some? && t <= s.cached.value.expiresAt) || (s.failure.Some? && t <= s.failure.value.retryAt)
  }

  predicate CompletedUnaborted(f: Flight) { !f.phase.Running? && !f.phase.wasAborted }

  /** Between the end of an unaborted command and the start of any later one, the whole TTL passes. */
  ghost predicate TtlApart(s: State) {
    && (forall f :: f in s.flights && CompletedUnaborted(s.flights[f]) ==>
          s.flights[f].phase.at <= s.now && LockedUntil(s, s.flights[f].phase.at + s.ttl))
    && (forall f, g :: f in s.flights && g in s.flights && f < g && s.flights[f].phase.Running? ==> s.flights[f].aborted)
    && (forall f, g :: f in s.flights && g in s.flights && f < g && CompletedUnaborted(s.flights[f]) ==>
          s.flights[f].phase.at + s.ttl <= s.flights[g].startedAt)
  }

  ghost predicate Inv(s: State) {
    SingleFlight(s) && WaitersCounted(s) && NobodyForgotten(s) && NoFailureAfterSuccess(s) && TtlApart(s)
  }

  // ----- every step keeps it -----

  /** A flight is left to nobody exactly when its counter comes down to zero. */
  lemma LastWaiterLeaves(s: State, c: nat)
    requires Inv(s) && Enabled(s, WaiterLeaves(c))
    ensures var f := s.calls[c].flight.value;
      && Waiting(Leaves(s, c), f) == Waiting(s, f) - {c}
      && |Waiting(s, f) - {c}| == s.flights[f].waiters - 1
      && (s.flights[f].waiters - 1 == 0 <==> Waiting(s, f) - {c} == {})
      && forall g :: g in s.flights && g != f ==> Waiting(Leaves(s, c), g) == Waiting(s, g)
  {
    assert c in Waiting(s, s.calls[c].flight.value);
  }

  lemma LeavesKeepsSingleFlight(s: State, c: nat)
    requires SingleFlight(s) && Enabled(s, WaiterLeaves(c))
    ensures SingleFlight(Leaves(s, c))
  {}

  lemma LeavesKeepsCounts(s: State, c: nat)
    requires Inv(s) && Enabled(s, WaiterLeaves(c))
    ensures WaitersCounted(Leaves(s, c))
  {
    LastWaiterLeaves(s, c);
  }

  lemma LeavesKeepsVerdicts(s: State, c: nat)
    requires Inv(s) && Enabled(s, WaiterLeaves(c))
    ensures NobodyForgotten(Leaves(s, c)) && NoFailureAfterSuccess(Leaves(s, c))
  {}

  /** The same command, as far as the TTL goes. */
  predicate SameTimes(f: Flight, g: Flight) {
    && f.startedAt == g.startedAt && (f.aborted ==> g.aborted) && (f.phase.Running? <==> g.phase.Running?)
    && (!f.phase.Running? ==> f.phase.at == g.phase.at && f.phase.wasAborted == g.phase.wasAborted)
  }

  lemma SameTimesKeepTtl(s: State, t: State)
    requires TtlApart(s) && (t.ttl, t.now, t.cached, t.failure) == (s.ttl, s.now, s.cached, s.failure)
    requires t.flights.Keys == s.flights.Keys && forall f :: f in s.flights ==> SameTimes(s.flights[f], t.flights[f])
    ensures TtlApart(t)
  {}

  lemma LeavesKeepsTtl(s: State, c: nat)
    requires TtlApart(s) && Enabled(s, WaiterLeaves(c))
    ensures TtlApart(Leaves(s, c))
  {
    SameTimesKeepTtl(s, Leaves(s, c));
  }

  lemma AbortsKeepsCounts(s: State, c: nat)
    requires WaitersCounted(s) && Enabled(s, CallerAborts(c))
    ensures WaitersCounted(Aborts(s, c))
  {
    var t := Aborts(s, c);
    assert forall f :: f in s.flights || s.inflight == Some(f) ==> Waiting(t, f) == Waiting(s, f);
  }

  lemma AbortsKeepsInv(s: State, c: nat)
    requires Inv(s) && Enabled(s, CallerAborts(c))
    ensures Inv(Aborts(s, c))
  {
    AbortsKeepsCounts(s, c);
    SameTimesKeepTtl(s, Aborts(s, c));
  }

  lemma SettlesKeepsSingleFlight(s: State, f: nat)
    requires SingleFlight(s) && Enabled(s, FlightSettles(f))
    ensures SingleFlight(Settles(s, f))
  {}

  lemma SettlesKeepsCounts(s: State, f: nat)
    requires WaitersCounted(s) && Enabled(s, FlightSettles(f))
    ensures WaitersCounted(Settles(s, f))
  {
    assert forall g :: g in s.flights ==> Waiting(Settles(s, f), g) == Waiting(s, g);
  }

  lemma SettlesKeepsVerdicts(s: State, f: nat)
    requires Inv(s) && Enabled(s, FlightSettles(f))
    ensures NobodyForgotten(Settles(s, f)) && NoFailureAfterSuccess(Settles(s, f))
  {}

  lemma SettlesKeepsTtl(s: State, f: nat)
    requires TtlApart(s) && Enabled(s, FlightSettles(f))
    ensures TtlApart(Settles(s, f))
  {
    SameTimesKeepTtl(s, Settles(s, f));
  }

  lemma EndedKeepsCounts(s: State, f: nat, result: CommandResult)
    requires Inv(s) && Enabled(s, CommandEnds(f, result))
    ensures SingleFlight(Ended(s, f, result)) && WaitersCounted(Ended(s, f, result))
  {
    assert forall g :: g in s.flights ==> Waiting(Ended(s, f, result), g) == Waiting(s, g);
  }

  lemma EndedKeepsVerdicts(s: State, f: nat, result: CommandResult)
    requires Inv(s) && Enabled(s, CommandEnds(f, result))
    ensures NobodyForgotten(Ended(s, f, result)) && NoFailureAfterSuccess(Ended(s, f, result))
  {}

  lemma EndedKeepsTtl(s: State, f: nat, result: CommandResult)
    requires Inv(s) && Enabled(s, CommandEnds(f, result))
    ensures TtlApart(Ended(s, f, result))
  {
    match result
    case Output(_) =>
    case CommandError(_) =>
  }

  lemma AnswerKeepsCounts(s: State, c: nat, signal: Signal)
    requires WaitersCounted(s) && Enabled(s, Resolve(c, signal)) && Answer(s, signal).Some?
    ensures WaitersCounted(Resolved(s, c, signal))
  {
    var t := Resolved(s, c, signal);
    assert forall f :: f in s.flights || s.inflight == Some(f) ==> Waiting(t, f) == Waiting(s, f);
  }

  lemma AnswerKeepsInv(s: State, c: nat, signal: Signal)
    requires Inv(s) && Enabled(s, Resolve(c, signal)) && Answer(s, signal).Some?
    ensures Inv(Resolved(s, c, signal))
  {
    AnswerKeepsCounts(s, c, signal);
  }

  lemma JoinKeepsSingleFlight(s: State, c: nat, signal: Signal)
    requires Inv(s) && Enabled(s, Resolve(c, signal)) && Answer(s, signal).None? && s.inflight.Some?
    ensures SingleFlight(Resolved(s, c, signal))
  {}

  lemma JoinKeepsCounts(s: State, c: nat, signal: Signal)
    requires SingleFlight(s) && WaitersCounted(s) && Enabled(s, Resolve(c, signal)) && Answer(s, signal).None? && s.inflight.Some?
    ensures WaitersCounted(Resolved(s, c, signal))
  {
    var t, f := Resolved(s, c, signal), s.inflight.value;
    assert Waiting(t, f) == Waiting(s, f) + {c} && c !in Waiting(s, f);
    assert forall g :: g in s.flights && g != f ==> Waiting(t, g) == Waiting(s, g);
  }

  lemma JoinKeepsVerdicts(s: State, c: nat, signal: Signal)
    requires Inv(s) && Enabled(s, Resolve(c, signal)) && Answer(s, signal).None? && s.inflight.Some?
    ensures NobodyForgotten(Resolved(s, c, signal)) && NoFailureAfterSuccess(Resolved(s, c, signal))
  {}

  lemma JoinKeepsTtl(s: State, c: nat, signal: Signal)
    requires Inv(s) && Enabled(s, Resolve(c, signal)) && Answer(s, signal).None? && s.inflight.Some?
    ensures TtlApart(Resolved(s, c, signal))
  {
    SameTimesKeepTtl(s, Resolved(s, c, signal));
  }

  lemma StartKeepsCounts(s: State, c: nat, signal: Signal)
    requires Inv(s) && Enabled(s, Resolve(c, signal)) && Answer(s, signal).None? && s.inflight.None?
    ensures SingleFlight(Resolved(s, c, signal)) && WaitersCounted(Resolved(s, c, signal))
  {
    var t, f := Resolved(s, c, signal), s.started;
    assert Waiting(t, f) == {c};
    assert forall g :: g in s.flights ==> Waiting(t, g) == Waiting(s, g);
  }

  lemma StartKeepsVerdicts(s: State, c: nat, signal: Signal)
    requires Inv(s) && Enabled(s, Resolve(c, signal)) && Answer(s, signal).None? && s.inflight.None?
    ensures NobodyForgotten(Resolved(s, c, signal)) && NoFailureAfterSuccess(Resolved(s, c, signal))
  {}

  lemma StartKeepsTtl(s: State, c: nat, signal: Signal)
    requires Inv(s) && Enabled(s, Resolve(c, signal)) && Answer(s, signal).None? && s.inflight.None?
    ensures TtlApart(Resolved(s, c, signal))
  {}

  lemma TickKeepsInv(s: State, elapsed: nat)
    requires Inv(s)
    ensures Inv(s.(now := s.now + elapsed))
  {
    assert forall f :: Waiting(s.(now := s.now + elapsed), f) == Waiting(s, f);
  }

  lemma InvStep(s: State, e: Event)
    requires Inv(s) && Enabled(s, e)
    ensures Inv(Next(s, e))
  {
    match e
    case Tick(elapsed) => TickKeepsInv(s, elapsed);
    case Resolve(c, signal) =>
      if Answer(s, signal).Some? { AnswerKeepsInv(s, c, signal); }
      else if s.inflight.Some? {
        JoinKeepsSingleFlight(s, c, signal); JoinKeepsCounts(s, c, signal);
        JoinKeepsVerdicts(s, c, signal); JoinKeepsTtl(s, c, signal);
      }
      else { StartKeepsCounts(s, c, signal); StartKeepsVerdicts(s, c, signal); StartKeepsTtl(s, c, signal); }
    case CommandEnds(f, result) => EndedKeepsCounts(s, f, result); EndedKeepsVerdicts(s, f, result); EndedKeepsTtl(s, f, result);
    case FlightSettles(f) =>
      SettlesKeepsSingleFlight(s, f); SettlesKeepsCounts(s, f); SettlesKeepsVerdicts(s, f); SettlesKeepsTtl(s, f);
    case CallerAborts(c) => AbortsKeepsInv(s, c);
    case WaiterLeaves(c) =>
      LeavesKeepsSingleFlight(s, c); LeavesKeepsCounts(s, c); LeavesKeepsVerdicts(s, c); LeavesKeepsTtl(s, c);
  }

  // ----- whole runs -----

  ghost predicate Runs(s: State, events: seq<Event>)
    decreases |events|
  {
    events == [] || (Enabled(s, events[0]) && Runs(Next(s, events[0]), events[1..]))
  }

  ghost function Run(s: State, events: seq<Event>): State
    requires Runs(s, events)
    decreases |events|
  {
    if events == [] then s else Run(Next(s, events[0]), events[1..])
  }

  lemma {:induction false} RunKeepsInv(s: State, events: seq<Event>)
    requires Inv(s) && Runs(s, events)
    ensures Inv(Run(s, events)) && Run(s, events).ttl == s.ttl
    decreases |events|
  {
    if events != [] {
      InvStep(s, events[0]);
      RunKeepsInv(Next(s, events[0]), events[1..]);
    }
  }

  predicate Unfinished(f: Flight) { !f.aborted && !f.phase.Settled? }

  /** In every interleaving: one unaborted command at a time, and an aborted one has nobody waiting for it. */
  lemma OneFlightAndNoAbandonedWaiter(ttl: int, now: int, events: seq<Event>)
    requires Runs(Initial(ttl, now), events)
    ensures var s := Run(Initial(ttl, now), events);
      && (forall f, g ::
            (f in s.flights && g in s.flights && Unfinished(s.flights[f]) && Unfinished(s.flights[g])) ==> f == g)
      && (forall c :: c in s.calls && !s.calls[c].left && s.calls[c].flight.Some? ==>
            s.calls[c].flight.value in s.flights && !s.flights[s.calls[c].flight.value].aborted)
      && (forall f :: f in s.flights ==> s.flights[f].waiters == |Waiting(s, f)|)
  {
    RunKeepsInv(Initial(ttl, now), events);
    var s := Run(Initial(ttl, now), events);
    forall c | c in s.calls && !s.calls[c].left && s.calls[c].flight.Some?
      ensures !s.flights[s.calls[c].flight.value].aborted
    {
      assert c in Waiting(s, s.calls[c].flight.value);
    }
  }

  /** In every interleaving, the TTL passes between the end of an unaborted command and the start of the next one. */
  lemma CommandsAreATtlApart(ttl: int, now: int, events: seq<Event>)
    requires Runs(Initial(ttl, now), events)
    ensures var s := Run(Initial(ttl, now), events);
      forall f, g :: f in s.flights && g in s.flights && f < g && CompletedUnaborted(s.flights[f]) ==>
        s.flights[f].phase.at + ttl <= s.flights[g].startedAt
  {
    RunKeepsInv(Initial(ttl, now), events);
  }

  /** An aborted command never opens a failure window, and a token is never forgotten. */
  lemma AbortIsNoOutage(s: State, e: Event)
    requires Enabled(s, e)
    ensures e.CommandEnds? && s.flights[e.flight].aborted ==>
      Next(s, e).failure == (if e.result.Output? then None else s.failure)
    ensures s.cached.Some? ==> Next(s, e).cached.Some?
    ensures Next(s, e).failure.Some? && Next(s, e).failure != s.failure ==>
      e.CommandEnds? && e.result.CommandError? && !s.flights[e.flight].aborted
  {}

  /** The call has been rejected, and not by its own caller's abort. */
  predicate IsRejected(s: State, c: nat) {
    c in s.calls && s.calls[c].verdict.Some? && s.calls[c].verdict.value.Failed?
  }

  /** With a token cached, no step rejects a call that was not rejected already, whether it waits or is just made. */
  lemma NoNewRejection(s: State, e: Event, c: nat)
    requires Inv(s) && s.cached.Some? && Enabled(s, e) && !IsRejected(s, c)
    ensures !IsRejected(Next(s, e), c) && Next(s, e).cached.Some?
  {
    if e.FlightSettles? && c in s.calls && s.calls[c].flight == Some(e.flight) && s.calls[c].verdict.None? {
      assert c in Waiting(s, e.flight);
    }
  }

  lemma {:induction false} NoLaterRejection(s: State, events: seq<Event>, c: nat)
    requires Inv(s) && s.cached.Some? && Runs(s, events) && !IsRejected(s, c)
    ensures !IsRejected(Run(s, events), c)
    decreases |events|
  {
    if events != [] {
      InvStep(s, events[0]);
      NoNewRejection(s, events[0], c);
      NoLaterRejection(Next(s, events[0]), events[1..], c);
    }
  }

  /**
   Once a command has succeeded, whatever happens then, no call is rejected but by its own caller's abort, neither
   one made from then on nor one that was waiting.
   */
  lemma NoRejectionAfterSuccess(ttl: int, now: int, before: seq<Event>, after: seq<Event>, c: nat)
    requires Runs(Initial(ttl, now), before)
    requires Run(Initial(ttl, now), before).cached.Some? && Runs(Run(Initial(ttl, now), before), after)
    ensures IsRejected(Run(Run(Initial(ttl, now), before), after), c) ==> IsRejected(Run(Initial(ttl, now), before), c)
  {
    RunKeepsInv(Initial(ttl, now), before);
    if !IsRejected(Run(Initial(ttl, now), before), c) {
      NoLaterRejection(Run(Initial(ttl, now), before), after, c);
    }
  }

  /** A verdict, once there, stays, and only the caller's own signal makes it an abort. */
  lemma OwnAbortIsTheCallers(s: State, e: Event, c: nat)
    requires Inv(s) && Enabled(s, e) && c in Next(s, e).calls
    ensures c in s.calls && s.calls[c].verdict.Some? ==> Next(s, e).calls[c].verdict == s.calls[c].verdict
    ensures Next(s, e).calls[c].verdict == Some(OwnAbort) && !(c in s.calls && s.calls[c].verdict == Some(OwnAbort)) ==>
      e == CallerAborts(c) || e == Resolve(c, AlreadyAborted)
  {}

  // ----- which token is handed out, by what the commands put out -----

  datatype Reading = Reading(token: Token, at: int)
  datatype Outage = Outage(error: Error, at: int)
  datatype Ending = Ending(verdict: Verdict, at: int)

  /** The time, the last token a command put out, the last failure since then, how commands ended, and who has settled. */
  datatype Log = Log(time: int, last: Option<Reading>, outage: Option<Outage>, endings: map<nat, Ending>, settled: set<nat>)

  /** What the log notes of an event. Of a flight that ends it is told whether it was aborted. */
  ghost function Noted(log: Log, e: Event, aborted: bool): Log {
    match e
    case Tick(elapsed) => log.(time := log.time + elapsed)
    case CommandEnds(f, Output(token)) =>
      log.(last := Some(Reading(token, log.time)), outage := None, endings := log.endings[f := Ending(Token(token), log.time)])
    case CommandEnds(f, CommandError(error)) =>
      var verdict := if log.last.Some? then Token(log.last.value.token) else Failed(error);
      log.(outage := if aborted then log.outage else Some(Outage(error, log.time)),
           endings := log.endings[f := Ending(verdict, log.time)])
    case FlightSettles(f) => log.(settled := log.settled + {f})
    case Resolve(_, _) => log
    case CallerAborts(_) => log
    case WaiterLeaves(_) => log
  }

  ghost predicate EndsAborted(s: State, e: Event) {
    e.CommandEnds? && e.flight in s.flights && s.flights[e.flight].aborted
  }

  ghost function LogOf(s: State, log: Log, events: seq<Event>): Log
    requires Runs(s, events)
    decreases |events|
  {
    if events == [] then log
    else LogOf(Next(s, events[0]), Noted(log, events[0], EndsAborted(s, events[0])), events[1..])
  }

  ghost function EmptyLog(now: int): Log { Log(now, None, None, map[], {}) }

  /** The phase of a flight is what the log has of it. */
  ghost predicate PhaseIsLogged(phase: Phase, f: nat, log: Log) {
    && (phase.Running? <==> f !in log.endings)
    && (phase.Settled? <==> f in log.settled)
    && (!phase.Running? && f in log.endings ==> phase.verdict == log.endings[f].verdict && phase.at == log.endings[f].at)
  }

  ghost predicate FlightsAreLogged(s: State, log: Log) {
    && (forall f :: f in s.flights ==> PhaseIsLogged(s.flights[f].phase, f, log))
    && (forall f :: f in log.endings || f in log.settled ==> f in s.flights)
  }

  /** The state holds the last token for the TTL from when it was read, and the last failure since then likewise. */
  ghost predicate HoldsLast(s: State, log: Log) {
    && s.now == log.time
    && s.cached == (if log.last.None? then None else Some(Cached(log.last.value.token, log.last.value.at + s.ttl)))
    && s.failure == (if log.outage.None? then None else Some(Failure(log.outage.value.error, log.outage.value.at + s.ttl)))
  }

  lemma HoldsLastStep(s: State, log: Log, e: Event)
    requires Enabled(s, e) && HoldsLast(s, log)
    ensures HoldsLast(Next(s, e), Noted(log, e, EndsAborted(s, e))) && Next(s, e).ttl == s.ttl
  {}

  lemma SamePhasesAreLogged(s: State, t: State, log: Log)
    requires FlightsAreLogged(s, log) && s.flights.Keys <= t.flights.Keys
    requires forall f :: f in t.flights ==> t.flights[f].phase == if f in s.flights then s.flights[f].phase else Running
    ensures FlightsAreLogged(t, log)
  {
    forall f | f in t.flights ensures PhaseIsLogged(t.flights[f].phase, f, log) {}
  }

  lemma EndedIsLogged(s: State, log: Log, f: nat, result: CommandResult)
    requires Enabled(s, CommandEnds(f, result)) && HoldsLast(s, log) && FlightsAreLogged(s, log)
    ensures FlightsAreLogged(Ended(s, f, result), Noted(log, CommandEnds(f, result), s.flights[f].aborted))
  {
    var t, noted := Ended(s, f, result), Noted(log, CommandEnds(f, result), s.flights[f].aborted);
    forall g | g in t.flights ensures PhaseIsLogged(t.flights[g].phase, g, noted) {
      assert PhaseIsLogged(s.flights[g].phase, g, log);
    }
  }

  lemma SettledIsLogged(s: State, log: Log, f: nat)
    requires Enabled(s, FlightSettles(f)) && FlightsAreLogged(s, log)
    ensures FlightsAreLogged(Settles(s, f), Noted(log, FlightSettles(f), false))
  {
    var t, noted := Settles(s, f), Noted(log, FlightSettles(f), false);
    forall g | g in t.flights ensures PhaseIsLogged(t.flights[g].phase, g, noted) {
      assert PhaseIsLogged(s.flights[g].phase, g, log);
    }
  }

  lemma FlightsStep(s: State, log: Log, e: Event)
    requires Inv(s) && Enabled(s, e) && HoldsLast(s, log) && FlightsAreLogged(s, log)
    ensures FlightsAreLogged(Next(s, e), Noted(log, e, EndsAborted(s, e)))
  {
    match e
    case Tick(_) => SamePhasesAreLogged(s, Next(s, e), log);
    case Resolve(_, _) => SamePhasesAreLogged(s, Next(s, e), log);
    case CommandEnds(f, result) => EndedIsLogged(s, log, f, result);
    case FlightSettles(f) => SettledIsLogged(s, log, f);
    case CallerAborts(_) => SamePhasesAreLogged(s, Next(s, e), log);
    case WaiterLeaves(_) => SamePhasesAreLogged(s, Next(s, e), log);
  }

  lemma {:induction false} RunIsLogged(s: State, log: Log, events: seq<Event>)
    requires Inv(s) && Runs(s, events) && HoldsLast(s, log) && FlightsAreLogged(s, log)
    ensures var t, noted := Run(s, events), LogOf(s, log, events);
      Inv(t) && HoldsLast(t, noted) && FlightsAreLogged(t, noted) && t.ttl == s.ttl
    decreases |events|
  {
    if events != [] {
      InvStep(s, events[0]);
      HoldsLastStep(s, log, events[0]);
      FlightsStep(s, log, events[0]);
      RunIsLogged(Next(s, events[0]), Noted(log, events[0], EndsAborted(s, events[0])), events[1..]);
    }
  }

  /** A call that is made gets the last token within its TTL, that or the failure in a failure window, or else waits. */
  ghost predicate AnsweredByLog(s: State, t: State, c: nat, signal: Signal, log: Log) {
    && c in t.calls
    && (t.calls[c].hasSignal <==> signal.Live?)
    && var call := t.calls[c];
       if signal.AlreadyAborted? then call.verdict == Some(OwnAbort)
       else if log.last.Some? && log.time < log.last.value.at + s.ttl then call.verdict == Some(Token(log.last.value.token))
       else if log.outage.Some? && log.time < log.outage.value.at + s.ttl then
         call.verdict == Some(if log.last.Some? then Token(log.last.value.token) else Failed(log.outage.value.error))
       else
         && call.verdict.None? && !call.left && call.flight.Some? && WaitsFor(s, t, call.flight.value, log)
  }

  /** The flight is the one unaborted flight that has not settled, or one that starts now where there is none. */
  ghost predicate WaitsFor(s: State, t: State, f: nat, log: Log) {
    && f in t.flights && Unfinished(t.flights[f])
    && (f in s.flights ==> Unfinished(s.flights[f]) && t.flights[f].startedAt == s.flights[f].startedAt)
    && (f !in s.flights ==>
          && t.flights[f].phase.Running? && t.flights[f].startedAt == log.time
          && forall g :: g in s.flights ==> !Unfinished(s.flights[g]))
  }

  /** A waiting call is decided by how its flight ended, when that settles, or by its own abort, and by nothing else. */
  ghost predicate DecidedByLog(s: State, t: State, e: Event, c: nat, log: Log)
    requires c in s.calls
  {
    && c in t.calls && t.calls[c].flight == s.calls[c].flight && t.calls[c].hasSignal == s.calls[c].hasSignal
    && (t.calls[c].left <==> s.calls[c].left || e == WaiterLeaves(c))
    && t.calls[c].verdict ==
       if s.calls[c].verdict.Some? then s.calls[c].verdict
       else if e.FlightSettles? && s.calls[c].flight == Some(e.flight) && e.flight in log.endings then
         Some(log.endings[e.flight].verdict)
       else if e == CallerAborts(c) then Some(OwnAbort)
       else None
  }

  /** A flight is aborted when its last waiter leaves it unsettled, and only then. */
  ghost predicate AbortedByLastLeaver(s: State, t: State, e: Event, f: nat)
    requires f in s.flights
  {
    && f in t.flights && t.flights[f].startedAt == s.flights[f].startedAt
    && (t.flights[f].aborted <==>
        || s.flights[f].aborted
        || (e.WaiterLeaves? && Waiting(s, f) == {e.call} && !s.flights[f].phase.Settled?))
  }

  lemma CallIsAnswered(s: State, c: nat, signal: Signal, log: Log)
    requires Inv(s) && HoldsLast(s, log) && Enabled(s, Resolve(c, signal))
    ensures AnsweredByLog(s, Next(s, Resolve(c, signal)), c, signal, log)
  {}

  lemma CallIsDecided(s: State, e: Event, c: nat, log: Log)
    requires Inv(s) && FlightsAreLogged(s, log) && Enabled(s, e) && c in s.calls
    ensures DecidedByLog(s, Next(s, e), e, c, log)
  {}

  lemma FlightIsAborted(s: State, e: Event, f: nat)
    requires Inv(s) && Enabled(s, e) && f in s.flights
    ensures AbortedByLastLeaver(s, Next(s, e), e, f)
  {
    if e.WaiterLeaves? {
      LastWaiterLeaves(s, e.call);
    }
  }

  /**
   In every interleaving, every call gets what the log says: the token read last, while it or a failure window lasts,
   and otherwise what the command of the flight it waits for put out, or the token read last if that command failed.
   */
  lemma TokensAreTheCommands(ttl: int, now: int, events: seq<Event>, e: Event)
    requires Runs(Initial(ttl, now), events) && Enabled(Run(Initial(ttl, now), events), e)
    ensures var s, log := Run(Initial(ttl, now), events), LogOf(Initial(ttl, now), EmptyLog(now), events);
      && s.ttl == ttl && HoldsLast(s, log) && FlightsAreLogged(s, log)
      && (e.Resolve? ==> AnsweredByLog(s, Next(s, e), e.call, e.signal, log))
      && (forall c :: c in s.calls ==> DecidedByLog(s, Next(s, e), e, c, log))
      && (forall f :: f in s.flights ==> AbortedByLastLeaver(s, Next(s, e), e, f))
  {
    RunIsLogged(Initial(ttl, now), EmptyLog(now), events);
    var s, log := Run(Initial(ttl, now), events), LogOf(Initial(ttl, now), EmptyLog(now), events);
    if e.Resolve? { CallIsAnswered(s, e.call, e.signal, log); }
    forall c | c in s.calls ensures DecidedByLog(s, Next(s, e), e, c, log) { CallIsDecided(s, e, c, log); }
    forall f | f in s.flights ensures AbortedByLastLeaver(s, Next(s, e), e, f) { FlightIsAborted(s, e, f); }
  }

  // ----- the class -----

  /** The class whose steps these are. Each method is one step, so `InvStep` says what its callers can rely on. */
  class BearerCommandResolver {
    const ttl: int
    var now: int
    var cached: Option<Cached>
    var failure: Option<Failure>
    var inflight: Option<nat>
    var flights: map<nat, Flight>
    var started: nat
    var calls: map<nat, Call>

    function Abstract(): State
      reads this
    {
      State(ttl, now, cached, failure, inflight, flights, started, calls)
    }

    constructor (ttl: int, now: int)
      ensures Abstract() == Initial(ttl, now)
    {
      this.ttl, this.now := ttl, now;
      cached, failure, inflight, flights, started, calls := None, None, None, map[], 0, map[];
    }

    /** `resolve`: answers at once, or waits for the flight, which it starts when there is none. */
    method Resolve(c: nat, signal: Signal)
      requires SingleFlight(Abstract()) && Enabled(Abstract(), Event.Resolve(c, signal))
      modifies this
      ensures Abstract() == Next(old(Abstract()), Event.Resolve(c, signal))
    {
      var call := Call(None, signal.Live?, None, true);
      if signal.AlreadyAborted? {
        calls := calls[c := call.(verdict := Some(OwnAbort))];
      } else if cached.Some? && now < cached.value.expiresAt {
        calls := calls[c := call.(verdict := Some(Token(cached.value.token)))];
      } else if failure.Some? && now < failure.value.retryAt {
        var verdict := if cached.Some? then Token(cached.value.token) else Failed(failure.value.error);
        calls := calls[c := call.(verdict := Some(verdict))];
      } else {
        if inflight.None? {
          flights := flights[started := Flight(now, Running, false, 0)];
          inflight := Some(started);
          started := started + 1;
        }
        Wait(inflight.value, c, call);
      }
    }

    /** The first lines of `#wait`. */
    method Wait(f: nat, c: nat, call: Call)
      requires f in flights
      modifies this
      ensures Abstract() == old(Abstract()).(
        flights := old(flights)[f := old(flights)[f].(waiters := old(flights)[f].waiters + 1)],
        calls := old(calls)[c := call.(flight := Some(f), left := false)])
    {
      flights := flights[f := flights[f].(waiters := flights[f].waiters + 1)];
      calls := calls[c := call.(flight := Some(f), left := false)];
    }

    /** The `then` and `catch` handlers of the command. */
    method CommandEnds(f: nat, result: CommandResult)
      requires Enabled(Abstract(), Event.CommandEnds(f, result))
      modifies this
      ensures Abstract() == Next(old(Abstract()), Event.CommandEnds(f, result))
    {
      var flight := flights[f];
      var verdict;
      match result {
        case Output(token) =>
          cached, failure := Some(Cached(token, now + ttl)), None;
          verdict := Token(token);
        case CommandError(error) =>
          if !flight.aborted {
            failure := Some(Failure(error, now + ttl));
          }
          verdict := if cached.Some? then Token(cached.value.token) else Failed(error);
      }
      flights := flights[f := flight.(phase := Decided(verdict, now, flight.aborted))];
    }

    /** The `finally` handler of the flight. */
    method FlightSettles(f: nat)
      requires Enabled(Abstract(), Event.FlightSettles(f))
      modifies this
      ensures Abstract() == Next(old(Abstract()), Event.FlightSettles(f))
    {
      var flight := flights[f];
      if inflight == Some(f) {
        inflight := None;
      }
      flights := flights[f := flight.(phase := Settled(flight.phase.verdict, flight.phase.at, flight.phase.wasAborted))];
      calls := map c | c in calls ::
        if calls[c].flight == Some(f) && calls[c].verdict.None? then calls[c].(verdict := Some(flight.phase.verdict)) else calls[c];
    }

    /** The `finally` handler of `#wait`. */
    method WaiterLeaves(c: nat)
      requires Enabled(Abstract(), Event.WaiterLeaves(c))
      modifies this
      ensures Abstract() == Next(old(Abstract()), Event.WaiterLeaves(c))
    {
      var f := calls[c].flight.value;
      calls := calls[c := calls[c].(left := true)];
      flights := flights[f := flights[f].(waiters := flights[f].waiters - 1)];
      if inflight == Some(f) && flights[f].waiters == 0 {
        inflight := None;
        flights := flights[f := flights[f].(aborted := true)];
      }
    }
  }
}
