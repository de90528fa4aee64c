/**
 The keep-alive checks of Lifecycle against a ledger of one server that is kept from the events alone: how often it
 failed since its row of failures began, when and on what it failed last, and whether its publication is owed. What
 each check does next is told from the ledger, without the manager's retry states and marks.
 */
module KeepAliveLedger {
  import opened Options
  import opened Lifecycle

  /** Failures in a row, the last one's time and connection with its status, and whether a publication is owed. */
  datatype Ledger = Ledger(count: nat, lastAt: int, on: (Option<nat>, Option<Status>), owed: bool)

  const BLANK := Ledger(0, 0, (None, None), false)

  /** How long a server is left alone after so many failures in a row. */
  function DelayAfter(count: nat): int {
    match count
    case 0 => 0
    case 1 => 30_000
    case 2 => 60_000
    case 3 => 120_000
    case 4 => 240_000
    case _ => 300_000
  }

  lemma DelayIsTheTable(attempts: nat)
    requires attempts > 0
    ensures Delay(attempts) == DelayAfter(attempts) <= 300_000
  {
    DelayIsCappedDoubling(attempts, attempts);
    assert Power(1) == 2 && Power(2) == 4 && Power(3) == 8 && Power(4) == 16;
    if attempts > 5 { PowerGrows(4, attempts - 1); }
  }

  // ----- what a check does next, from the ledger -----

  /** The check is not cut off, and its definition is enabled and still the registered one. */
  predicate MayCheck(s: State, t: Task) {
    !t.definition.disabled && MayGoOn(s, t) && IsCurrent(s, t.name, t.definition)
  }

  /** The row of failures is about the connection and the status that the server has now. */
  predicate StillFailing(s: State, name: string, l: Ledger) { l.count > 0 && l.on == Seen(s, name) }

  predicate IsTooSoon(s: State, name: string, l: Ledger) {
    StillFailing(s, name, l) && s.now < l.lastAt + DelayAfter(l.count)
  }

  function StatusNow(s: State, name: string): Option<Status> { Seen(s, name).1 }

  /** An attempt: connect where there is no connection, or else publish what is owed, or else refresh. */
  function AttemptWait(s: State, t: Task, l: Ledger, pendingAuth: bool): Waiting {
    var (connection, status) := Seen(s, t.name);
    if connection.None? || status != Some(Connected) then (if pendingAuth then Finished else Connect)
    else if l.owed then Publish(connection.value)
    else if t.definition.hasUrl then Refresh(connection.value)
    else Finished
  }

  /** The start of a check. */
  function FirstWait(s: State, t: Task, l: Ledger, pendingAuth: bool): Waiting {
    if !MayCheck(s, t) || StatusNow(s, t.name) == Some(NeedsAuth) || IsTooSoon(s, t.name, l) then Finished
    else AttemptWait(s, t, l, pendingAuth)
  }

  function LedgerAtStart(s: State, t: Task, l: Ledger): Ledger {
    if !MayCheck(s, t) then l
    else if StatusNow(s, t.name) == Some(NeedsAuth) then l.(owed := false)
    else if !StillFailing(s, t.name, l) then l.(count := 0)
    else l
  }

  /** A connection of a check goes on to its callback, or is closed where the server has another definition now. */
  function HandsOver(s: State, t: Task, connection: nat, callback: Waiting): Waiting {
    if IsCurrent(s, t.name, t.definition) then callback
    else if Seen(s, t.name).0 == Some(connection) then CloseCall
    else Finished
  }

  function WaitAfterConnect(s: State, t: Task, connection: Option<nat>): Waiting {
    if !MayGoOn(s, t) || connection.None? then Finished
    else
      match StatusOf(s, connection.value)
      case Connected => HandsOver(s, t, connection.value, Publish(connection.value))
      case NeedsAuth => HandsOver(s, t, connection.value, AuthCallback)
      case OtherStatus => Finished
  }

  function WaitAfterReplaced(s: State, t: Task, l: Ledger, held: nat, pendingAuth: bool): Waiting {
    var (connection, status) := Seen(s, t.name);
    if !IsCurrent(s, t.name, t.definition) then Finished
    else if connection.Some? && status == Some(Connected) then
      (if connection.value != held then Publish(connection.value) else if l.count > 0 then HealthCallback else Finished)
    else if status == Some(NeedsAuth) then AuthCallback
    else if t.retrySuperseded then FirstWait(s, t, l, pendingAuth)
    else Finished
  }

  function WaitAfterRefresh(s: State, t: Task, l: Ledger, held: nat, outcome: RefreshOutcome, pendingAuth: bool): Waiting {
    if FindsReplaced(s, t, outcome, held) then WaitAfterReplaced(s, t, l, held, pendingAuth)
    else if outcome.Refreshed? && IsCurrent(s, t.name, t.definition) && l.count > 0 then HealthCallback
    else if outcome == RefreshFailed(true) && MayGoOn(s, t) && !pendingAuth then Reconnect(held)
    else Finished
  }

  /** Where the check of an event waits after it. */
  function WaitAfter(s: State, e: Event, l: Ledger): Waiting
    requires Enabled(s, e) && IsTaskEvent(e)
  {
    var t := s.tasks[e.task];
    match e
    case CheckBegins(_, pendingAuth) => FirstWait(s, t, l, pendingAuth)
    case ConnectEnds(_, connection) => WaitAfterConnect(s, t, connection)
    case RefreshEnds(_, outcome, pendingAuth) => WaitAfterRefresh(s, t, l, t.waiting.held, outcome, pendingAuth)
    case PublishEnds(_, _) => Finished
    case CallbackEnds(_, _) => Finished
  }

  /** A check that finds its connection gone starts over, which it may do once. */
  predicate StartsOver(s: State, e: Event)
    requires Enabled(s, e) && IsTaskEvent(e)
  {
    var t := s.tasks[e.task];
    && e.RefreshEnds? && FindsReplaced(s, t, e.outcome, t.waiting.held) && IsCurrent(s, t.name, t.definition)
    && t.retrySuperseded && StatusNow(s, t.name) !in {Some(Connected), Some(NeedsAuth)}
  }

  // ----- the ledger -----

  /** A connection is handed to publication, which is then owed. */
  predicate Publishes(s: State, e: Event, l: Ledger)
    requires Enabled(s, e) && IsTaskEvent(e)
  {
    WaitAfter(s, e, l).Publish?
  }

  predicate AsksForAuth(s: State, e: Event, l: Ledger)
    requires Enabled(s, e) && IsTaskEvent(e)
  {
    WaitAfter(s, e, l).AuthCallback?
  }

  /** The ledger of a server after an event. */
  function Entered(s: State, e: Event, name: string, l: Ledger): Ledger
    requires Enabled(s, e)
  {
    if e == Unregister(name) || e.ShutdownClears? then BLANK
    else if !IsTaskEvent(e) || s.tasks[e.task].name != name then l
    else if Fails(s, e, name) then
      Ledger(l.count + 1, s.now, (FailedOn(s, e, name), StatusOfOption(s, FailedOn(s, e, name))), l.owed)
    else if e.CheckBegins? || StartsOver(s, e) then LedgerAtStart(s, s.tasks[e.task], l)
    else if (e.PublishEnds? && e.ok) || AsksForAuth(s, e, l) then l.(count := 0, owed := false)
    else if EndsWell(s, e, name) then l.(count := 0)
    else if Publishes(s, e, l) then l.(owed := true)
    else l
  }

  ghost function LedgerOf(s: State, events: seq<Event>, name: string, l: Ledger): Ledger
    requires Runs(s, events)
    decreases |events|
  {
    if events == [] then l else LedgerOf(Next(s, events[0]), events[1..], name, Entered(s, events[0], name, l))
  }

  /** The manager's fields for the server are what the ledger says. */
  ghost predicate Agrees(s: State, name: string, l: Ledger) {
    && (name in s.retries <==> l.count > 0)
    && (l.count > 0 ==> s.retries[name] == Retry(l.count, l.lastAt + DelayAfter(l.count), l.on.0, l.on.1))
    && (name in s.pending <==> l.owed)
  }

  // ----- every step agrees -----

  lemma GateAgrees(s: State, name: string, l: Ledger)
    requires Agrees(s, name, l)
    ensures var (attempt, retries) := ShouldAttempt(s, name);
      && (attempt <==> !IsTooSoon(s, name, l))
      && Agrees(s.(retries := retries), name, if StillFailing(s, name, l) then l else l.(count := 0))
  {}

  /** The check is as it should be, and the fields of its server agree with the ledger. */
  ghost predicate Follows(u: State, id: TaskId, task: Task, l: Ledger) {
    id in u.tasks && u.tasks[id] == task && Agrees(u, task.name, l)
  }

  lemma WaitFollows(s: State, id: TaskId, w: Waiting, l: Ledger)
    requires id in s.tasks && Agrees(s, s.tasks[id].name, l)
    ensures Follows(Wait(s, id, w), id, s.tasks[id].(waiting := w), l)
  {}

  lemma AttemptFollows(s: State, id: TaskId, pendingAuth: bool, l: Ledger)
    requires id in s.tasks && Agrees(s, s.tasks[id].name, l) && MayCheck(s, s.tasks[id])
    ensures var t := s.tasks[id];
      Follows(Attempts(s, id, pendingAuth), id, t.(waiting := AttemptWait(s, t, l, pendingAuth)), l)
  {
    WaitFollows(s, id, AttemptWait(s, s.tasks[id], l, pendingAuth), l);
  }

  lemma SameAttempt(s: State, u: State, t: Task, l: Ledger, m: Ledger, pendingAuth: bool)
    requires u == s.(retries := u.retries) && m == l.(count := m.count)
    ensures AttemptWait(u, t, m, pendingAuth) == AttemptWait(s, t, l, pendingAuth)
    ensures MayCheck(s, t) ==> MayCheck(u, t)
  {}

  lemma StartFollows(s: State, id: TaskId, pendingAuth: bool, l: Ledger)
    requires id in s.tasks && Agrees(s, s.tasks[id].name, l)
    ensures var t := s.tasks[id];
      Follows(CheckStarts(s, id, pendingAuth), id, t.(waiting := FirstWait(s, t, l, pendingAuth)), LedgerAtStart(s, t, l))
  {
    var t := s.tasks[id];
    if !MayCheck(s, t) || StatusNow(s, t.name) == Some(NeedsAuth) {
      WaitFollows(s, id, Finished, l);
    } else {
      var u, m := s.(retries := ShouldAttempt(s, t.name).1), if StillFailing(s, t.name, l) then l else l.(count := 0);
      GateAgrees(s, t.name, l);
      SameAttempt(s, u, t, l, m, pendingAuth);
      AttemptFollows(u, id, pendingAuth, m);
      WaitFollows(u, id, Finished, m);
    }
  }

  lemma RecordFollows(s: State, id: TaskId, connection: Option<nat>, l: Ledger)
    requires id in s.tasks && Agrees(s, s.tasks[id].name, l) && IsCurrent(s, s.tasks[id].name, s.tasks[id].definition)
    ensures var t := s.tasks[id];
      Follows(Wait(Recorded(s, t.name, t.definition, connection), id, Finished), id, t.(waiting := Finished),
              Ledger(l.count + 1, s.now, (connection, StatusOfOption(s, connection)), l.owed))
  {
    DelayIsTheTable(l.count + 1);
  }

  lemma PublishFollows(s: State, id: TaskId, connection: nat, l: Ledger)
    requires id in s.tasks && Agrees(s, s.tasks[id].name, l)
    ensures var t := s.tasks[id];
      Follows(PublishStarts(s, id, connection), id, t.(waiting := HandsOver(s, t, connection, Publish(connection))),
              if IsCurrent(s, t.name, t.definition) then l.(owed := true) else l)
  {}

  lemma AuthFollows(s: State, id: TaskId, connection: nat, l: Ledger)
    requires id in s.tasks && Agrees(s, s.tasks[id].name, l)
    ensures var t := s.tasks[id];
      Follows(AuthStarts(s, id, connection), id, t.(waiting := HandsOver(s, t, connection, AuthCallback)),
              if IsCurrent(s, t.name, t.definition) then l.(count := 0, owed := false) else l)
  {}

  lemma HealthFollows(s: State, id: TaskId, l: Ledger)
    requires id in s.tasks && Agrees(s, s.tasks[id].name, l)
    ensures Follows(Healthy(s, id), id, s.tasks[id].(waiting := if l.count > 0 then HealthCallback else Finished), l.(count := 0))
  {}

  /** The check of an event after it. */
  function TaskAfter(s: State, e: Event, l: Ledger): Task
    requires Enabled(s, e) && IsTaskEvent(e)
  {
    var t := s.tasks[e.task];
    t.(waiting := WaitAfter(s, e, l), retrySuperseded := t.retrySuperseded && !StartsOver(s, e))
  }

  /** What a connect that ends means for the ledger and the check. */
  lemma ConnectEntry(s: State, e: Event, l: Ledger)
    requires Enabled(s, e) && e.ConnectEnds?
    ensures var t := s.tasks[e.task];
      var current := IsCurrent(s, t.name, t.definition);
      && TaskAfter(s, e, l) == t.(waiting := WaitAfterConnect(s, t, e.connection))
      && Entered(s, e, t.name, l) ==
         if !MayGoOn(s, t) || !current then l
         else if e.connection.None? || StatusOf(s, e.connection.value).OtherStatus? then
           var failed := if e.connection.Some? then e.connection else ConnectionOf(s, t.name);
           Ledger(l.count + 1, s.now, (failed, StatusOfOption(s, failed)), l.owed)
         else if StatusOf(s, e.connection.value).Connected? then l.(owed := true)
         else l.(count := 0, owed := false)
  {}

  lemma ConnectFollows(s: State, e: Event, l: Ledger)
    requires Enabled(s, e) && e.ConnectEnds? && Agrees(s, s.tasks[e.task].name, l)
    ensures Follows(Next(s, e), e.task, TaskAfter(s, e, l), Entered(s, e, s.tasks[e.task].name, l))
  {
    var id, t := e.task, s.tasks[e.task];
    ConnectEntry(s, e, l);
    if !MayGoOn(s, t) {
      WaitFollows(s, id, Finished, l);
    } else if e.connection.None? || StatusOf(s, e.connection.value).OtherStatus? {
      if IsCurrent(s, t.name, t.definition) {
        RecordFollows(s, id, if e.connection.Some? then e.connection else ConnectionOf(s, t.name), l);
      } else {
        WaitFollows(s, id, Finished, l);
      }
    } else if StatusOf(s, e.connection.value).Connected? {
      PublishFollows(s, id, e.connection.value, l);
    } else {
      AuthFollows(s, id, e.connection.value, l);
    }
  }

  lemma StartsOverFollows(s: State, again: State, id: TaskId, pendingAuth: bool, l: Ledger)
    requires id in s.tasks && Agrees(s, s.tasks[id].name, l)
    requires again == s.(tasks := s.tasks[id := s.tasks[id].(retrySuperseded := false)])
    ensures var t := s.tasks[id];
      Follows(CheckStarts(again, id, pendingAuth), id,
              t.(waiting := FirstWait(s, t, l, pendingAuth), retrySuperseded := false), LedgerAtStart(s, t, l))
  {
    StartFollows(again, id, pendingAuth, l);
    SameStart(s, again, s.tasks[id], l, pendingAuth);
  }

  lemma SameStart(s: State, again: State, t: Task, l: Ledger, pendingAuth: bool)
    requires again == s.(tasks := again.tasks)
    ensures FirstWait(again, t.(retrySuperseded := false), l, pendingAuth) == FirstWait(s, t, l, pendingAuth)
    ensures LedgerAtStart(again, t.(retrySuperseded := false), l) == LedgerAtStart(s, t, l)
  {}

  /** What `SupersededStarts` does in each of its branches. */
  lemma ReplacedBranches(s: State, id: TaskId, held: nat, pendingAuth: bool)
    requires id in s.tasks
    ensures var t := s.tasks[id];
      var (current, status) := Seen(s, t.name);
      SupersededStarts(s, id, held, pendingAuth) ==
        if !IsCurrent(s, t.name, t.definition) then Wait(s, id, Finished)
        else if current.Some? && status == Some(Connected) then
          (if current.value == held then Healthy(s, id) else PublishStarts(s, id, current.value))
        else if current.Some? && status == Some(NeedsAuth) then AuthStarts(s, id, current.value)
        else if t.retrySuperseded then
          CheckStarts(s.(tasks := s.tasks[id := t.(retrySuperseded := false)]), id, pendingAuth)
        else Wait(s, id, Finished)
  {}

  /** What a refresh that finds another connection means for the ledger and the check. */
  lemma ReplacedEntry(s: State, e: Event, l: Ledger)
    requires Enabled(s, e) && e.RefreshEnds?
    requires FindsReplaced(s, s.tasks[e.task], e.outcome, s.tasks[e.task].waiting.held)
    ensures var t := s.tasks[e.task];
      var (connection, status) := Seen(s, t.name);
      && TaskAfter(s, e, l) == t.(waiting := WaitAfterReplaced(s, t, l, t.waiting.held, e.pendingAuth),
                                  retrySuperseded := t.retrySuperseded && !StartsOver(s, e))
      && Entered(s, e, t.name, l) ==
         if !IsCurrent(s, t.name, t.definition) || connection.None? then (if StartsOver(s, e) then LedgerAtStart(s, t, l) else l)
         else if status == Some(Connected) then (if connection.value == t.waiting.held then l.(count := 0) else l.(owed := true))
         else if status == Some(NeedsAuth) then l.(count := 0, owed := false)
         else if StartsOver(s, e) then LedgerAtStart(s, t, l)
         else l
  {}

  lemma ReplacedFollows(s: State, e: Event, l: Ledger)
    requires Enabled(s, e) && e.RefreshEnds? && Agrees(s, s.tasks[e.task].name, l)
    requires FindsReplaced(s, s.tasks[e.task], e.outcome, s.tasks[e.task].waiting.held)
    ensures Follows(SupersededStarts(s, e.task, s.tasks[e.task].waiting.held, e.pendingAuth), e.task, TaskAfter(s, e, l),
                    Entered(s, e, s.tasks[e.task].name, l))
  {
    var id, t := e.task, s.tasks[e.task];
    var (current, status) := Seen(s, t.name);
    ReplacedBranches(s, id, t.waiting.held, e.pendingAuth);
    ReplacedEntry(s, e, l);
    if StartsOver(s, e) {
      StartsOverFollows(s, s.(tasks := s.tasks[id := t.(retrySuperseded := false)]), id, e.pendingAuth, l);
    } else if !IsCurrent(s, t.name, t.definition) || current.None? {
      WaitFollows(s, id, Finished, l);
    } else if status == Some(Connected) {
      HealthFollows(s, id, l);
      PublishFollows(s, id, current.value, l);
    } else if status == Some(NeedsAuth) {
      AuthFollows(s, id, current.value, l);
    } else {
      WaitFollows(s, id, Finished, l);
    }
  }

  predicate RefreshFails(s: State, t: Task, outcome: RefreshOutcome) {
    outcome.TimedOut? || (outcome == RefreshFailed(false) && MayGoOn(s, t))
  }

  /** What a refresh that ends means for the ledger and the check, where no other connection has taken over. */
  lemma RefreshEntry(s: State, e: Event, l: Ledger)
    requires Enabled(s, e) && e.RefreshEnds?
    requires !FindsReplaced(s, s.tasks[e.task], e.outcome, s.tasks[e.task].waiting.held)
    ensures var t, held := s.tasks[e.task], s.tasks[e.task].waiting.held;
      && TaskAfter(s, e, l) == t.(waiting := WaitAfter(s, e, l))
      && Entered(s, e, t.name, l) ==
         LedgerAfterRefresh(s, t, l, held, e.outcome)
  {}

  function LedgerAfterRefresh(s: State, t: Task, l: Ledger, held: nat, outcome: RefreshOutcome): Ledger {
    if !IsCurrent(s, t.name, t.definition) then l
    else if RefreshFails(s, t, outcome) then Ledger(l.count + 1, s.now, (Some(held), StatusOfOption(s, Some(held))), l.owed)
    else if outcome.Refreshed? then l.(count := 0)
    else l
  }

  /** What the end of a refresh does in each of its branches. */
  lemma RefreshBranches(s: State, id: TaskId, held: nat, outcome: RefreshOutcome, pendingAuth: bool)
    requires id in s.tasks && !FindsReplaced(s, s.tasks[id], outcome, held)
    ensures var t := s.tasks[id];
      Refreshes(s, id, held, outcome, pendingAuth) ==
        if RefreshFails(s, t, outcome) && IsCurrent(s, t.name, t.definition) then
          Wait(Recorded(s, t.name, t.definition, Some(held)), id, Finished)
        else if outcome.Refreshed? && IsCurrent(s, t.name, t.definition) then Healthy(s, id)
        else if outcome == RefreshFailed(true) && MayGoOn(s, t) && !pendingAuth then Wait(s, id, Reconnect(held))
        else Wait(s, id, Finished)
  {}

  lemma KeptFollows(s: State, id: TaskId, held: nat, outcome: RefreshOutcome, pendingAuth: bool, l: Ledger)
    requires id in s.tasks && Agrees(s, s.tasks[id].name, l) && !FindsReplaced(s, s.tasks[id], outcome, held)
    ensures var t := s.tasks[id];
      Follows(Refreshes(s, id, held, outcome, pendingAuth), id,
              t.(waiting := WaitAfterRefresh(s, t, l, held, outcome, pendingAuth)), LedgerAfterRefresh(s, t, l, held, outcome))
  {
    var t := s.tasks[id];
    RefreshBranches(s, id, held, outcome, pendingAuth);
    if RefreshFails(s, t, outcome) && IsCurrent(s, t.name, t.definition) {
      RecordFollows(s, id, Some(held), l);
    } else if outcome.Refreshed? && IsCurrent(s, t.name, t.definition) {
      HealthFollows(s, id, l);
    } else {
      WaitFollows(s, id, WaitAfterRefresh(s, t, l, held, outcome, pendingAuth), l);
    }
  }

  lemma RefreshFollows(s: State, e: Event, l: Ledger)
    requires Enabled(s, e) && e.RefreshEnds? && Agrees(s, s.tasks[e.task].name, l)
    ensures Follows(Next(s, e), e.task, TaskAfter(s, e, l), Entered(s, e, s.tasks[e.task].name, l))
  {
    if FindsReplaced(s, s.tasks[e.task], e.outcome, s.tasks[e.task].waiting.held) {
      ReplacedFollows(s, e, l);
      assert Next(s, e) == SupersededStarts(s, e.task, s.tasks[e.task].waiting.held, e.pendingAuth);
    } else {
      RefreshEntry(s, e, l);
      KeptFollows(s, e.task, s.tasks[e.task].waiting.held, e.outcome, e.pendingAuth, l);
    }
  }

  lemma PublishedFollows(s: State, e: Event, l: Ledger)
    requires Enabled(s, e) && e.PublishEnds? && Agrees(s, s.tasks[e.task].name, l)
    ensures Follows(Next(s, e), e.task, TaskAfter(s, e, l), Entered(s, e, s.tasks[e.task].name, l))
  {
    if Fails(s, e, s.tasks[e.task].name) {
      RecordFollows(s, e.task, Some(s.tasks[e.task].waiting.held), l);
    }
  }

  lemma TaskFollows(s: State, e: Event, l: Ledger)
    requires Enabled(s, e) && IsTaskEvent(e) && Agrees(s, s.tasks[e.task].name, l)
    ensures Follows(Next(s, e), e.task, TaskAfter(s, e, l), Entered(s, e, s.tasks[e.task].name, l))
  {
    match e
    case CheckBegins(id, pendingAuth) => StartFollows(s, id, pendingAuth, l);
    case ConnectEnds(_, _) => ConnectFollows(s, e, l);
    case RefreshEnds(_, _, _) => RefreshFollows(s, e, l);
    case PublishEnds(_, _) => PublishedFollows(s, e, l);
    case CallbackEnds(id, _) => WaitFollows(s, id, Finished, l);
  }

  lemma OtherTaskAgrees(s: State, e: Event, name: string, l: Ledger)
    requires Enabled(s, e) && IsTaskEvent(e) && s.tasks[e.task].name != name && Agrees(s, name, l)
    ensures Agrees(Next(s, e), name, l)
  {
    EventIsATaskStep(s, e);
    OtherRetriesStay(s, Next(s, e), s.tasks[e.task], name);
  }

  lemma OtherEventAgrees(s: State, e: Event, name: string, l: Ledger)
    requires Enabled(s, e) && !IsTaskEvent(e) && Agrees(s, name, l)
    ensures Agrees(Next(s, e), name, Entered(s, e, name, l))
  {
    match e
    case Tick(_) =>
    case MarkKeepAlive(_, _) =>
    case Unregister(_) =>
    case Stop =>
    case StartHealthChecks =>
    case ManagerChanges(_, _) =>
    case StartPass =>
    case AbortPass(_) =>
    case PassEnds(_) =>
    case ShutdownBegins =>
    case ShutdownWaits =>
    case ShutdownClears =>
  }

  lemma LedgerStep(s: State, e: Event, name: string, l: Ledger)
    requires Enabled(s, e) && Agrees(s, name, l)
    ensures Agrees(Next(s, e), name, Entered(s, e, name, l))
  {
    if !IsTaskEvent(e) {
      OtherEventAgrees(s, e, name, l);
    } else if s.tasks[e.task].name == name {
      TaskFollows(s, e, l);
    } else {
      OtherTaskAgrees(s, e, name, l);
    }
  }

  lemma {:induction false} LedgerIsKept(s: State, events: seq<Event>, name: string, l: Ledger)
    requires Runs(s, events) && Agrees(s, name, l)
    ensures Agrees(Run(s, events), name, LedgerOf(s, events, name, l))
    decreases |events|
  {
    if events != [] {
      LedgerStep(s, events[0], name, l);
      LedgerIsKept(Next(s, events[0]), events[1..], name, Entered(s, events[0], name, l));
    }
  }

  /**
   In every run: a server's retry state and mark are what its history of events says, to the number of attempts and the
   millisecond of the next one, and each of its checks goes on as that history calls for.
   */
  lemma ChecksFollowTheLedger(now: int, events: seq<Event>, e: Event, name: string)
    requires Runs(Initial(now), events) && Enabled(Run(Initial(now), events), e)
    ensures var s, l := Run(Initial(now), events), LedgerOf(Initial(now), events, name, BLANK);
      && Agrees(s, name, l) && Agrees(Next(s, e), name, Entered(s, e, name, l))
      && (IsTaskEvent(e) && s.tasks[e.task].name == name ==>
          Next(s, e).tasks == s.tasks[e.task := TaskAfter(s, e, l)])
  {
    var s, l := Run(Initial(now), events), LedgerOf(Initial(now), events, name, BLANK);
    LedgerIsKept(Initial(now), events, name, BLANK);
    LedgerStep(s, e, name, l);
    if IsTaskEvent(e) && s.tasks[e.task].name == name {
      TaskFollows(s, e, l);
      EventIsATaskStep(s, e);
    }
  }

  /**
   No server is given up: five minutes after its last failure, or when its connection or status is another one since,
   the next check of it connects, publishes what is owed, or refreshes.
   */
  lemma NoServerIsGivenUp(now: int, events: seq<Event>, id: TaskId, pendingAuth: bool)
    requires Runs(Initial(now), events) && id in Run(Initial(now), events).tasks
    requires var s := Run(Initial(now), events);
      var t := s.tasks[id];
      && t.waiting.Turn? && !t.definition.disabled && !s.stopped && t.pass !in s.aborted
      && t.name in s.keepAlive && s.keepAlive[t.name] == t.definition && Seen(s, t.name).1 != Some(NeedsAuth)
    requires var s := Run(Initial(now), events);
      var l := LedgerOf(Initial(now), events, s.tasks[id].name, BLANK);
      l.count == 0 || l.on != Seen(s, s.tasks[id].name) || s.now >= l.lastAt + 300_000
    ensures var s := Run(Initial(now), events);
      var t := s.tasks[id];
      var l := LedgerOf(Initial(now), events, t.name, BLANK);
      var (connection, status) := Seen(s, t.name);
      && Enabled(s, CheckBegins(id, pendingAuth)) && id in Next(s, CheckBegins(id, pendingAuth)).tasks
      && var w := Next(s, CheckBegins(id, pendingAuth)).tasks[id].waiting;
      && (connection.None? || status != Some(Connected) ==> w == if pendingAuth then Finished else Connect)
      && (connection.Some? && status == Some(Connected) && l.owed ==> w == Publish(connection.value))
      && (connection.Some? && status == Some(Connected) && !l.owed && t.definition.hasUrl ==> w == Refresh(connection.value))
  {
    var s := Run(Initial(now), events);
    ChecksFollowTheLedger(now, events, CheckBegins(id, pendingAuth), s.tasks[id].name);
  }

  /** A pass checks every server that is registered when it starts, once, and leaves the checks of other passes alone. */
  lemma PassChecksEveryServer(s: State)
    requires PassesKnown(s) && Enabled(s, StartPass)
    ensures var t := Next(s, StartPass);
      && (forall name :: name in s.keepAlive ==>
            (s.started, name) in t.tasks && t.tasks[(s.started, name)] == Task(s.started, name, s.keepAlive[name], true, Turn))
      && (forall id :: id in t.tasks && id !in s.tasks ==> id.0 == s.started && id.1 in s.keepAlive)
      && (forall id :: id in s.tasks ==> id in t.tasks && t.tasks[id] == s.tasks[id])
  {
    var t := Next(s, StartPass);
    forall name | name in s.keepAlive
      ensures (s.started, name) in t.tasks && t.tasks[(s.started, name)] == Task(s.started, name, s.keepAlive[name], true, Turn)
    {
      assert (s.started, name) in NewTasks(s.started, s.keepAlive);
    }
  }

  // ----- what the checks find around them -----

  /** The clock, the servers to keep alive and their connections, and what is stopped. */
  datatype World = World(now: int, stopped: bool, aborted: set<nat>, keepAlive: map<string, Definition>,
                         connections: map<string, nat>, statuses: map<nat, Status>)

  function WorldOf(s: State): World { World(s.now, s.stopped, s.aborted, s.keepAlive, s.connections, s.statuses) }

  /** No check changes it: only the clock, registrations, stops and the connection manager do. */
  function Moves(w: World, e: Event): World {
    match e
    case Tick(elapsed) => w.(now := w.now + elapsed)
    case MarkKeepAlive(name, definition) => w.(keepAlive := w.keepAlive[name := definition])
    case Unregister(name) => w.(keepAlive := w.keepAlive - {name})
    case Stop => w.(stopped := true)
    case ShutdownBegins => w.(stopped := true)
    case StartHealthChecks => w.(stopped := false)
    case AbortPass(pass) => w.(aborted := w.aborted + {pass})
    case ManagerChanges(connections, statuses) => w.(connections := connections, statuses := statuses)
    case _ => w
  }

  ghost function WorldAfter(w: World, events: seq<Event>): World
    decreases |events|
  {
    if events == [] then w else WorldAfter(Moves(w, events[0]), events[1..])
  }

  lemma WorldMoves(s: State, e: Event)
    requires Enabled(s, e)
    ensures WorldOf(Next(s, e)) == Moves(WorldOf(s), e)
  {
    if IsTaskEvent(e) {
      EventIsATaskStep(s, e);
    }
  }

  /** In every run, what the checks find around them is what the events made of it. */
  lemma {:induction false} WorldIsOfTheEvents(s: State, events: seq<Event>)
    requires Runs(s, events)
    ensures WorldOf(Run(s, events)) == WorldAfter(WorldOf(s), events)
    decreases |events|
  {
    if events != [] {
      WorldMoves(s, events[0]);
      WorldIsOfTheEvents(Next(s, events[0]), events[1..]);
    }
  }
}
