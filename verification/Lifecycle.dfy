/**
 lifecycle.ts as a step machine: convergence passes over the keep-alive servers. Each step is what runs between two
 awaits, and steps of many tasks, registrations and the connection manager interleave in any way.
 */
module Lifecycle {
  import opened Options

  const RETRY_BASE_MS := 30_000
  const RETRY_MAX_MS := 300_000

  /** A definition object: equal only to itself, so a server registered again has another one. */
  datatype Definition = Definition(id: nat, hasUrl: bool, disabled: bool)

  datatype Status = Connected | NeedsAuth | OtherStatus

  datatype Retry = Retry(attempts: nat, nextAttemptAt: int, connection: Option<nat>, status: Option<Status>)

  /** What a task of a pass waits for. */
  datatype Waiting =
    | Turn | Connect | Refresh(held: nat) | Reconnect(held: nat) | Publish(held: nat)
    | CloseCall | HealthCallback | AuthCallback | Finished

  /** `checkKeepAliveConnection` for one server of one pass. */
  datatype Task = Task(pass: nat, name: string, definition: Definition, retrySuperseded: bool, waiting: Waiting)

  type TaskId = (nat, string)

  /** `gracefulShutdown`: begun, waiting for the convergence pass it saw, or past it. */
  datatype Shutdown = NotBegun | Begun | WaitingFor(pass: Option<nat>) | Cleared

  /**
   The manager's fields, the checks of its passes, and the connection manager. The last two fields are history: the
   passes that were rejected by one of their tasks, and whether health checks were started again after shutdown began.
   */
  datatype State = State(
    now: int, stopped: bool, keepAlive: map<string, Definition>, retries: map<string, Retry>, pending: set<string>,
    active: Option<nat>, started: nat, running: set<nat>, aborted: set<nat>, tasks: map<TaskId, Task>,
    connections: map<string, nat>, statuses: map<nat, Status>, shutdown: Shutdown,
    rejected: set<nat>, restarted: bool)

  datatype RefreshOutcome = Refreshed | Superseded | TimedOut | RefreshFailed(reconnect: bool)

  datatype Event =
    | Tick(elapsed: nat)
    | MarkKeepAlive(name: string, definition: Definition)
    | Unregister(name: string)
    | Stop | StartHealthChecks
    | ManagerChanges(connections: map<string, nat>, statuses: map<nat, Status>)
    | StartPass | AbortPass(pass: nat) | PassEnds(pass: nat)
    | CheckBegins(task: TaskId, pendingAuth: bool)
    | ConnectEnds(task: TaskId, connection: Option<nat>)
    | RefreshEnds(task: TaskId, outcome: RefreshOutcome, pendingAuth: bool)
    | PublishEnds(task: TaskId, ok: bool)
    | CallbackEnds(task: TaskId, ok: bool)
    | ShutdownBegins | ShutdownWaits | ShutdownClears

  // ----- reading the state -----

  function ConnectionOf(s: State, name: string): Option<nat> {
    if name in s.connections then Some(s.connections[name]) else None
  }

  function StatusOf(s: State, connection: nat): Status {
    if connection in s.statuses then s.statuses[connection] else OtherStatus
  }

  function StatusOfOption(s: State, connection: Option<nat>): Option<Status> {
    if connection.Some? then Some(StatusOf(s, connection.value)) else None
  }

  predicate IsRegistered(s: State, name: string, definition: Definition) {
    name in s.keepAlive && s.keepAlive[name] == definition
  }

  predicate Quiet(s: State, t: Task) { s.stopped || t.pass in s.aborted }

  predicate PassDone(s: State, pass: nat) {
    forall id :: id in s.tasks && s.tasks[id].pass == pass ==> s.tasks[id].waiting.Finished?
  }

  predicate Enabled(s: State, e: Event) {
    match e
    case MarkKeepAlive(_, definition) => !definition.disabled
    case StartPass => !s.stopped && s.active.None?
    case PassEnds(pass) => pass in s.running && (PassDone(s, pass) || pass in s.rejected)
    case CheckBegins(id, _) => id in s.tasks && s.tasks[id].waiting.Turn?
    case ConnectEnds(id, _) => id in s.tasks && (s.tasks[id].waiting.Connect? || s.tasks[id].waiting.Reconnect?)
    case RefreshEnds(id, _, _) => id in s.tasks && s.tasks[id].waiting.Refresh?
    case PublishEnds(id, _) => id in s.tasks && s.tasks[id].waiting.Publish?
    case CallbackEnds(id, ok) =>
      id in s.tasks && (s.tasks[id].waiting.CloseCall? || s.tasks[id].waiting.HealthCallback? ||
                       (s.tasks[id].waiting.AuthCallback? && ok))
    case ShutdownBegins => s.shutdown.NotBegun?
    case ShutdownWaits => s.shutdown.Begun?
    case ShutdownClears =>
      s.shutdown.WaitingFor? && (s.shutdown.pass.Some? ==> s.shutdown.pass.value !in s.running + s.rejected)
    case _ => true
  }

  // ----- the delay -----

  function Power(n: nat): nat { if n == 0 then 1 else 2 * Power(n - 1) }

  function Min(a: int, b: int): int { if a < b then a else b }

  /** The delay of `recordRetry`, with its inner cap of the exponent. */
  function Delay(attempts: nat): int
    requires attempts > 0
  {
    Min(RETRY_BASE_MS * Power(Min(attempts - 1, 10)), RETRY_MAX_MS)
  }

  lemma {:induction false} PowerGrows(m: nat, n: nat)
    requires m <= n
    ensures 1 <= Power(m) <= Power(n)
    decreases n - m, n
  {
    if m < n {
      PowerGrows(m, n - 1);
    } else if n > 0 {
      PowerGrows(m - 1, n - 1);
    }
  }

  /** The inner cap of the exponent never changes the delay, which grows from failure to failure up to five minutes. */
  lemma DelayIsCappedDoubling(attempts: nat, more: nat)
    requires 0 < attempts <= more
    ensures Delay(attempts) == Min(RETRY_BASE_MS * Power(attempts - 1), RETRY_MAX_MS)
    ensures RETRY_BASE_MS <= Delay(attempts) <= Delay(more) <= RETRY_MAX_MS
  {
    PowerGrows(Min(attempts - 1, 10), Min(more - 1, 10));
    assert Power(4) == 16;
    if attempts > 11 {
      PowerGrows(4, 10);
      PowerGrows(4, attempts - 1);
    }
  }

  // ----- the synchronous parts of the code -----

  function Wait(s: State, id: TaskId, w: Waiting): State
    requires id in s.tasks
  {
    s.(tasks := s.tasks[id := s.tasks[id].(waiting := w)])
  }

  function Recorded(s: State, name: string, definition: Definition, connection: Option<nat>): State {
    if !IsRegistered(s, name, definition) then s
    else
      var attempts := (if name in s.retries then s.retries[name].attempts else 0) + 1;
      s.(retries := s.retries[name := Retry(attempts, s.now + Delay(attempts), connection, StatusOfOption(s, connection))])
  }

  /** Close a task's own connection, if it is still the current one. */
  function CloseOwn(s: State, id: TaskId, connection: nat): State
    requires id in s.tasks
  {
    var name := s.tasks[id].name;
    Wait(s, id, if ConnectionOf(s, name) == Some(connection) then CloseCall else Finished)
  }

  function PublishStarts(s: State, id: TaskId, connection: nat): State
    requires id in s.tasks
  {
    var t := s.tasks[id];
    if !IsRegistered(s, t.name, t.definition) then CloseOwn(s, id, connection)
    else Wait(s.(pending := s.pending + {t.name}), id, Publish(connection))
  }

  function AuthStarts(s: State, id: TaskId, connection: nat): State
    requires id in s.tasks
  {
    var t := s.tasks[id];
    if !IsRegistered(s, t.name, t.definition) then CloseOwn(s, id, connection)
    else Wait(s.(pending := s.pending - {t.name}, retries := s.retries - {t.name}), id, AuthCallback)
  }

  function Healthy(s: State, id: TaskId): State
    requires id in s.tasks
  {
    var name := s.tasks[id].name;
    if name in s.retries then Wait(s.(retries := s.retries - {name}), id, HealthCallback) else Wait(s, id, Finished)
  }

  /** `shouldAttemptConnection`, and the retry states it leaves. */
  function ShouldAttempt(s: State, name: string): (bool, map<string, Retry>) {
    var connection := ConnectionOf(s, name);
    if name !in s.retries then (true, s.retries)
    else if s.retries[name].connection != connection || s.retries[name].status != StatusOfOption(s, connection)
    then (true, s.retries - {name})
    else (s.now >= s.retries[name].nextAttemptAt, s.retries)
  }

  /** `checkKeepAliveConnection` up to its first await. */
  function CheckStarts(s: State, id: TaskId, pendingAuth: bool): State
    requires id in s.tasks
  {
    var t := s.tasks[id];
    var connection := ConnectionOf(s, t.name);
    if t.definition.disabled || Quiet(s, t) || !IsRegistered(s, t.name, t.definition) then Wait(s, id, Finished)
    else if StatusOfOption(s, connection) == Some(NeedsAuth) then Wait(s.(pending := s.pending - {t.name}), id, Finished)
    else
      var (attempt, retries) := ShouldAttempt(s, t.name);
      if !attempt then Wait(s.(retries := retries), id, Finished) else Attempts(s.(retries := retries), id, pendingAuth)
  }

  /** The rest of it, once an attempt may be made. */
  function Attempts(s: State, id: TaskId, pendingAuth: bool): State
    requires id in s.tasks
  {
    var t := s.tasks[id];
    var connection := ConnectionOf(s, t.name);
    if connection.None? || StatusOf(s, connection.value) != Connected then
      Wait(s, id, if pendingAuth then Finished else Connect)
    else if t.name in s.pending then PublishStarts(s, id, connection.value)
    else if !t.definition.hasUrl then Wait(s, id, Finished)
    else Wait(s, id, Refresh(connection.value))
  }

  function SupersededStarts(s: State, id: TaskId, stale: nat, pendingAuth: bool): State
    requires id in s.tasks
  {
    var t := s.tasks[id];
    var current := ConnectionOf(s, t.name);
    var status := StatusOfOption(s, current);
    if !IsRegistered(s, t.name, t.definition) then Wait(s, id, Finished)
    else if current == Some(stale) && status == Some(Connected) then Healthy(s, id)
    else if status == Some(Connected) then PublishStarts(s, id, current.value)
    else if status == Some(NeedsAuth) then AuthStarts(s, id, current.value)
    else if t.retrySuperseded then
      CheckStarts(s.(tasks := s.tasks[id := t.(retrySuperseded := false)]), id, pendingAuth)
    else Wait(s, id, Finished)
  }

  /** After `connect` or `reconnect`. */
  function Connects(s: State, id: TaskId, connection: Option<nat>): State
    requires id in s.tasks
  {
    var t := s.tasks[id];
    if Quiet(s, t) then Wait(s, id, Finished)
    else if connection.None? then Wait(Recorded(s, t.name, t.definition, ConnectionOf(s, t.name)), id, Finished)
    else
      match StatusOf(s, connection.value)
      case NeedsAuth => AuthStarts(s, id, connection.value)
      case OtherStatus => Wait(Recorded(s, t.name, t.definition, connection), id, Finished)
      case Connected => PublishStarts(s, id, connection.value)
  }

  /** After `refreshTools`. */
  function Refreshes(s: State, id: TaskId, held: nat, outcome: RefreshOutcome, pendingAuth: bool): State
    requires id in s.tasks
  {
    var t := s.tasks[id];
    match outcome
    case RefreshFailed(reconnect) =>
      if Quiet(s, t) then Wait(s, id, Finished)
      else if ConnectionOf(s, t.name) != Some(held) || StatusOf(s, held) != Connected then
        SupersededStarts(s, id, held, pendingAuth)
      else if !reconnect then Wait(Recorded(s, t.name, t.definition, Some(held)), id, Finished)
      else Wait(s, id, if pendingAuth then Finished else Reconnect(held))
    case Superseded => SupersededStarts(s, id, held, pendingAuth)
    case TimedOut => Wait(Recorded(s, t.name, t.definition, Some(held)), id, Finished)
    case Refreshed => if !IsRegistered(s, t.name, t.definition) then Wait(s, id, Finished) else Healthy(s, id)
  }

  /** After the reconnect callback of `publishConnectedMetadata`. */
  function Published(s: State, id: TaskId, held: nat, ok: bool): State
    requires id in s.tasks
  {
    var t := s.tasks[id];
    if ok then Wait(s.(pending := s.pending - {t.name}, retries := s.retries - {t.name}), id, Finished)
    else if s.stopped then Wait(s, id, Finished)
    else Wait(Recorded(s, t.name, t.definition, Some(held)), id, Finished)
  }

  /** The checks of a new pass: one for each server registered when it starts. */
  function NewTasks(pass: nat, keepAlive: map<string, Definition>): map<TaskId, Task> {
    map name | name in keepAlive :: (pass, name) := Task(pass, name, keepAlive[name], true, Turn)
  }

  function Next(s: State, e: Event): State
    requires Enabled(s, e)
  {
    match e
    case Tick(elapsed) => s.(now := s.now + elapsed)
    case MarkKeepAlive(name, definition) => s.(keepAlive := s.keepAlive[name := definition])
    case Unregister(name) =>
      s.(keepAlive := s.keepAlive - {name}, retries := s.retries - {name}, pending := s.pending - {name})
    case Stop => s.(stopped := true)
    case StartHealthChecks => s.(stopped := false, restarted := s.restarted || !s.shutdown.NotBegun?)
    case ManagerChanges(connections, statuses) => s.(connections := connections, statuses := statuses)
    case StartPass =>
      s.(active := Some(s.started), started := s.started + 1, running := s.running + {s.started},
         tasks := s.tasks + NewTasks(s.started, s.keepAlive))
    case AbortPass(pass) => s.(aborted := s.aborted + {pass})
    case PassEnds(pass) => s.(running := s.running - {pass}, active := if s.active == Some(pass) then None else s.active)
    case CheckBegins(id, pendingAuth) => CheckStarts(s, id, pendingAuth)
    case ConnectEnds(id, connection) => Connects(s, id, connection)
    case RefreshEnds(id, outcome, pendingAuth) => Refreshes(s, id, s.tasks[id].waiting.held, outcome, pendingAuth)
    case PublishEnds(id, ok) => Published(s, id, s.tasks[id].waiting.held, ok)
    case CallbackEnds(id, ok) => Wait(s, id, Finished).(rejected := if ok then s.rejected else s.rejected + {s.tasks[id].pass})
    case ShutdownBegins => s.(stopped := true, shutdown := Begun)
    case ShutdownWaits => s.(shutdown := WaitingFor(s.active))
    case ShutdownClears => s.(shutdown := Cleared, active := None, retries := map[], pending := {})
  }

  function Initial(now: int): State {
    State(now, false, map[], map[], {}, None, 0, {}, {}, map[], map[], map[], NotBegun, {}, false)
  }

  // ----- what holds in every reachable state -----

  /** Retry states and pending publications are only of registered servers. */
  ghost predicate OnlyRegistered(s: State) {
    s.retries.Keys <= s.keepAlive.Keys && s.pending <= s.keepAlive.Keys
  }

  ghost predicate PassesKnown(s: State) {
    && (forall pass :: pass in s.running ==> pass < s.started)
    && (s.active.Some? ==> s.active.value in s.running)
    && (forall id :: id in s.tasks ==> id == (s.tasks[id].pass, s.tasks[id].name) && s.tasks[id].pass < s.started)
  }

  /** While health checks are not started again after shutdown began, the one pass that runs is the active one. */
  ghost predicate OneRuns(s: State) {
    !s.restarted ==>
      && (forall pass :: pass in s.running ==> s.active == Some(pass))
      && (!s.shutdown.NotBegun? ==> s.stopped)
      && (s.shutdown.WaitingFor? ==> s.active.None? || s.active == s.shutdown.pass)
  }

  /** A pass that no task has rejected runs until its last task is finished. */
  ghost predicate TasksRun(s: State) {
    forall id :: id in s.tasks && !s.tasks[id].waiting.Finished? && s.tasks[id].pass !in s.rejected ==>
      s.tasks[id].pass in s.running
  }

  ghost predicate Inv(s: State) {
    OnlyRegistered(s) && PassesKnown(s) && OneRuns(s) && TasksRun(s)
  }

  // ----- every step keeps it -----

  /** A task changes only the retry state of its own name: it drops it, or records a failure of the registered definition. */
  ghost predicate RetriesStep(s: State, t: State, task: Task) {
    || t.retries == s.retries
    || t.retries == s.retries - {task.name}
    || (IsRegistered(s, task.name, task.definition) && RecordsFailure(s, t, task))
  }

  ghost predicate RecordsFailure(s: State, t: State, task: Task) {
    exists connection :: t.retries == Recorded(s, task.name, task.definition, connection).retries
  }

  /** A task adds a publication mark only for the registered definition of its own name. */
  ghost predicate PendingStep(s: State, t: State, task: Task) {
    || t.pending == s.pending
    || t.pending == s.pending - {task.name}
    || (IsRegistered(s, task.name, task.definition) && t.pending == s.pending + {task.name})
  }

  /** What a task's step leaves as it is. */
  ghost predicate TaskFrame(s: State, t: State, id: TaskId) {
    && id in s.tasks && !s.tasks[id].waiting.Finished?
    && t == s.(tasks := t.tasks, retries := t.retries, pending := t.pending, rejected := t.rejected)
    && id in t.tasks && t.tasks == s.tasks[id := t.tasks[id]]
    && t.tasks[id] == s.tasks[id].(waiting := t.tasks[id].waiting, retrySuperseded := t.tasks[id].retrySuperseded)
    && (t.rejected == s.rejected || t.rejected == s.rejected + {s.tasks[id].pass})
  }

  /** All that a task's step may do. */
  ghost predicate TaskStep(s: State, t: State, id: TaskId) {
    TaskFrame(s, t, id) && RetriesStep(s, t, s.tasks[id]) && PendingStep(s, t, s.tasks[id])
  }

  predicate IsTaskEvent(e: Event) {
    e.CheckBegins? || e.ConnectEnds? || e.RefreshEnds? || e.PublishEnds? || e.CallbackEnds?
  }

  lemma AttemptKeepsFrame(s: State, id: TaskId, pendingAuth: bool)
    requires id in s.tasks && !s.tasks[id].waiting.Finished?
    ensures TaskFrame(s, Attempts(s, id, pendingAuth), id)
  {
    var connection := ConnectionOf(s, s.tasks[id].name);
    if connection.None? || StatusOf(s, connection.value) != Connected {
      FinishIsATaskStep(s, id, if pendingAuth then Finished else Connect);
    } else if s.tasks[id].name in s.pending {
      PublishIsATaskStep(s, id, connection.value);
    } else {
      FinishIsATaskStep(s, id, if s.tasks[id].definition.hasUrl then Refresh(connection.value) else Finished);
    }
  }

  lemma PublishDropsNothing(s: State, id: TaskId, connection: nat)
    requires id in s.tasks
    ensures var t := PublishStarts(s, id, connection); t.retries == s.retries && PendingStep(s, t, s.tasks[id])
  {
    var t, task := PublishStarts(s, id, connection), s.tasks[id];
    assert t.pending == if IsRegistered(s, task.name, task.definition) then s.pending + {task.name} else s.pending;
  }

  lemma AttemptDropsNothing(s: State, id: TaskId, pendingAuth: bool)
    requires id in s.tasks
    ensures var t := Attempts(s, id, pendingAuth); t.retries == s.retries && PendingStep(s, t, s.tasks[id])
  {
    var connection := ConnectionOf(s, s.tasks[id].name);
    if connection.Some? { PublishDropsNothing(s, id, connection.value); }
  }

  lemma CheckKeepsFrame(s: State, id: TaskId, pendingAuth: bool)
    requires id in s.tasks && !s.tasks[id].waiting.Finished?
    ensures TaskFrame(s, CheckStarts(s, id, pendingAuth), id)
  {
    var t, u := s.tasks[id], s.(retries := ShouldAttempt(s, s.tasks[id].name).1);
    if t.definition.disabled || Quiet(s, t) || !IsRegistered(s, t.name, t.definition) {
      FinishIsATaskStep(s, id, Finished);
    } else if StatusOfOption(s, ConnectionOf(s, t.name)) != Some(NeedsAuth) {
      FinishIsATaskStep(u, id, Finished);
      AttemptKeepsFrame(u, id, pendingAuth);
      FrameAfterGate(s, u, CheckStarts(s, id, pendingAuth), id);
    }
  }

  lemma FrameAfterGate(s: State, u: State, t: State, id: TaskId)
    requires u == s.(retries := u.retries) && TaskFrame(u, t, id)
    ensures TaskFrame(s, t, id)
  {}

  /** The start of a check records no failure. */
  lemma CheckDropsOnly(s: State, id: TaskId, pendingAuth: bool)
    requires id in s.tasks
    ensures var t := CheckStarts(s, id, pendingAuth);
      && (t.retries == s.retries || t.retries == s.retries - {s.tasks[id].name})
      && PendingStep(s, t, s.tasks[id])
  {
    var (attempt, retries) := ShouldAttempt(s, s.tasks[id].name);
    AttemptDropsNothing(s.(retries := retries), id, pendingAuth);
  }

  lemma CheckIsATaskStep(s: State, id: TaskId, pendingAuth: bool)
    requires id in s.tasks && !s.tasks[id].waiting.Finished?
    ensures TaskStep(s, CheckStarts(s, id, pendingAuth), id)
  {
    CheckKeepsFrame(s, id, pendingAuth);
    CheckDropsOnly(s, id, pendingAuth);
  }

  lemma PublishIsATaskStep(s: State, id: TaskId, connection: nat)
    requires id in s.tasks && !s.tasks[id].waiting.Finished?
    ensures TaskStep(s, PublishStarts(s, id, connection), id)
  {}

  lemma AuthIsATaskStep(s: State, id: TaskId, connection: nat)
    requires id in s.tasks && !s.tasks[id].waiting.Finished?
    ensures TaskStep(s, AuthStarts(s, id, connection), id)
  {}

  lemma HealthIsATaskStep(s: State, id: TaskId)
    requires id in s.tasks && !s.tasks[id].waiting.Finished?
    ensures TaskStep(s, Healthy(s, id), id)
  {}

  lemma RecordIsATaskStep(s: State, id: TaskId, connection: Option<nat>)
    requires id in s.tasks && !s.tasks[id].waiting.Finished?
    ensures var t := s.tasks[id];
      TaskStep(s, Wait(Recorded(s, t.name, t.definition, connection), id, Finished), id)
  {
    var t := s.tasks[id];
    assert RecordsFailure(s, Wait(Recorded(s, t.name, t.definition, connection), id, Finished), t);
  }

  lemma AgainIsATaskStep(s: State, id: TaskId, pendingAuth: bool)
    requires id in s.tasks && !s.tasks[id].waiting.Finished?
    ensures var again := s.(tasks := s.tasks[id := s.tasks[id].(retrySuperseded := false)]);
      TaskStep(s, CheckStarts(again, id, pendingAuth), id)
  {
    var again := s.(tasks := s.tasks[id := s.tasks[id].(retrySuperseded := false)]);
    CheckKeepsFrame(again, id, pendingAuth);
    CheckDropsOnly(again, id, pendingAuth);
    FrameAfterFlag(s, again, CheckStarts(again, id, pendingAuth), id);
  }

  lemma FrameAfterFlag(s: State, again: State, t: State, id: TaskId)
    requires id in s.tasks && again == s.(tasks := s.tasks[id := s.tasks[id].(retrySuperseded := false)])
    requires TaskFrame(again, t, id) && !s.tasks[id].waiting.Finished?
    ensures TaskFrame(s, t, id)
  {}

  lemma SupersededIsATaskStep(s: State, id: TaskId, stale: nat, pendingAuth: bool)
    requires id in s.tasks && !s.tasks[id].waiting.Finished?
    ensures TaskStep(s, SupersededStarts(s, id, stale, pendingAuth), id)
  {
    var t := s.tasks[id];
    var current := ConnectionOf(s, t.name);
    var status := StatusOfOption(s, current);
    if !IsRegistered(s, t.name, t.definition) {
      FinishIsATaskStep(s, id, Finished);
    } else if current == Some(stale) && status == Some(Connected) {
      HealthIsATaskStep(s, id);
    } else if status == Some(Connected) {
      PublishIsATaskStep(s, id, current.value);
    } else if status == Some(NeedsAuth) {
      AuthIsATaskStep(s, id, current.value);
    } else if t.retrySuperseded {
      AgainIsATaskStep(s, id, pendingAuth);
    } else {
      FinishIsATaskStep(s, id, Finished);
    }
  }

  lemma FinishIsATaskStep(s: State, id: TaskId, w: Waiting)
    requires id in s.tasks && !s.tasks[id].waiting.Finished?
    ensures TaskStep(s, Wait(s, id, w), id)
  {}

  lemma ConnectIsATaskStep(s: State, id: TaskId, connection: Option<nat>)
    requires id in s.tasks && !s.tasks[id].waiting.Finished?
    ensures TaskStep(s, Connects(s, id, connection), id)
  {
    var t := s.tasks[id];
    if Quiet(s, t) {
      FinishIsATaskStep(s, id, Finished);
    } else if connection.None? {
      RecordIsATaskStep(s, id, ConnectionOf(s, t.name));
    } else {
      RecordIsATaskStep(s, id, connection);
      PublishIsATaskStep(s, id, connection.value);
      AuthIsATaskStep(s, id, connection.value);
    }
  }

  lemma RefreshIsATaskStep(s: State, id: TaskId, held: nat, outcome: RefreshOutcome, pendingAuth: bool)
    requires id in s.tasks && !s.tasks[id].waiting.Finished?
    ensures TaskStep(s, Refreshes(s, id, held, outcome, pendingAuth), id)
  {
    SupersededIsATaskStep(s, id, held, pendingAuth);
    RecordIsATaskStep(s, id, Some(held));
    FinishIsATaskStep(s, id, Finished);
    FinishIsATaskStep(s, id, Reconnect(held));
    HealthIsATaskStep(s, id);
  }

  lemma PublishedIsATaskStep(s: State, id: TaskId, held: nat, ok: bool)
    requires id in s.tasks && !s.tasks[id].waiting.Finished?
    ensures TaskStep(s, Published(s, id, held, ok), id)
  {
    if !ok { RecordIsATaskStep(s, id, Some(held)); }
  }

  /** Whatever a task does changes only itself, the retry state and the mark of its own name, and those only so far. */
  lemma EventIsATaskStep(s: State, e: Event)
    requires Enabled(s, e) && IsTaskEvent(e)
    ensures TaskStep(s, Next(s, e), e.task)
  {
    match e
    case CheckBegins(id, pendingAuth) => CheckIsATaskStep(s, id, pendingAuth);
    case ConnectEnds(id, connection) => ConnectIsATaskStep(s, id, connection);
    case RefreshEnds(id, outcome, pendingAuth) => RefreshIsATaskStep(s, id, s.tasks[id].waiting.held, outcome, pendingAuth);
    case PublishEnds(id, ok) => PublishedIsATaskStep(s, id, s.tasks[id].waiting.held, ok);
    case CallbackEnds(id, ok) => FinishIsATaskStep(s, id, Finished);
  }

  lemma TaskStepKeepsInv(s: State, t: State, id: TaskId)
    requires Inv(s) && TaskStep(s, t, id)
    ensures Inv(t)
  {}

  predicate IsPassEvent(e: Event) { e.StartPass? || e.PassEnds? }

  lemma PassKeepsInv(s: State, e: Event)
    requires Inv(s) && Enabled(s, e) && IsPassEvent(e)
    ensures Inv(Next(s, e))
  {
    match e
    case StartPass => StartKeepsInv(s);
    case PassEnds(pass) => EndKeepsInv(s, pass);
  }

  lemma OldOrNew(s: State, id: TaskId)
    requires Enabled(s, StartPass) && id in Next(s, StartPass).tasks
    ensures var t := Next(s, StartPass).tasks[id];
      (id in s.tasks && t == s.tasks[id]) || (id == (t.pass, t.name) && t.pass == s.started)
  {}

  lemma TaskAfterStart(s: State, id: TaskId)
    requires PassesKnown(s) && TasksRun(s) && Enabled(s, StartPass) && id in Next(s, StartPass).tasks
    ensures var task := Next(s, StartPass).tasks[id];
      && id == (task.pass, task.name) && task.pass < s.started + 1
      && (!task.waiting.Finished? && task.pass !in s.rejected ==> task.pass in s.running + {s.started})
  {
    OldOrNew(s, id);
  }

  lemma StartKeepsTasks(s: State)
    requires PassesKnown(s) && TasksRun(s) && Enabled(s, StartPass)
    ensures PassesKnown(Next(s, StartPass)) && TasksRun(Next(s, StartPass))
  {
    forall id | id in Next(s, StartPass).tasks { TaskAfterStart(s, id); }
  }

  lemma StartKeepsInv(s: State)
    requires Inv(s) && Enabled(s, StartPass)
    ensures Inv(Next(s, StartPass))
  {
    StartKeepsTasks(s);
    assert OneRuns(Next(s, StartPass));
  }

  lemma EndKeepsInv(s: State, pass: nat)
    requires Inv(s) && Enabled(s, PassEnds(pass))
    ensures Inv(Next(s, PassEnds(pass)))
  {}

  lemma OtherKeepsInv(s: State, e: Event)
    requires Inv(s) && Enabled(s, e) && !IsTaskEvent(e) && !IsPassEvent(e)
    ensures Inv(Next(s, e))
  {}

  lemma InvStep(s: State, e: Event)
    requires Inv(s) && Enabled(s, e)
    ensures Inv(Next(s, e))
  {
    if IsTaskEvent(e) {
      EventIsATaskStep(s, e);
      TaskStepKeepsInv(s, Next(s, e), e.task);
    } else if IsPassEvent(e) {
      PassKeepsInv(s, e);
    } else {
      OtherKeepsInv(s, e);
    }
  }

  // ----- whole runs -----

  ghost predicate Runs(s: State, events: seq<Event>)
    decreases |events|
  {
    events == [] || (Enabled(s, events[0]) && Runs(Next(s, events[0]), events[1..]))
  }

  ghost function Run(s: State, events: seq<Event>): State
    requires Runs(s, events)
    decreases |events|
  {
    if events == [] then s else Run(Next(s, events[0]), events[1..])
  }

  lemma {:induction false} RunKeepsInv(s: State, events: seq<Event>)
    requires Inv(s) && Runs(s, events)
    ensures Inv(Run(s, events))
    decreases |events|
  {
    if events != [] {
      InvStep(s, events[0]);
      RunKeepsInv(Next(s, events[0]), events[1..]);
    }
  }

  ghost predicate OnePassWorks(s: State) {
    forall id :: id in s.tasks && !s.tasks[id].waiting.Finished? ==> s.active == Some(s.tasks[id].pass)
  }

  ghost predicate SomeWorks(s: State) {
    exists id :: id in s.tasks && !s.tasks[id].waiting.Finished?
  }

  /** The active pass is ended, or forgotten by shutdown, while one of its tasks still works. */
  ghost predicate CutsShort(s: State, e: Event) {
    SomeWorks(s) && (e.ShutdownClears? || (e.PassEnds? && s.active == Some(e.pass)))
  }

  lemma TaskKeepsOnePass(s: State, e: Event)
    requires OnePassWorks(s) && Enabled(s, e) && IsTaskEvent(e)
    ensures OnePassWorks(Next(s, e))
  {
    EventIsATaskStep(s, e);
  }

  lemma StartKeepsOnePass(s: State)
    requires OnePassWorks(s) && Enabled(s, StartPass)
    ensures OnePassWorks(Next(s, StartPass))
  {
    var t := Next(s, StartPass);
    forall id | id in t.tasks && !t.tasks[id].waiting.Finished? ensures t.active == Some(t.tasks[id].pass) {
      OldOrNew(s, id);
    }
  }

  lemma EndKeepsOnePassIff(s: State, e: Event)
    requires OnePassWorks(s) && Enabled(s, e) && (e.PassEnds? || e.ShutdownClears?)
    ensures OnePassWorks(Next(s, e)) <==> !CutsShort(s, e)
  {
    if CutsShort(s, e) {
      var id :| id in s.tasks && !s.tasks[id].waiting.Finished?;
      assert Next(s, e).tasks[id] == s.tasks[id];
    }
  }

  /** All work stays that of the one active pass at a step, if and only if the step does not cut that pass short. */
  lemma OnePassStepIff(s: State, e: Event)
    requires OnePassWorks(s) && Enabled(s, e)
    ensures OnePassWorks(Next(s, e)) <==> !CutsShort(s, e)
  {
    if IsTaskEvent(e) {
      TaskKeepsOnePass(s, e);
    } else if e.StartPass? {
      StartKeepsOnePass(s);
    } else if e.PassEnds? || e.ShutdownClears? {
      EndKeepsOnePassIff(s, e);
    }
  }

  ghost predicate AlwaysOnePass(s: State, events: seq<Event>)
    requires Runs(s, events)
    decreases |events|
  {
    OnePassWorks(s) && (events == [] || AlwaysOnePass(Next(s, events[0]), events[1..]))
  }

  ghost predicate NeverCutShort(s: State, events: seq<Event>)
    requires Runs(s, events)
    decreases |events|
  {
    events == [] || (!CutsShort(s, events[0]) && NeverCutShort(Next(s, events[0]), events[1..]))
  }

  lemma {:induction false} OnePassIff(s: State, events: seq<Event>)
    requires OnePassWorks(s) && Runs(s, events)
    ensures AlwaysOnePass(s, events) <==> NeverCutShort(s, events)
    decreases |events|
  {
    if events != [] {
      OnePassStepIff(s, events[0]);
      if !CutsShort(s, events[0]) {
        OnePassIff(Next(s, events[0]), events[1..]);
      }
    }
  }

  /**
   In every interleaving: retry states and publication marks are only of registered servers, and all unfinished
   tasks are of the one active pass all along, if and only if no pass is cut short. They are at the end of every run
   in which no task was rejected and health checks were not started again after shutdown began.
   */
  lemma ConvergenceIsSingle(now: int, events: seq<Event>)
    requires Runs(Initial(now), events)
    ensures var s := Run(Initial(now), events);
      && s.retries.Keys <= s.keepAlive.Keys && s.pending <= s.keepAlive.Keys
      && (AlwaysOnePass(Initial(now), events) <==> NeverCutShort(Initial(now), events))
      && (s.rejected == {} && !s.restarted ==> OnePassWorks(s))
  {
    RunKeepsInv(Initial(now), events);
    OnePassIff(Initial(now), events);
  }

  /**
   A task that is rejected, by a health callback or a close that fails, ends its pass for `ensureConverged` while
   the pass's other tasks go on. The next pass then works beside them.
   */
  lemma RejectionLetsPassesOverlap(s: State, id: TaskId, other: TaskId, name: string)
    requires Inv(s) && !s.stopped && name in s.keepAlive
    requires id in s.tasks && (s.tasks[id].waiting.HealthCallback? || s.tasks[id].waiting.CloseCall?)
    requires other in s.tasks && other != id && !s.tasks[other].waiting.Finished?
    requires s.tasks[other].pass == s.tasks[id].pass && s.active == Some(s.tasks[id].pass)
    ensures var pass := s.tasks[id].pass;
      var s1 := Next(s, CallbackEnds(id, false));
      && Enabled(s1, PassEnds(pass)) && Enabled(Next(s1, PassEnds(pass)), StartPass)
      && var t := Next(Next(s1, PassEnds(pass)), StartPass);
      && !OnePassWorks(t) && other in t.tasks && !t.tasks[other].waiting.Finished?
      && (s.started, name) in t.tasks && t.tasks[(s.started, name)].waiting.Turn? && t.tasks[other].pass < s.started
  {
    var pass := s.tasks[id].pass;
    var t := Next(Next(Next(s, CallbackEnds(id, false)), PassEnds(pass)), StartPass);
    assert other.0 < s.started;
    assert t.tasks[other] == s.tasks[other];
    assert (s.started, name) in NewTasks(s.started, s.keepAlive);
    assert t.active == Some(s.started);
  }

  /**
   Shutdown forgets the active pass once the pass it waited for has ended. Where health checks were started again
   meanwhile, that can be a pass that still works, and the next one then works beside it.
   */
  lemma RestartLetsPassesOverlap(s: State, other: TaskId, name: string)
    requires Inv(s) && !s.stopped && name in s.keepAlive && Enabled(s, ShutdownClears)
    requires other in s.tasks && !s.tasks[other].waiting.Finished? && s.active == Some(s.tasks[other].pass)
    ensures Enabled(Next(s, ShutdownClears), StartPass)
    ensures var t := Next(Next(s, ShutdownClears), StartPass);
      && !OnePassWorks(t) && other in t.tasks && !t.tasks[other].waiting.Finished?
      && (s.started, name) in t.tasks && t.tasks[(s.started, name)].waiting.Turn? && t.tasks[other].pass < s.started
  {
    var t := Next(Next(s, ShutdownClears), StartPass);
    assert t.tasks[other] == s.tasks[other];
    assert (s.started, name) in NewTasks(s.started, s.keepAlive);
  }

  // ----- tasks of replaced definitions -----

  predicate IsStale(s: State, id: TaskId) {
    id in s.tasks && !IsRegistered(s, s.tasks[id].name, s.tasks[id].definition)
  }

  lemma StaleCheckFinishes(s: State, id: TaskId, pendingAuth: bool)
    requires IsStale(s, id)
    ensures CheckStarts(s, id, pendingAuth) == Wait(s, id, Finished)
  {}

  lemma StaleRefreshFinishes(s: State, id: TaskId, held: nat, outcome: RefreshOutcome, pendingAuth: bool)
    requires IsStale(s, id)
    ensures var t := Refreshes(s, id, held, outcome, pendingAuth);
      t == Wait(s, id, Finished) || t == Wait(s, id, Reconnect(held))
  {}

  lemma StaleConnectClosesOwn(s: State, id: TaskId, connection: Option<nat>)
    requires IsStale(s, id)
    ensures Connects(s, id, connection) == Wait(s, id, Finished) ||
      (connection.Some? && ConnectionOf(s, s.tasks[id].name) == connection && Connects(s, id, connection) == Wait(s, id, CloseCall))
  {}

  lemma StalePublishForgets(s: State, id: TaskId, held: nat, ok: bool)
    requires IsStale(s, id)
    ensures var t, name := Published(s, id, held, ok), s.tasks[id].name;
      && t.retries == (if ok then s.retries - {name} else s.retries)
      && t.pending == (if ok then s.pending - {name} else s.pending)
  {}

  lemma StaleEffect(s: State, e: Event)
    requires Enabled(s, e) && IsTaskEvent(e) && IsStale(s, e.task)
    ensures var t, name := Next(s, e), s.tasks[e.task].name;
      if e.PublishEnds? && e.ok then t.retries == s.retries - {name} && t.pending == s.pending - {name}
      else t.retries == s.retries && t.pending == s.pending
  {
    match e
    case CheckBegins(id, pendingAuth) => StaleCheckFinishes(s, id, pendingAuth);
    case ConnectEnds(id, connection) => StaleConnectClosesOwn(s, id, connection);
    case RefreshEnds(id, outcome, pendingAuth) => StaleRefreshFinishes(s, id, s.tasks[id].waiting.held, outcome, pendingAuth);
    case PublishEnds(id, ok) => StalePublishForgets(s, id, s.tasks[id].waiting.held, ok);
    case CallbackEnds(_, _) =>
  }

  /**
   A task of a definition that is no longer registered records no failure and adds no mark. It leaves the retry
   state and the mark of the server that has its name now alone if and only if it does not end a publication well:
   after that await the code clears both without looking whether the definition is still registered.
   */
  lemma StaleTasksRecordNothing(s: State, e: Event)
    requires Enabled(s, e) && IsTaskEvent(e) && IsStale(s, e.task)
    ensures var t, name := Next(s, e), s.tasks[e.task].name;
      && t.retries.Keys <= s.retries.Keys && t.pending <= s.pending
      && (forall other :: other in t.retries ==> t.retries[other] == s.retries[other])
      && ((t.retries == s.retries && t.pending == s.pending) <==>
          !(e.PublishEnds? && e.ok && (name in s.retries || name in s.pending)))
  {
    StaleEffect(s, e);
    var t, name := Next(s, e), s.tasks[e.task].name;
    assert name in s.retries ==> s.retries - {name} != s.retries;
    assert name in s.pending ==> s.pending - {name} != s.pending;
  }

  // ----- runs in which passes overlap -----

  lemma {:induction false} OneMoreEvent(s: State, events: seq<Event>, e: Event)
    requires Runs(s, events) && Enabled(Run(s, events), e)
    ensures Runs(s, events + [e]) && Run(s, events + [e]) == Next(Run(s, events), e)
    decreases |events|
  {
    if events == [] {
      assert [e][1..] == [] && [] + [e] == [e];
    } else {
      OneMoreEvent(Next(s, events[0]), events[1..], e);
      assert (events + [e])[1..] == events[1..] + [e];
    }
  }

  /** Some run leads to the state. */
  ghost predicate Reached(s: State) {
    exists events :: IsRunTo(events, s)
  }

  ghost predicate IsRunTo(events: seq<Event>, s: State) {
    Runs(Initial(0), events) && Run(Initial(0), events) == s
  }

  lemma ReachedNext(s: State, e: Event)
    requires Reached(s) && Enabled(s, e)
    ensures Reached(Next(s, e))
  {
    var events :| IsRunTo(events, s);
    OneMoreEvent(Initial(0), events, e);
    assert IsRunTo(events + [e], Next(s, e));
  }

  const FIRST := Definition(0, true, false)
  const SECOND := Definition(1, true, false)
  const REPLACEMENT := Definition(2, true, false)

  function TaskOf(pass: nat, name: string, definition: Definition, w: Waiting): Task {
    Task(pass, name, definition, true, w)
  }

  /** Two servers are registered. */
  const REGISTERED := Initial(0).(keepAlive := map["a" := FIRST, "b" := SECOND])

  lemma RegisteredIsReached()
    ensures Reached(REGISTERED)
  {
    assert IsRunTo([], Initial(0));
    ReachedNext(Initial(0), MarkKeepAlive("a", FIRST));
    ReachedNext(Next(Initial(0), MarkKeepAlive("a", FIRST)), MarkKeepAlive("b", SECOND));
  }

  /** A pass over the one server that is registered. */
  lemma StartOfOne(s: State, name: string, definition: Definition)
    requires Reached(s) && Enabled(s, StartPass) && s.keepAlive == map[name := definition]
    ensures Reached(Next(s, StartPass))
    ensures Next(s, StartPass) == s.(active := Some(s.started), started := s.started + 1, running := s.running + {s.started},
      tasks := s.tasks[(s.started, name) := TaskOf(s.started, name, definition, Turn)])
  {
    ReachedNext(s, StartPass);
    assert NewTasks(s.started, s.keepAlive) == map[(s.started, name) := TaskOf(s.started, name, definition, Turn)];
  }

  /** The first pass waits for both to connect. */
  const CONNECTING := REGISTERED.(active := Some(0), started := 1, running := {0},
    tasks := map[(0, "a") := TaskOf(0, "a", FIRST, Connect), (0, "b") := TaskOf(0, "b", SECOND, Connect)])

  lemma StartedIsReached() returns (started: State)
    ensures Reached(started) && started == CONNECTING.(
      tasks := map[(0, "a") := TaskOf(0, "a", FIRST, Turn), (0, "b") := TaskOf(0, "b", SECOND, Turn)])
  {
    RegisteredIsReached();
    ReachedNext(REGISTERED, StartPass);
    started := Next(REGISTERED, StartPass);
    assert NewTasks(0, REGISTERED.keepAlive) ==
      map[(0, "a") := TaskOf(0, "a", FIRST, Turn), (0, "b") := TaskOf(0, "b", SECOND, Turn)];
  }

  lemma ConnectingIsReached()
    ensures Reached(CONNECTING)
  {
    var started := StartedIsReached();
    var first := Wait(started, (0, "a"), Connect);
    assert Next(started, CheckBegins((0, "a"), false)) == first;
    ReachedNext(started, CheckBegins((0, "a"), false));
    assert Next(first, CheckBegins((0, "b"), false)) == CONNECTING;
    ReachedNext(first, CheckBegins((0, "b"), false));
  }

  /** Both are connected, and the first is being published. */
  const PUBLISHING := CONNECTING.(connections := map["a" := 7, "b" := 8], statuses := map[7 := Connected, 8 := Connected],
    pending := {"a"}, tasks := CONNECTING.tasks[(0, "a") := TaskOf(0, "a", FIRST, Publish(7))])

  lemma PublishingIsReached()
    ensures Reached(PUBLISHING)
  {
    ConnectingIsReached();
    var e := ManagerChanges(map["a" := 7, "b" := 8], map[7 := Connected, 8 := Connected]);
    ReachedNext(CONNECTING, e);
    ReachedNext(Next(CONNECTING, e), ConnectEnds((0, "a"), Some(7)));
    assert Next(Next(CONNECTING, e), ConnectEnds((0, "a"), Some(7))) == PUBLISHING;
  }

  /** The second is unregistered, its connection is closed, and that has failed. */
  const REJECTED := PUBLISHING.(keepAlive := map["a" := FIRST], rejected := {0},
    tasks := PUBLISHING.tasks[(0, "b") := TaskOf(0, "b", SECOND, Finished)])

  lemma RejectedIsReached()
    ensures Reached(REJECTED)
  {
    PublishingIsReached();
    var without := PUBLISHING.(keepAlive := map["a" := FIRST]);
    assert Next(PUBLISHING, Unregister("b")) == without;
    ReachedNext(PUBLISHING, Unregister("b"));
    var closing := Wait(without, (0, "b"), CloseCall);
    assert Next(without, ConnectEnds((0, "b"), Some(8))) == closing;
    ReachedNext(without, ConnectEnds((0, "b"), Some(8)));
    assert Next(closing, CallbackEnds((0, "b"), false)) == REJECTED;
    ReachedNext(closing, CallbackEnds((0, "b"), false));
  }

  /** The pass has ended for `ensureConverged`, while the first server is still being published. */
  const ENDED := REJECTED.(active := None, running := {})

  lemma EndedIsReached()
    ensures Reached(ENDED)
  {
    RejectedIsReached();
    ReachedNext(REJECTED, PassEnds(0));
    assert Next(REJECTED, PassEnds(0)) == ENDED;
  }

  /** Two passes work on one server at once. */
  ghost predicate PassesOverlap(s: State, name: string) {
    exists p, q :: p != q && Works(s, p, name) && Works(s, q, name)
  }

  ghost predicate Works(s: State, pass: nat, name: string) {
    (pass, name) in s.tasks && !s.tasks[(pass, name)].waiting.Finished?
  }

  /** A close that fails does let the next pass work beside the first. */
  lemma OverlapAfterRejection() returns (s: State)
    ensures Reached(s) && PassesOverlap(s, "a")
  {
    EndedIsReached();
    StartOfOne(ENDED, "a", FIRST);
    s := Next(ENDED, StartPass);
    assert Works(s, 0, "a") && Works(s, 1, "a");
  }

  /** Health checks are started again right after shutdown, before it forgets the active pass. */
  const RESTARTED := Initial(0).(keepAlive := map["a" := FIRST], shutdown := WaitingFor(None), restarted := true)

  lemma RestartedIsReached()
    ensures Reached(RESTARTED)
  {
    assert IsRunTo([], Initial(0));
    ReachedNext(Initial(0), MarkKeepAlive("a", FIRST));
    var s1 := Initial(0).(keepAlive := map["a" := FIRST]);
    assert Next(Initial(0), MarkKeepAlive("a", FIRST)) == s1;
    ReachedNext(s1, ShutdownBegins);
    var s2 := s1.(stopped := true, shutdown := Begun);
    ReachedNext(s2, ShutdownWaits);
    ReachedNext(s2.(shutdown := WaitingFor(None)), StartHealthChecks);
  }

  const RESTART_OVERLAP := RESTARTED.(active := Some(1), started := 2, running := {0, 1}, shutdown := Cleared,
    tasks := map[(0, "a") := TaskOf(0, "a", FIRST, Turn), (1, "a") := TaskOf(1, "a", FIRST, Turn)])

  /** So does such a restart: shutdown forgets the pass that was started since. */
  lemma OverlapAfterRestart() returns (s: State)
    ensures Reached(s) && PassesOverlap(s, "a") && s.rejected == {} && s == RESTART_OVERLAP
  {
    RestartedIsReached();
    StartOfOne(RESTARTED, "a", FIRST);
    var working := Next(RESTARTED, StartPass);
    ReachedNext(working, ShutdownClears);
    var cleared := Next(working, ShutdownClears);
    StartOfOne(cleared, "a", FIRST);
    s := Next(cleared, StartPass);
    assert Works(s, 0, "a") && Works(s, 1, "a");
  }

  /** The first server is replaced, and the next pass has failed to connect the replacement. */
  const REPLACED := ENDED.(keepAlive := map["a" := REPLACEMENT], pending := {}, connections := map[], statuses := map[],
    active := Some(1), started := 2, running := {1},
    retries := map["a" := Retry(1, RETRY_BASE_MS, None, None)],
    tasks := ENDED.tasks[(1, "a") := TaskOf(1, "a", REPLACEMENT, Finished)])

  lemma ReplacedIsReached()
    ensures Reached(REPLACED)
  {
    EndedIsReached();
    var s1 := ENDED.(keepAlive := map[], pending := {});
    assert Next(ENDED, Unregister("a")) == s1;
    ReachedNext(ENDED, Unregister("a"));
    var s2 := s1.(keepAlive := map["a" := REPLACEMENT]);
    assert Next(s1, MarkKeepAlive("a", REPLACEMENT)) == s2;
    ReachedNext(s1, MarkKeepAlive("a", REPLACEMENT));
    var s3 := s2.(connections := map[], statuses := map[]);
    assert Next(s2, ManagerChanges(map[], map[])) == s3;
    ReachedNext(s2, ManagerChanges(map[], map[]));
    ReplacedIsReachedFrom(s3);
  }

  lemma ReplacedIsReachedFrom(s: State)
    requires Reached(s)
    requires s == ENDED.(keepAlive := map["a" := REPLACEMENT], pending := {}, connections := map[], statuses := map[])
    ensures Reached(REPLACED)
  {
    StartOfOne(s, "a", REPLACEMENT);
    var started := Next(s, StartPass);
    FailsToConnect(started, (1, "a"));
    assert Power(0) == 1;
    var failed := Recorded(started, "a", REPLACEMENT, None);
    assert failed.retries == REPLACED.retries;
    assert Wait(failed, (1, "a"), Finished).tasks == REPLACED.tasks;
    assert Wait(failed, (1, "a"), Finished) == REPLACED;
  }

  /** A check that finds no connection and makes none. */
  lemma FailsToConnect(s: State, id: TaskId)
    requires Reached(s) && id in s.tasks && s.tasks[id].waiting.Turn? && !Quiet(s, s.tasks[id])
    requires var t := s.tasks[id];
      !t.definition.disabled && IsRegistered(s, t.name, t.definition) && t.name !in s.connections && t.name !in s.retries
    ensures Reached(Wait(Recorded(s, s.tasks[id].name, s.tasks[id].definition, None), id, Finished))
  {
    var waiting := Wait(s, id, Connect);
    assert Next(s, CheckBegins(id, false)) == waiting;
    ReachedNext(s, CheckBegins(id, false));
    ReachedNext(waiting, ConnectEnds(id, None));
    assert Next(waiting, ConnectEnds(id, None)) == Wait(Recorded(s, s.tasks[id].name, s.tasks[id].definition, None), id, Finished);
  }

  /** A check of a replaced definition does erase what its replacement has recorded since, where passes overlap. */
  lemma ErasureHappens() returns (s: State, e: Event)
    ensures Reached(s) && Enabled(s, e) && IsTaskEvent(e) && IsStale(s, e.task)
    ensures var name := s.tasks[e.task].name; name in s.retries && name !in Next(s, e).retries
  {
    ReplacedIsReached();
    s, e := REPLACED, PublishEnds((0, "a"), true);
  }

  /** Whether a check of the definition that is registered has taken a step since it was. */
  predicate Acted(s: State, e: Event, name: string, acted: bool)
    requires Enabled(s, e)
  {
    if (e.MarkKeepAlive? || e.Unregister?) && e.name == name then false
    else acted || (IsTaskEvent(e) && s.tasks[e.task].name == name && !IsStale(s, e.task))
  }

  ghost predicate ActedSince(s: State, events: seq<Event>, name: string, acted: bool)
    requires Runs(s, events)
    decreases |events|
  {
    if events == [] then acted else ActedSince(Next(s, events[0]), events[1..], name, Acted(s, events[0], name, acted))
  }

  /** Then no stale check of the server is at work any more. */
  ghost predicate NoneStale(s: State, name: string, acted: bool) {
    acted ==> forall id :: IsStale(s, id) && s.tasks[id].name == name ==> s.tasks[id].waiting.Finished?
  }

  lemma OneAtWork(s: State, e: Event, name: string)
    requires PassesKnown(s) && OnePassWorks(s) && Enabled(s, e) && IsTaskEvent(e) && s.tasks[e.task].name == name
    ensures forall id :: id in s.tasks && s.tasks[id].name == name && id != e.task ==> s.tasks[id].waiting.Finished?
  {}

  lemma NoneStaleStep(s: State, e: Event, name: string, acted: bool)
    requires PassesKnown(s) && OnePassWorks(s) && Enabled(s, e) && NoneStale(s, name, acted)
    ensures NoneStale(Next(s, e), name, Acted(s, e, name, acted))
  {
    if Acted(s, e, name, acted) {
      if IsTaskEvent(e) {
        TaskLeavesNoneStale(s, e, name, acted);
      } else if e.StartPass? {
        StartLeavesNoneStale(s, name);
      }
    }
  }

  lemma TaskLeavesNoneStale(s: State, e: Event, name: string, acted: bool)
    requires PassesKnown(s) && OnePassWorks(s) && Enabled(s, e) && IsTaskEvent(e) && NoneStale(s, name, acted)
    requires Acted(s, e, name, acted)
    ensures NoneStale(Next(s, e), name, true)
  {
    EventIsATaskStep(s, e);
    if s.tasks[e.task].name == name { OneAtWork(s, e, name); }
  }

  lemma StartLeavesNoneStale(s: State, name: string)
    requires Enabled(s, StartPass) && NoneStale(s, name, true)
    ensures NoneStale(Next(s, StartPass), name, true)
  {
    forall id | IsStale(Next(s, StartPass), id) && Next(s, StartPass).tasks[id].name == name
      ensures Next(s, StartPass).tasks[id].waiting.Finished?
    {
      OldOrRegistered(s, id);
    }
  }

  lemma OldOrRegistered(s: State, id: TaskId)
    requires Enabled(s, StartPass) && id in Next(s, StartPass).tasks
    ensures var t := Next(s, StartPass).tasks[id]; (id in s.tasks && t == s.tasks[id]) || IsRegistered(s, t.name, t.definition)
  {}

  lemma {:induction false} NoneStaleLater(s: State, events: seq<Event>, name: string, acted: bool)
    requires Inv(s) && Runs(s, events) && AlwaysOnePass(s, events) && NoneStale(s, name, acted)
    ensures NoneStale(Run(s, events), name, ActedSince(s, events, name, acted))
    decreases |events|
  {
    if events != [] {
      InvStep(s, events[0]);
      NoneStaleStep(s, events[0], name, acted);
      NoneStaleLater(Next(s, events[0]), events[1..], name, Acted(s, events[0], name, acted));
    }
  }

  /**
   While one pass works, a check of a replaced definition erases nothing of its replacement: as long as it is at work,
   no check of the definition that is registered now has taken a step since that was registered.
   */
  lemma OnePassErasesNothing(now: int, events: seq<Event>, id: TaskId)
    requires Runs(Initial(now), events) && AlwaysOnePass(Initial(now), events)
    requires IsStale(Run(Initial(now), events), id) && !Run(Initial(now), events).tasks[id].waiting.Finished?
    ensures !ActedSince(Initial(now), events, Run(Initial(now), events).tasks[id].name, false)
  {
    NoneStaleLater(Initial(now), events, Run(Initial(now), events).tasks[id].name, false);
  }

  // ----- explicit closes -----

  /** Whether a task waits for a connection to close. */
  predicate Closing(s: State, id: TaskId) { id in s.tasks && s.tasks[id].waiting.CloseCall? }

  lemma PublishClosesNothing(s: State, id: TaskId, connection: nat)
    requires id in s.tasks && !IsStale(s, id)
    ensures !Closing(PublishStarts(s, id, connection), id) && !Closing(AuthStarts(s, id, connection), id)
  {}

  lemma ConnectClosesNothing(s: State, id: TaskId, connection: Option<nat>)
    requires id in s.tasks && !IsStale(s, id)
    ensures !Closing(Connects(s, id, connection), id)
  {
    if connection.Some? { PublishClosesNothing(s, id, connection.value); }
  }

  lemma CheckClosesNothing(s: State, id: TaskId, pendingAuth: bool)
    requires id in s.tasks
    ensures !Closing(CheckStarts(s, id, pendingAuth), id)
  {
    if !IsStale(s, id) {
      var u := s.(retries := ShouldAttempt(s, s.tasks[id].name).1);
      AttemptClosesNothing(u, id, pendingAuth);
    }
  }

  lemma AttemptClosesNothing(s: State, id: TaskId, pendingAuth: bool)
    requires id in s.tasks && !IsStale(s, id)
    ensures !Closing(Attempts(s, id, pendingAuth), id)
  {
    var connection := ConnectionOf(s, s.tasks[id].name);
    if connection.Some? { PublishClosesNothing(s, id, connection.value); }
  }

  lemma SupersededClosesNothing(s: State, id: TaskId, stale: nat, pendingAuth: bool)
    requires id in s.tasks
    ensures !Closing(SupersededStarts(s, id, stale, pendingAuth), id)
  {
    if !IsStale(s, id) {
      var current := ConnectionOf(s, s.tasks[id].name);
      if current.Some? { PublishClosesNothing(s, id, current.value); }
      CheckClosesNothing(s.(tasks := s.tasks[id := s.tasks[id].(retrySuperseded := false)]), id, pendingAuth);
    }
  }

  lemma RefreshClosesNothing(s: State, id: TaskId, held: nat, outcome: RefreshOutcome, pendingAuth: bool)
    requires id in s.tasks
    ensures !Closing(Refreshes(s, id, held, outcome, pendingAuth), id)
  {
    SupersededClosesNothing(s, id, held, pendingAuth);
  }

  lemma OthersWaitOn(s: State, e: Event, id: TaskId)
    requires Enabled(s, e) && id in s.tasks && id in Next(s, e).tasks && !(IsTaskEvent(e) && e.task == id)
    ensures Next(s, e).tasks[id].waiting == s.tasks[id].waiting || Next(s, e).tasks[id].waiting.Turn?
  {
    if IsTaskEvent(e) {
      EventIsATaskStep(s, e);
    }
  }

  /** An explicit close is only of the connection its task was just given, and only while that is still the current one. */
  lemma CloseHitsOnlyOwnConnection(s: State, e: Event, id: TaskId)
    requires Enabled(s, e) && id in s.tasks && !Closing(s, id) && Closing(Next(s, e), id)
    ensures e.ConnectEnds? && e.task == id && e.connection.Some? && IsStale(s, id)
    ensures ConnectionOf(s, s.tasks[id].name) == e.connection
  {
    if !(IsTaskEvent(e) && e.task == id) {
      OthersWaitOn(s, e, id);
    } else {
      match e
      case CheckBegins(_, pendingAuth) => CheckClosesNothing(s, id, pendingAuth);
      case ConnectEnds(_, connection) =>
        if IsStale(s, id) { StaleConnectClosesOwn(s, id, connection); } else { ConnectClosesNothing(s, id, connection); }
      case RefreshEnds(_, outcome, pendingAuth) => RefreshClosesNothing(s, id, s.tasks[id].waiting.held, outcome, pendingAuth);
      case PublishEnds(_, _) =>
      case CallbackEnds(_, _) =>
    }
  }

  // ----- backoff -----

  predicate IsFinished(s: State, id: TaskId) { id in s.tasks && s.tasks[id].waiting.Finished? }

  /** Neither the manager nor the check's pass is stopped. */
  predicate MayGoOn(s: State, t: Task) { !s.stopped && t.pass !in s.aborted }

  /** The server is kept alive with this very definition. */
  predicate IsCurrent(s: State, name: string, definition: Definition) {
    name in s.keepAlive && s.keepAlive[name] == definition
  }

  /** The end of a check's refresh makes it look at a connection that has replaced the one it refreshed. */
  predicate FindsReplaced(s: State, t: Task, outcome: RefreshOutcome, held: nat) {
    outcome.Superseded? ||
    (outcome.RefreshFailed? && MayGoOn(s, t) && (ConnectionOf(s, t.name) != Some(held) || StatusOf(s, held) != Connected))
  }

  /** A check of the server fails, and its definition is the registered one. */
  predicate Fails(s: State, e: Event, name: string)
    requires Enabled(s, e)
  {
    IsTaskEvent(e) && s.tasks[e.task].name == name && IsCurrent(s, name, s.tasks[e.task].definition) &&
    match e
    case ConnectEnds(id, connection) =>
      MayGoOn(s, s.tasks[id]) && (connection.None? || StatusOf(s, connection.value).OtherStatus?)
    case RefreshEnds(id, outcome, _) =>
      outcome.TimedOut? || (outcome == RefreshFailed(false) && MayGoOn(s, s.tasks[id]) &&
                            !FindsReplaced(s, s.tasks[id], outcome, s.tasks[id].waiting.held))
    case PublishEnds(_, ok) => !ok && !s.stopped
    case _ => false
  }

  /** The connection that a failure is about. */
  function FailedOn(s: State, e: Event, name: string): Option<nat>
    requires Enabled(s, e)
  {
    match e
    case ConnectEnds(_, connection) => if connection.Some? then connection else ConnectionOf(s, name)
    case RefreshEnds(id, _, _) => Some(s.tasks[id].waiting.held)
    case PublishEnds(id, _) => Some(s.tasks[id].waiting.held)
    case _ => None
  }

  /** A check of the server publishes, finds its connection healthy, or learns that the user must sign in. */
  predicate EndsWell(s: State, e: Event, name: string)
    requires Enabled(s, e)
  {
    IsTaskEvent(e) && s.tasks[e.task].name == name &&
    match e
    case ConnectEnds(id, connection) =>
      MayGoOn(s, s.tasks[id]) && IsCurrent(s, name, s.tasks[id].definition) &&
      connection.Some? && StatusOf(s, connection.value).NeedsAuth?
    case RefreshEnds(id, outcome, _) =>
      IsCurrent(s, name, s.tasks[id].definition) &&
      (outcome.Refreshed? ||
       (FindsReplaced(s, s.tasks[id], outcome, s.tasks[id].waiting.held) && IsGood(s, name, s.tasks[id].waiting.held)))
    case PublishEnds(_, ok) => ok
    case _ => false
  }

  predicate IsGood(s: State, name: string, held: nat) {
    var current := ConnectionOf(s, name);
    StatusOfOption(s, current) == Some(NeedsAuth) || (current == Some(held) && StatusOf(s, held).Connected?)
  }

  /** What ends a row of failures of a server. */
  predicate StartsAfresh(s: State, e: Event, name: string)
    requires Enabled(s, e)
  {
    || e == Unregister(name) || e.ShutdownClears? || EndsWell(s, e, name)
    || (Fails(s, e, name) && FailedOn(s, e, name) != ConnectionOf(s, name))
    || (e.ManagerChanges? && Seen(Next(s, e), name) != Seen(s, name))
  }

  /** The connection of a server and its status. */
  function Seen(s: State, name: string): (Option<nat>, Option<Status>) {
    (ConnectionOf(s, name), StatusOfOption(s, ConnectionOf(s, name)))
  }

  /** How many failures a server has had in a row, and when the last was, counted from the events alone. */
  datatype FailureLog = FailureLog(count: nat, lastAt: int)

  const NO_FAILURES := FailureLog(0, 0)

  function Logged(s: State, e: Event, name: string, log: FailureLog): FailureLog
    requires Enabled(s, e)
  {
    if StartsAfresh(s, e, name) then NO_FAILURES
    else if Fails(s, e, name) then FailureLog(log.count + 1, s.now)
    else log
  }

  ghost function LogOf(s: State, events: seq<Event>, name: string, log: FailureLog): FailureLog
    requires Runs(s, events)
    decreases |events|
  {
    if events == [] then log else LogOf(Next(s, events[0]), events[1..], name, Logged(s, events[0], name, log))
  }

  /** While there are failures in a row, there is a retry state of the current connection that makes up for all of them. */
  predicate BacksOff(s: State, name: string, log: FailureLog) {
    log.count > 0 ==>
      && name in s.retries && (s.retries[name].connection, s.retries[name].status) == Seen(s, name)
      && s.retries[name].attempts >= log.count
      && s.retries[name].nextAttemptAt == log.lastAt + Delay(s.retries[name].attempts)
  }

  lemma GateKeepsRetry(s: State, id: TaskId, pendingAuth: bool, log: FailureLog)
    requires id in s.tasks && log.count > 0 && BacksOff(s, s.tasks[id].name, log)
    ensures CheckStarts(s, id, pendingAuth).retries == s.retries
  {
    AttemptDropsNothing(s, id, pendingAuth);
  }

  lemma SupersededKeepsRetry(s: State, id: TaskId, stale: nat, pendingAuth: bool, log: FailureLog)
    requires id in s.tasks && log.count > 0 && BacksOff(s, s.tasks[id].name, log)
    requires !(IsRegistered(s, s.tasks[id].name, s.tasks[id].definition) && IsGood(s, s.tasks[id].name, stale))
    ensures SupersededStarts(s, id, stale, pendingAuth).retries == s.retries
  {
    GateKeepsRetry(s.(tasks := s.tasks[id := s.tasks[id].(retrySuperseded := false)]), id, pendingAuth, log);
  }

  lemma RefreshKeepsRetry(s: State, e: Event, name: string, log: FailureLog)
    requires Enabled(s, e) && e.RefreshEnds? && s.tasks[e.task].name == name && log.count > 0 && BacksOff(s, name, log)
    requires !Fails(s, e, name) && !EndsWell(s, e, name)
    ensures Next(s, e).retries == s.retries
  {
    var t := s.tasks[e.task];
    if FindsReplaced(s, t, e.outcome, t.waiting.held) {
      SupersededKeepsRetry(s, e.task, t.waiting.held, e.pendingAuth, log);
    }
  }

  lemma ConnectKeepsRetry(s: State, e: Event, name: string)
    requires Enabled(s, e) && e.ConnectEnds? && s.tasks[e.task].name == name
    requires !Fails(s, e, name) && !EndsWell(s, e, name)
    ensures Next(s, e).retries == s.retries
  {}

  lemma CheckKeepsRetry(s: State, e: Event, name: string, log: FailureLog)
    requires Enabled(s, e) && IsTaskEvent(e) && s.tasks[e.task].name == name && log.count > 0 && BacksOff(s, name, log)
    requires !Fails(s, e, name) && !EndsWell(s, e, name)
    ensures Next(s, e).retries == s.retries
  {
    match e
    case CheckBegins(id, pendingAuth) => GateKeepsRetry(s, id, pendingAuth, log);
    case ConnectEnds(_, _) => ConnectKeepsRetry(s, e, name);
    case RefreshEnds(_, _, _) => RefreshKeepsRetry(s, e, name, log);
    case PublishEnds(_, _) =>
    case CallbackEnds(_, _) =>
  }

  lemma FailureRecords(s: State, e: Event, name: string)
    requires Enabled(s, e) && Fails(s, e, name)
    ensures Next(s, e).retries == Recorded(s, name, s.tasks[e.task].definition, FailedOn(s, e, name)).retries
  {}

  lemma RecordBacksOff(s: State, t: State, name: string, definition: Definition, log: FailureLog)
    requires BacksOff(s, name, log) && IsRegistered(s, name, definition) && Seen(t, name) == Seen(s, name)
    requires t.retries == Recorded(s, name, definition, ConnectionOf(s, name)).retries
    ensures BacksOff(t, name, FailureLog(log.count + 1, s.now))
  {}

  lemma SeesTheSame(s: State, t: State, id: TaskId, name: string)
    requires TaskFrame(s, t, id)
    ensures Seen(t, name) == Seen(s, name)
  {}

  lemma CheckKeepsLog(s: State, e: Event, name: string, log: FailureLog)
    requires Enabled(s, e) && IsTaskEvent(e) && s.tasks[e.task].name == name && BacksOff(s, name, log)
    ensures BacksOff(Next(s, e), name, Logged(s, e, name, log))
  {
    EventIsATaskStep(s, e);
    SeesTheSame(s, Next(s, e), e.task, name);
    if Fails(s, e, name) {
      FailureRecords(s, e, name);
      if !StartsAfresh(s, e, name) {
        RecordBacksOff(s, Next(s, e), name, s.tasks[e.task].definition, log);
      }
    } else if log.count > 0 && !EndsWell(s, e, name) {
      CheckKeepsRetry(s, e, name, log);
    }
  }

  lemma OtherCheckKeepsLog(s: State, e: Event, name: string, log: FailureLog)
    requires Enabled(s, e) && IsTaskEvent(e) && s.tasks[e.task].name != name && BacksOff(s, name, log)
    ensures BacksOff(Next(s, e), name, log)
  {
    EventIsATaskStep(s, e);
    SeesTheSame(s, Next(s, e), e.task, name);
    OtherRetriesStay(s, Next(s, e), s.tasks[e.task], name);
  }

  lemma SameRetryBacksOff(s: State, t: State, name: string, log: FailureLog)
    requires BacksOff(s, name, log) && Seen(t, name) == Seen(s, name) && SameRetry(s, t, name)
    ensures BacksOff(t, name, log)
  {}

  predicate SameRetry(s: State, t: State, name: string) {
    (name in t.retries <==> name in s.retries) && (name in s.retries ==> t.retries[name] == s.retries[name])
  }

  lemma OtherEventKeepsRetry(s: State, e: Event, name: string)
    requires Enabled(s, e) && !IsTaskEvent(e) && !StartsAfresh(s, e, name)
    ensures Seen(Next(s, e), name) == Seen(s, name) && SameRetry(s, Next(s, e), name)
  {
    match e
    case Tick(_) =>
    case MarkKeepAlive(_, _) =>
    case Unregister(other) => assert other != name;
    case Stop =>
    case StartHealthChecks =>
    case ManagerChanges(_, _) =>
    case StartPass =>
    case AbortPass(_) =>
    case PassEnds(_) =>
    case ShutdownBegins =>
    case ShutdownWaits =>
  }

  lemma OtherEventKeepsLog(s: State, e: Event, name: string, log: FailureLog)
    requires Enabled(s, e) && !IsTaskEvent(e) && BacksOff(s, name, log)
    ensures BacksOff(Next(s, e), name, Logged(s, e, name, log))
  {
    if !StartsAfresh(s, e, name) {
      OtherEventKeepsRetry(s, e, name);
      SameRetryBacksOff(s, Next(s, e), name, log);
    }
  }

  lemma OtherRetriesStay(s: State, t: State, task: Task, name: string)
    requires RetriesStep(s, t, task) && task.name != name
    ensures SameRetry(s, t, name)
  {}

  /**
   Whatever happens next, a row of failures is remembered: only what starts it afresh can remove or replace its
   retry state, and a further failure makes that wait for one failure more, from now on.
   */
  lemma FailuresAreCounted(s: State, e: Event, name: string, log: FailureLog)
    requires Enabled(s, e) && BacksOff(s, name, log)
    ensures BacksOff(Next(s, e), name, Logged(s, e, name, log))
  {
    if !IsTaskEvent(e) {
      OtherEventKeepsLog(s, e, name, log);
    } else if s.tasks[e.task].name == name {
      CheckKeepsLog(s, e, name, log);
    } else {
      OtherCheckKeepsLog(s, e, name, log);
    }
  }

  lemma {:induction false} LogIsKept(s: State, events: seq<Event>, name: string, log: FailureLog)
    requires Runs(s, events) && BacksOff(s, name, log)
    ensures BacksOff(Run(s, events), name, LogOf(s, events, name, log))
    decreases |events|
  {
    if events != [] {
      FailuresAreCounted(s, events[0], name, log);
      LogIsKept(Next(s, events[0]), events[1..], name, Logged(s, events[0], name, log));
    }
  }

  /** The last failure is as long ago as doubling from 30 seconds up to five minutes asks for. */
  predicate IsDue(s: State, log: FailureLog) {
    log.count > 0 ==> s.now >= log.lastAt + Min(RETRY_BASE_MS * Power(log.count - 1), RETRY_MAX_MS)
  }

  /** A check that a superseded refresh starts again. */
  predicate ChecksAgain(s: State, id: TaskId) {
    id in s.tasks && s.tasks[id].retrySuperseded &&
    var status := StatusOfOption(s, ConnectionOf(s, s.tasks[id].name));
    status != Some(Connected) && status != Some(NeedsAuth)
  }

  lemma GateHolds(s: State, id: TaskId, pendingAuth: bool, log: FailureLog)
    requires id in s.tasks && BacksOff(s, s.tasks[id].name, log) && !IsFinished(CheckStarts(s, id, pendingAuth), id)
    ensures IsDue(s, log)
  {
    if log.count > 0 {
      DelayIsCappedDoubling(log.count, s.retries[s.tasks[id].name].attempts);
    }
  }

  lemma SecondGateHolds(s: State, id: TaskId, stale: nat, pendingAuth: bool, log: FailureLog)
    requires ChecksAgain(s, id) && BacksOff(s, s.tasks[id].name, log)
    requires !IsFinished(SupersededStarts(s, id, stale, pendingAuth), id)
    ensures IsDue(s, log)
  {
    var again := s.(tasks := s.tasks[id := s.tasks[id].(retrySuperseded := false)]);
    assert SupersededStarts(s, id, stale, pendingAuth) == CheckStarts(again, id, pendingAuth);
    GateHolds(again, id, pendingAuth, log);
  }

  /** In every run: no check passes its gate too soon, neither when it begins nor when it begins again. */
  lemma NoCheckPassesItsGate(now: int, events: seq<Event>, id: TaskId, stale: nat, pendingAuth: bool)
    requires Runs(Initial(now), events) && id in Run(Initial(now), events).tasks
    ensures var s := Run(Initial(now), events);
      var log := LogOf(Initial(now), events, s.tasks[id].name, NO_FAILURES);
      && (!IsFinished(CheckStarts(s, id, pendingAuth), id) ==> IsDue(s, log))
      && (ChecksAgain(s, id) && !IsFinished(SupersededStarts(s, id, stale, pendingAuth), id) ==> IsDue(s, log))
  {
    var s := Run(Initial(now), events);
    var log := LogOf(Initial(now), events, s.tasks[id].name, NO_FAILURES);
    LogIsKept(Initial(now), events, s.tasks[id].name, NO_FAILURES);
    if !IsFinished(CheckStarts(s, id, pendingAuth), id) {
      GateHolds(s, id, pendingAuth, log);
    }
    if ChecksAgain(s, id) && !IsFinished(SupersededStarts(s, id, stale, pendingAuth), id) {
      SecondGateHolds(s, id, stale, pendingAuth, log);
    }
  }

  /** A check of the server is past its gate: it connects, refreshes, reconnects, publishes or waits for a callback. */
  predicate Attempting(s: State, id: TaskId, name: string) {
    id in s.tasks && s.tasks[id].name == name && !s.tasks[id].waiting.Turn? && !s.tasks[id].waiting.Finished?
  }

  /** No check of the server is past its gate before the wait for its failures is over. */
  ghost predicate AttemptsAreDue(s: State, name: string, log: FailureLog) {
    forall id :: Attempting(s, id, name) ==> IsDue(s, log)
  }

  /** A check of the server fails while another one is past its gate. */
  ghost predicate FailsBeside(s: State, e: Event, name: string)
    requires Enabled(s, e)
  {
    Fails(s, e, name) && !StartsAfresh(s, e, name) && exists id :: id != e.task && Attempting(s, id, name)
  }

  lemma FailureFinishes(s: State, e: Event, name: string)
    requires Enabled(s, e) && Fails(s, e, name)
    ensures e.task in Next(s, e).tasks && Next(s, e).tasks[e.task].waiting.Finished?
    ensures forall id :: id != e.task ==> (Attempting(Next(s, e), id, name) <==> Attempting(s, id, name))
  {
    EventIsATaskStep(s, e);
  }

  lemma FailureIsNotDue(s: State, e: Event, name: string, log: FailureLog)
    requires Enabled(s, e) && Fails(s, e, name) && !StartsAfresh(s, e, name)
    ensures !IsDue(Next(s, e), Logged(s, e, name, log))
  {
    EventIsATaskStep(s, e);
    DelayIsCappedDoubling(log.count + 1, log.count + 1);
  }

  lemma FailureStepIff(s: State, e: Event, name: string, log: FailureLog)
    requires Enabled(s, e) && Fails(s, e, name) && !StartsAfresh(s, e, name)
    ensures AttemptsAreDue(Next(s, e), name, Logged(s, e, name, log)) <==> !FailsBeside(s, e, name)
  {
    FailureFinishes(s, e, name);
    FailureIsNotDue(s, e, name, log);
    if FailsBeside(s, e, name) {
      var id :| id != e.task && Attempting(s, id, name);
      assert Attempting(Next(s, e), id, name);
    }
  }

  lemma ClockGoesOn(s: State, e: Event, log: FailureLog)
    requires Enabled(s, e) && IsDue(s, log)
    ensures IsDue(Next(s, e), log)
  {
    if IsTaskEvent(e) { EventIsATaskStep(s, e); }
  }

  /** What is past its gate after a step was so before, or has just passed it. */
  lemma AttemptIsDue(s: State, e: Event, id: TaskId, name: string, log: FailureLog)
    requires Enabled(s, e) && BacksOff(s, name, log) && AttemptsAreDue(s, name, log) && Attempting(Next(s, e), id, name)
    ensures IsDue(s, log)
  {
    if !Attempting(s, id, name) {
      if IsTaskEvent(e) { EventIsATaskStep(s, e); }
      if e.StartPass? { OldOrNew(s, id); }
      assert id in s.tasks && s.tasks[id].name == name;
      if !(IsTaskEvent(e) && e.task == id) {
        OthersWaitOn(s, e, id);
      }
      assert e.CheckBegins? && e.task == id;
      GateHolds(s, id, e.pendingAuth, log);
    }
  }

  /** A step keeps all attempts due, if and only if it is not a failure beside another attempt. */
  lemma AttemptsStepIff(s: State, e: Event, name: string, log: FailureLog)
    requires Enabled(s, e) && BacksOff(s, name, log) && AttemptsAreDue(s, name, log)
    ensures AttemptsAreDue(Next(s, e), name, Logged(s, e, name, log)) <==> !FailsBeside(s, e, name)
  {
    if !StartsAfresh(s, e, name) {
      if Fails(s, e, name) {
        FailureStepIff(s, e, name, log);
      } else {
        forall id | Attempting(Next(s, e), id, name) ensures IsDue(Next(s, e), log) {
          AttemptIsDue(s, e, id, name, log);
          ClockGoesOn(s, e, log);
        }
      }
    }
  }

  ghost predicate AlwaysDue(s: State, events: seq<Event>, name: string, log: FailureLog)
    requires Runs(s, events)
    decreases |events|
  {
    AttemptsAreDue(s, name, log) &&
    (events == [] || AlwaysDue(Next(s, events[0]), events[1..], name, Logged(s, events[0], name, log)))
  }

  ghost predicate NeverFailsBeside(s: State, events: seq<Event>, name: string)
    requires Runs(s, events)
    decreases |events|
  {
    events == [] || (!FailsBeside(s, events[0], name) && NeverFailsBeside(Next(s, events[0]), events[1..], name))
  }

  lemma {:induction false} AlwaysDueIff(s: State, events: seq<Event>, name: string, log: FailureLog)
    requires Runs(s, events) && BacksOff(s, name, log) && AttemptsAreDue(s, name, log)
    ensures AlwaysDue(s, events, name, log) <==> NeverFailsBeside(s, events, name)
    ensures AlwaysDue(s, events, name, log) ==> AttemptsAreDue(Run(s, events), name, LogOf(s, events, name, log))
    decreases |events|
  {
    if events != [] {
      AttemptsStepIff(s, events[0], name, log);
      FailuresAreCounted(s, events[0], name, log);
      if !FailsBeside(s, events[0], name) {
        AlwaysDueIff(Next(s, events[0]), events[1..], name, Logged(s, events[0], name, log));
      }
    }
  }

  /** One pass has one check of a server, so it fails beside no other. */
  lemma {:induction false} OnePassFailsAlone(s: State, events: seq<Event>, name: string)
    requires Inv(s) && Runs(s, events) && AlwaysOnePass(s, events)
    ensures NeverFailsBeside(s, events, name)
    decreases |events|
  {
    if events != [] {
      InvStep(s, events[0]);
      OnePassFailsAlone(Next(s, events[0]), events[1..], name);
    }
  }

  /**
   In every run: all attempts of a server, those without a gate among them, wait long enough after its failures in a
   row, if and only if no check of it ever fails while another one is past its gate. That holds as long as one pass
   works.
   */
  lemma AttemptsBackOff(now: int, events: seq<Event>, name: string)
    requires Runs(Initial(now), events)
    ensures AlwaysDue(Initial(now), events, name, NO_FAILURES) <==> NeverFailsBeside(Initial(now), events, name)
    ensures AlwaysOnePass(Initial(now), events) ==>
      && AlwaysDue(Initial(now), events, name, NO_FAILURES)
      && AttemptsAreDue(Run(Initial(now), events), name, LogOf(Initial(now), events, name, NO_FAILURES))
  {
    AlwaysDueIff(Initial(now), events, name, NO_FAILURES);
    if AlwaysOnePass(Initial(now), events) {
      OnePassFailsAlone(Initial(now), events, name);
    }
  }

  // ----- a run with an attempt too soon -----

  /** Some run leads to the state, with these failures of the server in a row. */
  ghost predicate ReachedAfter(s: State, name: string, log: FailureLog) {
    exists events :: IsRunAfter(events, s, name, log)
  }

  ghost predicate IsRunAfter(events: seq<Event>, s: State, name: string, log: FailureLog) {
    IsRunTo(events, s) && LogOf(Initial(0), events, name, NO_FAILURES) == log
  }

  lemma {:induction false} LogOneMore(s: State, events: seq<Event>, e: Event, name: string, log: FailureLog)
    requires Runs(s, events) && Enabled(Run(s, events), e) && Runs(s, events + [e])
    ensures LogOf(s, events + [e], name, log) == Logged(Run(s, events), e, name, LogOf(s, events, name, log))
    decreases |events|
  {
    if events == [] {
      assert [e][1..] == [] && [] + [e] == [e];
    } else {
      assert (events + [e])[1..] == events[1..] + [e];
      LogOneMore(Next(s, events[0]), events[1..], e, name, Logged(s, events[0], name, log));
    }
  }

  lemma ReachedAfterNext(s: State, e: Event, name: string, log: FailureLog)
    requires ReachedAfter(s, name, log) && Enabled(s, e)
    ensures ReachedAfter(Next(s, e), name, Logged(s, e, name, log))
  {
    var events :| IsRunAfter(events, s, name, log);
    OneMoreEvent(Initial(0), events, e);
    LogOneMore(Initial(0), events, e, name, NO_FAILURES);
    assert IsRunAfter(events + [e], Next(s, e), name, Logged(s, e, name, log));
  }

  lemma SomeLog(s: State, name: string) returns (log: FailureLog)
    requires Reached(s)
    ensures ReachedAfter(s, name, log)
  {
    var events :| IsRunTo(events, s);
    log := LogOf(Initial(0), events, name, NO_FAILURES);
    assert IsRunAfter(events, s, name, log);
  }

  /** The checks of two passes that overlap refresh the same connection. */
  const REFRESHING := RESTART_OVERLAP.(connections := map["a" := 7], statuses := map[7 := Connected],
    tasks := map[(0, "a") := TaskOf(0, "a", FIRST, Refresh(7)), (1, "a") := TaskOf(1, "a", FIRST, Refresh(7))])

  lemma RefreshBegins(s: State, id: TaskId, log: FailureLog)
    requires ReachedAfter(s, "a", log) && id in s.tasks && s.tasks[id] == TaskOf(id.0, "a", FIRST, Turn)
    requires !s.stopped && s.aborted == {} && s.pending == {} && s.retries == map[] && IsRegistered(s, "a", FIRST)
    requires s.connections == map["a" := 7] && s.statuses == map[7 := Connected]
    ensures ReachedAfter(Wait(s, id, Refresh(7)), "a", log)
  {
    assert Next(s, CheckBegins(id, false)) == Wait(s, id, Refresh(7));
    ReachedAfterNext(s, CheckBegins(id, false), "a", log);
  }

  lemma RefreshingIsReached()
    ensures ReachedAfter(REFRESHING, "a", NO_FAILURES)
  {
    var s := OverlapAfterRestart();
    var log := SomeLog(s, "a");
    var connects := ManagerChanges(map["a" := 7], map[7 := Connected]);
    var connected := s.(connections := map["a" := 7], statuses := map[7 := Connected]);
    assert Next(s, connects) == connected && Seen(connected, "a") != Seen(s, "a");
    ReachedAfterNext(s, connects, "a", log);
    RefreshBegins(connected, (0, "a"), NO_FAILURES);
    RefreshBegins(Wait(connected, (0, "a"), Refresh(7)), (1, "a"), NO_FAILURES);
    assert Wait(Wait(connected, (0, "a"), Refresh(7)), (1, "a"), Refresh(7)).tasks == REFRESHING.tasks;
  }

  /** One of them times out, and in the same instant the other, which has no gate to pass any more, reconnects. */
  lemma ReconnectTooSoon() returns (s: State, log: FailureLog)
    ensures ReachedAfter(s, "a", log) && log.count > 0 && !IsDue(s, log)
    ensures (0, "a") in s.tasks && s.tasks[(0, "a")].waiting.Reconnect?
  {
    RefreshingIsReached();
    var fails: Event := RefreshEnds((1, "a"), TimedOut, false);
    assert Fails(REFRESHING, fails, "a") && !StartsAfresh(REFRESHING, fails, "a");
    ReachedAfterNext(REFRESHING, fails, "a", NO_FAILURES);
    FailureIsNotDue(REFRESHING, fails, "a", NO_FAILURES);
    EventIsATaskStep(REFRESHING, fails);
    ReconnectsAtOnce(Next(REFRESHING, fails));
    log := FailureLog(1, 0);
    s := Next(Next(REFRESHING, fails), RefreshEnds((0, "a"), RefreshFailed(true), false));
  }

  lemma ReconnectsAtOnce(s: State)
    requires ReachedAfter(s, "a", FailureLog(1, 0)) && s.now == 0 && !s.stopped && s.aborted == {}
    requires s.connections == map["a" := 7] && s.statuses == map[7 := Connected]
    requires (0, "a") in s.tasks && s.tasks[(0, "a")] == TaskOf(0, "a", FIRST, Refresh(7))
    ensures var e: Event := RefreshEnds((0, "a"), RefreshFailed(true), false);
      && Enabled(s, e) && Next(s, e) == Wait(s, (0, "a"), Reconnect(7))
      && ReachedAfter(Next(s, e), "a", FailureLog(1, 0))
  {
    var e: Event := RefreshEnds((0, "a"), RefreshFailed(true), false);
    ReachedAfterNext(s, e, "a", FailureLog(1, 0));
  }

  // ----- the class -----

  /** The class: the parts of its methods that run without an await, on the fields they change. */
  class McpLifecycleManager {
    var now: int
    var stopped: bool
    var keepAliveServers: map<string, Definition>
    var retryStates: map<string, Retry>
    var pendingMetadataPublications: set<string>
    var activeConvergence: Option<nat>
    var started: nat
    var running: set<nat>
    var aborted: set<nat>
    var tasks: map<TaskId, Task>
    var connections: map<string, nat>
    var statuses: map<nat, Status>
    var shutdown: Shutdown
    ghost var rejected: set<nat>
    ghost var restarted: bool

    ghost function Abstract(): State
      reads this
    {
      State(now, stopped, keepAliveServers, retryStates, pendingMetadataPublications, activeConvergence, started, running,
            aborted, tasks, connections, statuses, shutdown, rejected, restarted)
    }

    constructor (now: int)
      ensures Abstract() == Initial(now)
    {
      this.now, stopped, keepAliveServers, retryStates, pendingMetadataPublications := now, false, map[], map[], {};
      activeConvergence, started, running, aborted, tasks := None, 0, {}, {}, map[];
      connections, statuses, shutdown, rejected, restarted := map[], map[], NotBegun, {}, false;
    }

    predicate Registered(name: string, definition: Definition)
      reads this
    {
      name in keepAliveServers && keepAliveServers[name] == definition
    }

    function GetConnection(name: string): Option<nat>
      reads this
    {
      if name in connections then Some(connections[name]) else None
    }

    function GetStatus(connection: Option<nat>): Option<Status>
      reads this
    {
      if connection.None? then None
      else if connection.value in statuses then Some(statuses[connection.value]) else Some(OtherStatus)
    }

    method MarkKeepAlive(name: string, definition: Definition)
      modifies this
      ensures Abstract() ==
        if definition.disabled then old(Abstract()) else Next(old(Abstract()), Event.MarkKeepAlive(name, definition))
    {
      if definition.disabled { return; }
      keepAliveServers := keepAliveServers[name := definition];
    }

    method UnregisterServer(name: string)
      modifies this
      ensures Abstract() == Next(old(Abstract()), Unregister(name))
    {
      keepAliveServers := keepAliveServers - {name};
      retryStates := retryStates - {name};
      pendingMetadataPublications := pendingMetadataPublications - {name};
    }

    /** `ensureConverged` up to its await: joins the active pass, or starts one. */
    method EnsureConverged(signalAborted: bool) returns (joined: Option<nat>)
      modifies this
      ensures old(stopped) || signalAborted ==> joined.None? && Abstract() == old(Abstract())
      ensures !old(stopped) && !signalAborted && old(activeConvergence).Some? ==>
        joined == old(activeConvergence) && Abstract() == old(Abstract())
      ensures !old(stopped) && !signalAborted && old(activeConvergence).None? ==>
        joined == Some(old(started)) && Abstract() == Next(old(Abstract()), StartPass)
    {
      if stopped || signalAborted { return None; }
      if activeConvergence.Some? { return activeConvergence; }
      activeConvergence := Some(started);
      running := running + {started};
      tasks := tasks + NewTasks(started, keepAliveServers);
      started := started + 1;
      return activeConvergence;
    }

    method ShouldAttemptConnection(name: string, connection: Option<nat>) returns (attempt: bool)
      requires connection == GetConnection(name)
      modifies this`retryStates
      ensures (attempt, retryStates) == ShouldAttempt(old(Abstract()), name)
    {
      if name !in retryStates { return true; }
      var retry := retryStates[name];
      if retry.connection != connection || retry.status != GetStatus(connection) {
        retryStates := retryStates - {name};
        return true;
      }
      return now >= retry.nextAttemptAt;
    }

    method RecordRetry(name: string, definition: Definition, connection: Option<nat>) returns (recorded: bool)
      modifies this`retryStates
      ensures recorded == old(Registered(name, definition))
      ensures Abstract() == Recorded(old(Abstract()), name, definition, connection)
    {
      if !Registered(name, definition) { return false; }
      var status := GetStatus(connection);
      var attempts := 1;
      if name in retryStates { attempts := retryStates[name].attempts + 1; }
      retryStates := retryStates[name := Retry(attempts, now + Delay(attempts), connection, status)];
      return true;
    }

    method SetWaiting(id: TaskId, w: Waiting)
      requires id in tasks
      modifies this`tasks
      ensures Abstract() == Wait(old(Abstract()), id, w)
    {
      tasks := tasks[id := tasks[id].(waiting := w)];
    }

    method CloseIfCurrent(id: TaskId, connection: nat)
      requires id in tasks
      modifies this`tasks
      ensures Abstract() == CloseOwn(old(Abstract()), id, connection)
    {
      if GetConnection(tasks[id].name) == Some(connection) {
        SetWaiting(id, CloseCall);
      } else {
        SetWaiting(id, Finished);
      }
    }

    method PublishConnectedMetadata(id: TaskId, connection: nat)
      requires id in tasks
      modifies this`tasks, this`pendingMetadataPublications
      ensures Abstract() == PublishStarts(old(Abstract()), id, connection)
    {
      if !Registered(tasks[id].name, tasks[id].definition) {
        CloseIfCurrent(id, connection);
        return;
      }
      pendingMetadataPublications := pendingMetadataPublications + {tasks[id].name};
      SetWaiting(id, Publish(connection));
    }

    /** The rest of it, once the reconnect callback has returned or thrown. */
    method AfterPublish(id: TaskId, ok: bool)
      requires id in tasks && tasks[id].waiting.Publish?
      modifies this`tasks, this`pendingMetadataPublications, this`retryStates
      ensures Abstract() == Next(old(Abstract()), PublishEnds(id, ok))
    {
      var t := tasks[id];
      if ok {
        pendingMetadataPublications := pendingMetadataPublications - {t.name};
        retryStates := retryStates - {t.name};
      } else if !stopped {
        var recorded := RecordRetry(t.name, t.definition, Some(t.waiting.held));
      }
      SetWaiting(id, Finished);
    }

    method NotifyAuthRequired(id: TaskId, connection: nat)
      requires id in tasks
      modifies this`tasks, this`pendingMetadataPublications, this`retryStates
      ensures Abstract() == AuthStarts(old(Abstract()), id, connection)
    {
      var t := tasks[id];
      if !Registered(t.name, t.definition) {
        CloseIfCurrent(id, connection);
        return;
      }
      pendingMetadataPublications := pendingMetadataPublications - {t.name};
      retryStates := retryStates - {t.name};
      SetWaiting(id, AuthCallback);
    }

    method CheckKeepAliveConnection(id: TaskId, pendingAuth: bool)
      requires id in tasks
      modifies this`tasks, this`pendingMetadataPublications, this`retryStates
      ensures Abstract() == CheckStarts(old(Abstract()), id, pendingAuth)
    {
      var t := tasks[id];
      if t.definition.disabled || stopped || t.pass in aborted || !Registered(t.name, t.definition) {
        SetWaiting(id, Finished);
        return;
      }
      var connection := GetConnection(t.name);
      if GetStatus(connection) == Some(NeedsAuth) {
        pendingMetadataPublications := pendingMetadataPublications - {t.name};
        SetWaiting(id, Finished);
        return;
      }
      var attempt := ShouldAttemptConnection(t.name, connection);
      if attempt {
        AttemptConnection(id, connection, pendingAuth);
      } else {
        SetWaiting(id, Finished);
      }
    }

    /** The rest of it, once an attempt may be made. */
    method AttemptConnection(id: TaskId, connection: Option<nat>, pendingAuth: bool)
      requires id in tasks && connection == GetConnection(tasks[id].name)
      modifies this`tasks, this`pendingMetadataPublications
      ensures Abstract() == Attempts(old(Abstract()), id, pendingAuth)
    {
      var t := tasks[id];
      if GetStatus(connection) != Some(Connected) {
        SetWaiting(id, if pendingAuth then Finished else Connect);
      } else if t.name in pendingMetadataPublications {
        PublishConnectedMetadata(id, connection.value);
      } else if !t.definition.hasUrl {
        SetWaiting(id, Finished);
      } else {
        SetWaiting(id, Refresh(connection.value));
      }
    }

    method HandleSupersededConnection(id: TaskId, stale: nat, pendingAuth: bool)
      requires id in tasks
      modifies this`tasks, this`pendingMetadataPublications, this`retryStates
      ensures Abstract() == SupersededStarts(old(Abstract()), id, stale, pendingAuth)
    {
      var t := tasks[id];
      var current := GetConnection(t.name);
      var status := GetStatus(current);
      if !Registered(t.name, t.definition) {
        SetWaiting(id, Finished);
      } else if current == Some(stale) && status == Some(Connected) {
        if t.name in retryStates {
          retryStates := retryStates - {t.name};
          SetWaiting(id, HealthCallback);
        } else {
          SetWaiting(id, Finished);
        }
      } else if status == Some(Connected) {
        PublishConnectedMetadata(id, current.value);
      } else if status == Some(NeedsAuth) {
        NotifyAuthRequired(id, current.value);
      } else if t.retrySuperseded {
        tasks := tasks[id := t.(retrySuperseded := false)];
        CheckKeepAliveConnection(id, pendingAuth);
      } else {
        SetWaiting(id, Finished);
      }
    }
  }
}
