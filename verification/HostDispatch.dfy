/**
 One tool call of a host-managed adapter: `executeTool` of host-managed.ts from the host's turn on, with `send`,
 linked reads and shutdown, as a step machine. Each step is what runs between two awaits. The connection's re-lists go
 on meanwhile, as `HostRefresh` has them.
 */
module HostDispatch {
  import opened Options
  import HostRefresh

  /** What a failed request tells the host; the last says that the client reported itself as not connected. */
  datatype Delivery = NotSent | MayHaveRun | ServerError | InvalidResult

  /** How the client's `callTool` ends, before it is classified. */
  datatype Answer =
    | ValidResult(links: set<string>)
    | BadOutput
    | JsonRpcError
    | SdkInvalidResult
    | SdkNotConnected
    | OtherFailure

  /** `classifyDispatchError`, and the output validation before it. */
  function Classify(a: Answer): Delivery
    requires !a.ValidResult?
  {
    match a
    case JsonRpcError => ServerError
    case BadOutput => InvalidResult
    case SdkInvalidResult => InvalidResult
    case SdkNotConnected => NotSent
    case OtherFailure => MayHaveRun
  }

  /**
   The promise of `call.dispatch()`: not made, waiting for re-lists to end, told whether the tool is retired,
   waiting for the server, or settled. `answered` is the client's answer, if there was a request.
   */
  datatype Dispatch =
    | NotCalled
    | WaitingForLists
    | Told(retired: bool)
    | Requesting
    | Resolved(links: set<string>)
    | Rejected(delivery: Delivery, answered: Option<Answer>)

  /** A read of a linked resource: prepared, dispatched and sent, or refused when it was dispatched. */
  datatype Read = Prepared | ReadSent | ReadRefused

  /** What the host throws: the error of its own dispatch, one from elsewhere, or anything else. */
  datatype Thrown = OwnDispatchError | AdapterErrorFromElsewhere(delivery: Delivery) | OtherError

  /** The details of the result the model sees. */
  datatype Report = HostResult | DeliveryReport(delivery: Delivery, catalogChanged: bool) | HostError(sent: bool)

  /**
   The last four fields are history. `asked` is how the re-lists stood when `isRetired` answered, `sends` counts the
   requests handed to the client, and `sendsAllowed` says that each was handed over while the call was open: unsettled,
   the adapter and the connection open, no abort, and the tool not retired when last asked.
   */
  datatype State = State(
    tool: string, lists: HostRefresh.State, closed: bool, open: bool, aborted: bool,
    dispatch: Dispatch, sent: bool, settled: bool, report: Option<Report>, linked: map<nat, Read>,
    asked: Option<HostRefresh.State>, sends: nat, sendsAllowed: bool, readSends: map<nat, nat>)

  datatype Event =
    | Close | ConnectionCloses | SignalAborts
    | Lists(event: HostRefresh.Event)
    | HostDispatches | ListsChecked | SendContinues | Answered(answer: Answer)
    | ReadPrepared(read: nat, uri: string) | ReadDispatches(read: nat)
    | HostReturns | HostThrows(thrown: Thrown)

  /** The call of a tool when the host's `onToolCall` is given it. */
  function Initial(tool: string, lists: HostRefresh.State): State {
    State(tool, lists, false, true, false, NotCalled, false, false, None, map[], None, 0, true, map[])
  }

  predicate Unavailable(s: State) { s.settled || s.closed || !s.open || s.aborted }

  predicate Enabled(s: State, e: Event) {
    match e
    case Lists(event) => HostRefresh.Enabled(s.lists, event)
    case HostDispatches => s.dispatch.NotCalled?
    case ListsChecked => s.dispatch.WaitingForLists? && !s.lists.refresh
    case SendContinues => s.dispatch.Told?
    case Answered(_) => s.dispatch.Requesting?
    case ReadPrepared(r, uri) => r !in s.linked && s.dispatch.Resolved? && uri in s.dispatch.links && !Unavailable(s)
    case ReadDispatches(r) => r in s.linked && s.linked[r].Prepared?
    case HostReturns => !s.settled
    case HostThrows(thrown) => !s.settled && (thrown.OwnDispatchError? ==> s.dispatch.Rejected?)
    case _ => true
  }

  // ----- the steps -----

  /** `send` after `isRetired`: the last checks and the request. */
  function Continued(s: State, retired: bool): State {
    if Unavailable(s) || retired then s.(dispatch := Rejected(NotSent, None))
    else s.(dispatch := Requesting, sent := true, sends := s.sends + 1)
  }

  predicate IsRetired(s: State) { s.tool in s.lists.retired }

  /** The `catch` around `onToolCall`, with the tool retired or not by now. */
  function ReportOf(s: State, thrown: Thrown): Report
    requires thrown.OwnDispatchError? ==> s.dispatch.Rejected?
  {
    match thrown
    case OwnDispatchError => DeliveryReport(s.dispatch.delivery, IsRetired(s) && s.dispatch.delivery.NotSent?)
    case AdapterErrorFromElsewhere(delivery) =>
      if s.dispatch.Resolved? then HostError(s.sent) else DeliveryReport(delivery, IsRetired(s) && delivery.NotSent?)
    case OtherError => HostError(s.sent)
  }

  function Next(s: State, e: Event): State
    requires Enabled(s, e)
  {
    match e
    case Close => s.(closed := true, aborted := true)
    case ConnectionCloses => s.(open := false)
    case SignalAborts => s.(aborted := true)
    case Lists(event) => s.(lists := HostRefresh.Next(s.lists, event))
    case HostDispatches => s.(dispatch := WaitingForLists)
    case ListsChecked => s.(dispatch := Told(IsRetired(s)), asked := Some(s.lists))
    case SendContinues =>
      Continued(s, s.dispatch.retired).(
        sendsAllowed := s.sendsAllowed &&
          (Continued(s, s.dispatch.retired).sends > s.sends ==>
           !s.settled && !s.closed && s.open && !s.aborted && !s.dispatch.retired))
    case Answered(answer) =>
      s.(dispatch := if answer.ValidResult? then Resolved(answer.links) else Rejected(Classify(answer), Some(answer)))
    case ReadPrepared(r, _) => s.(linked := s.linked[r := Prepared], readSends := s.readSends[r := 0])
    case ReadDispatches(r) =>
      if Unavailable(s) then s.(linked := s.linked[r := ReadRefused])
      else s.(linked := s.linked[r := ReadSent],
              readSends := s.readSends[r := (if r in s.readSends then s.readSends[r] else 0) + 1])
    case HostReturns => s.(settled := true, report := Some(HostResult))
    case HostThrows(thrown) => s.(settled := true, report := Some(ReportOf(s, thrown)))
  }

  // ----- what holds in every reachable state -----

  predicate RequestMade(d: Dispatch) {
    d.Requesting? || d.Resolved? || (d.Rejected? && d.answered.Some?)
  }

  ghost predicate SendsCounted(s: State) {
    && s.sends == (if RequestMade(s.dispatch) then 1 else 0)
    && (s.sent <==> s.sends > 0) && s.sendsAllowed
    && (s.report.Some? <==> s.settled)
  }

  ghost predicate ErrorsClassified(s: State) {
    s.dispatch.Rejected? ==>
      if s.dispatch.answered.None? then s.dispatch.delivery.NotSent?
      else !s.dispatch.answered.value.ValidResult? && s.dispatch.delivery == Classify(s.dispatch.answered.value)
  }

  ghost predicate ReadsCounted(s: State) {
    && s.linked.Keys == s.readSends.Keys
    && forall r :: r in s.linked ==> s.readSends[r] == if s.linked[r].ReadSent? then 1 else 0
  }

  ghost predicate Inv(s: State) { SendsCounted(s) && ErrorsClassified(s) && ReadsCounted(s) }

  lemma SendsStep(s: State, e: Event)
    requires Inv(s) && Enabled(s, e)
    ensures SendsCounted(Next(s, e)) && ErrorsClassified(Next(s, e))
  {}

  predicate IsReadEvent(e: Event) { e.ReadPrepared? || e.ReadDispatches? }

  lemma ReadEventStep(s: State, e: Event)
    requires ReadsCounted(s) && Enabled(s, e) && IsReadEvent(e)
    ensures ReadsCounted(Next(s, e))
  {}

  lemma OtherEventsReadNothing(s: State, e: Event)
    requires Enabled(s, e) && !IsReadEvent(e)
    ensures Next(s, e).linked == s.linked && Next(s, e).readSends == s.readSends
  {
    match e
    case Close =>
    case ConnectionCloses =>
    case SignalAborts =>
    case Lists(_) =>
    case HostDispatches =>
    case ListsChecked =>
    case SendContinues => assert Continued(s, s.dispatch.retired).linked == s.linked;
    case Answered(_) =>
    case ReadPrepared(_, _) =>
    case ReadDispatches(_) =>
    case HostReturns =>
    case HostThrows(_) =>
  }

  lemma ReadsStep(s: State, e: Event)
    requires ReadsCounted(s) && Enabled(s, e)
    ensures ReadsCounted(Next(s, e))
  {
    if IsReadEvent(e) {
      ReadEventStep(s, e);
    } else {
      OtherEventsReadNothing(s, e);
    }
  }

  lemma InvStep(s: State, e: Event)
    requires Inv(s) && Enabled(s, e)
    ensures Inv(Next(s, e))
  {
    SendsStep(s, e);
    ReadsStep(s, e);
  }

  ghost predicate Runs(s: State, events: seq<Event>)
    decreases |events|
  {
    events == [] || (Enabled(s, events[0]) && Runs(Next(s, events[0]), events[1..]))
  }

  ghost function Run(s: State, events: seq<Event>): State
    requires Runs(s, events)
    decreases |events|
  {
    if events == [] then s else Run(Next(s, events[0]), events[1..])
  }

  lemma {:induction false} RunKeepsInv(s: State, events: seq<Event>)
    requires Inv(s) && Runs(s, events)
    ensures Inv(Run(s, events))
    decreases |events|
  {
    if events != [] {
      InvStep(s, events[0]);
      RunKeepsInv(Next(s, events[0]), events[1..]);
    }
  }

  /** However the steps interleave: at most one request is sent for a call, and one for a read, and only while it may be. */
  lemma AtMostOneAllowedRequest(tool: string, lists: HostRefresh.State, events: seq<Event>)
    requires Runs(Initial(tool, lists), events)
    ensures var s := Run(Initial(tool, lists), events);
      && s.sends <= 1 && s.sendsAllowed && (s.sent <==> s.sends == 1)
      && forall r :: r in s.readSends ==> s.readSends[r] <= 1
  {
    RunKeepsInv(Initial(tool, lists), events);
    assert forall r :: r in Run(Initial(tool, lists), events).readSends ==> r in Run(Initial(tool, lists), events).linked;
  }

  /** The same requests were sent. */
  predicate SameSends(s: State, t: State) {
    && t.sends == s.sends && t.sent == s.sent
    && forall r :: r in s.readSends ==> r in t.readSends && t.readSends[r] == s.readSends[r]
  }

  lemma StaysUnavailable(s: State, e: Event)
    requires Unavailable(s) && Enabled(s, e)
    ensures Unavailable(Next(s, e))
    ensures s.settled ==> Next(s, e).settled && Next(s, e).report == s.report
  {}

  lemma NothingIsSentNow(s: State, e: Event)
    requires Unavailable(s) && Enabled(s, e)
    ensures SameSends(s, Next(s, e))
  {
    if IsReadEvent(e) {
      NothingIsReadNow(s, e);
    }
  }

  lemma NothingIsReadNow(s: State, e: Event)
    requires Unavailable(s) && Enabled(s, e) && IsReadEvent(e)
    ensures SameSends(s, Next(s, e))
  {}

  /** Once the call is settled, closed, aborted or cut off, nothing more is sent, whatever was waiting. */
  lemma {:induction false} NothingIsSentLater(s: State, events: seq<Event>)
    requires Unavailable(s) && Runs(s, events)
    ensures SameSends(s, Run(s, events))
    ensures s.settled ==> Run(s, events).report == s.report
    decreases |events|
  {
    if events != [] {
      StaysUnavailable(s, events[0]);
      NothingIsSentNow(s, events[0]);
      NothingIsSentLater(Next(s, events[0]), events[1..]);
    }
  }

  /** A report that the host failed before anything was sent stays true: the request is never sent. */
  lemma HostErrorNotSentIsFinal(tool: string, lists: HostRefresh.State, before: seq<Event>, after: seq<Event>)
    requires Runs(Initial(tool, lists), before)
    requires Run(Initial(tool, lists), before).report == Some(HostError(false))
    requires Runs(Run(Initial(tool, lists), before), after)
    ensures Run(Run(Initial(tool, lists), before), after).sends == 0
  {
    RunKeepsInv(Initial(tool, lists), before);
    ReportedNotSent(Initial(tool, lists), before);
    NothingIsSentLater(Run(Initial(tool, lists), before), after);
  }

  predicate SaysNotSent(s: State) { s.report == Some(HostError(false)) }

  lemma ReportedNow(s: State, e: Event)
    requires Inv(s) && Enabled(s, e) && !SaysNotSent(s)
    ensures SaysNotSent(Next(s, e)) ==> Next(s, e).sends == 0 && Next(s, e).settled
  {}

  /** When a report says that nothing was sent, nothing was. */
  lemma {:induction false} ReportedNotSent(s: State, events: seq<Event>)
    requires Inv(s) && Runs(s, events) && !SaysNotSent(s)
    ensures SaysNotSent(Run(s, events)) ==> Run(s, events).sends == 0
    decreases |events|
  {
    if events != [] {
      InvStep(s, events[0]);
      ReportedNow(s, events[0]);
      if SaysNotSent(Next(s, events[0])) {
        NothingIsSentLater(Next(s, events[0]), events[1..]);
      } else {
        ReportedNotSent(Next(s, events[0]), events[1..]);
      }
    }
  }

  // ----- the answer of `isRetired` -----

  /** The re-lists are in a reachable state, and have selected the tool. */
  ghost predicate ListsKnown(s: State) {
    HostRefresh.Inv(s.lists) && s.lists.selected.Some? && s.tool in s.lists.selected.value
  }

  /** When `isRetired` has answered, no re-list was pending, and a request is only made for a tool it did not call retired. */
  ghost predicate AnswerKnown(s: State) {
    s.dispatch.Told? || RequestMade(s.dispatch) ==>
      && s.asked.Some? && HostRefresh.Inv(s.asked.value) && s.asked.value.selected == s.lists.selected
      && !s.asked.value.refresh
      && (if s.dispatch.Told? then s.dispatch.retired <==> s.tool in s.asked.value.retired
          else s.tool !in s.asked.value.retired)
  }

  lemma SelectedStays(lists: HostRefresh.State, event: HostRefresh.Event)
    requires HostRefresh.Inv(lists) && lists.selected.Some? && HostRefresh.Enabled(lists, event)
    ensures HostRefresh.Inv(HostRefresh.Next(lists, event)) && HostRefresh.Next(lists, event).selected == lists.selected
  {
    HostRefresh.InvStep(lists, event);
  }

  lemma ListsKeepAnswer(s: State, event: HostRefresh.Event)
    requires ListsKnown(s) && AnswerKnown(s) && Enabled(s, Lists(event))
    ensures var t := Next(s, Lists(event)); ListsKnown(t) && AnswerKnown(t) && t.tool == s.tool
  {
    SelectedStays(s.lists, event);
  }

  lemma CheckGivesAnswer(s: State)
    requires ListsKnown(s) && Enabled(s, ListsChecked)
    ensures var t := Next(s, ListsChecked); ListsKnown(t) && AnswerKnown(t) && t.tool == s.tool
  {}

  lemma SendFollowsAnswer(s: State)
    requires ListsKnown(s) && AnswerKnown(s) && Enabled(s, SendContinues)
    ensures var t := Next(s, SendContinues); ListsKnown(t) && AnswerKnown(t) && t.tool == s.tool
  {}

  lemma OtherStepsKeepAnswer(s: State, e: Event)
    requires ListsKnown(s) && AnswerKnown(s) && Enabled(s, e) && !e.Lists? && !e.ListsChecked? && !e.SendContinues?
    ensures var t := Next(s, e); ListsKnown(t) && AnswerKnown(t) && t.tool == s.tool
  {
    var t := Next(s, e);
    assert t.lists == s.lists && t.asked == s.asked && t.tool == s.tool;
    assert t.dispatch == s.dispatch || e.HostDispatches? || e.Answered?;
  }

  lemma AnswerStep(s: State, e: Event)
    requires ListsKnown(s) && AnswerKnown(s) && Enabled(s, e)
    ensures ListsKnown(Next(s, e)) && AnswerKnown(Next(s, e)) && Next(s, e).tool == s.tool
  {
    match e
    case Lists(event) => ListsKeepAnswer(s, event);
    case ListsChecked => CheckGivesAnswer(s);
    case SendContinues => SendFollowsAnswer(s);
    case _ => OtherStepsKeepAnswer(s, e);
  }

  lemma {:induction false} RunKeepsAnswer(s: State, events: seq<Event>)
    requires ListsKnown(s) && AnswerKnown(s) && Runs(s, events)
    ensures ListsKnown(Run(s, events)) && AnswerKnown(Run(s, events)) && Run(s, events).tool == s.tool
    decreases |events|
  {
    if events != [] {
      AnswerStep(s, events[0]);
      RunKeepsAnswer(Next(s, events[0]), events[1..]);
    }
  }

  /**
   The two machines together, from the connection's start on: a tool for which a request was sent was as registered in
   every re-list completed when `isRetired` answered, no other was pending, and the last of them had begun after the
   last notification.
   */
  lemma SentToolWasAsRegistered(tool: string, earlier: seq<HostRefresh.Event>, events: seq<Event>)
    requires HostRefresh.Runs(HostRefresh.INITIAL, earlier)
    requires var lists := HostRefresh.Run(HostRefresh.INITIAL, earlier);
      lists.selected.Some? && tool in lists.selected.value && Runs(Initial(tool, lists), events)
    ensures var s := Run(Initial(tool, HostRefresh.Run(HostRefresh.INITIAL, earlier)), events);
      s.sends > 0 ==> s.asked.Some? && HostRefresh.IsUpToDate(s.asked.value) && !HostRefresh.WasChanged(s.asked.value, tool)
  {
    var lists := HostRefresh.Run(HostRefresh.INITIAL, earlier);
    HostRefresh.RunKeepsInv(HostRefresh.INITIAL, earlier);
    RunKeepsInv(Initial(tool, lists), events);
    RunKeepsAnswer(Initial(tool, lists), events);
  }

  // ----- the call by its events alone -----

  /**
   Whether the call is over or cut off, how the re-lists stand, and what became of its dispatch: asked for, told
   whether the tool is retired, sent or refused, and answered. Then its reads and its report.
   */
  datatype Log = Log(
    lists: HostRefresh.State, over: bool, called: bool, told: Option<bool>, sent: bool, refused: bool,
    answer: Option<Answer>, linked: map<nat, Read>, report: Option<Report>)

  function LogAtStart(lists: HostRefresh.State): Log {
    Log(lists, false, false, None, false, false, None, map[], None)
  }

  /** What an answer means to the host. */
  function DeliveryOf(a: Answer): Delivery {
    if a.JsonRpcError? then ServerError
    else if a.BadOutput? || a.SdkInvalidResult? then InvalidResult
    else if a.SdkNotConnected? then NotSent
    else MayHaveRun
  }

  /** What the model is told when the host throws. */
  function ReportFor(l: Log, tool: string, thrown: Thrown): Report {
    var changed := tool in l.lists.retired;
    var own := if l.answer.Some? then DeliveryOf(l.answer.value) else NotSent;
    match thrown
    case OtherError => HostError(l.sent)
    case OwnDispatchError => DeliveryReport(own, changed && own == NotSent)
    case AdapterErrorFromElsewhere(delivery) =>
      if l.answer.Some? && l.answer.value.ValidResult? then HostError(true)
      else DeliveryReport(delivery, changed && delivery == NotSent)
  }

  /** What the log notes of an event: a request or a read is sent as long as the call is not over and the tool not retired. */
  ghost function Noted(l: Log, tool: string, e: Event): Log {
    match e
    case Close => l.(over := true)
    case ConnectionCloses => l.(over := true)
    case SignalAborts => l.(over := true)
    case Lists(event) => if HostRefresh.Enabled(l.lists, event) then l.(lists := HostRefresh.Next(l.lists, event)) else l
    case HostDispatches => l.(called := true)
    case ListsChecked => l.(told := Some(tool in l.lists.retired))
    case SendContinues => if !l.over && l.told == Some(false) then l.(sent := true) else l.(refused := true)
    case Answered(answer) => l.(answer := Some(answer))
    case ReadPrepared(r, _) => l.(linked := l.linked[r := Prepared])
    case ReadDispatches(r) => l.(linked := l.linked[r := if l.over then ReadRefused else ReadSent])
    case HostReturns => l.(over := true, report := Some(HostResult))
    case HostThrows(thrown) => l.(over := true, report := Some(ReportFor(l, tool, thrown)))
  }

  ghost function LogOf(l: Log, tool: string, events: seq<Event>): Log
    decreases |events|
  {
    if events == [] then l else LogOf(Noted(l, tool, events[0]), tool, events[1..])
  }

  /** The dispatch that the log amounts to. */
  function DispatchOf(l: Log): Dispatch {
    if !l.called then NotCalled
    else if l.told.None? then WaitingForLists
    else if l.refused then Rejected(NotSent, None)
    else if !l.sent then Told(l.told.value)
    else if l.answer.None? then Requesting
    else if l.answer.value.ValidResult? then Resolved(l.answer.value.links)
    else Rejected(DeliveryOf(l.answer.value), l.answer)
  }

  ghost predicate IsLogged(s: State, l: Log) {
    && s.lists == l.lists && s.dispatch == DispatchOf(l) && s.report == l.report && s.linked == l.linked
    && (s.sent <==> l.sent) && s.sends == (if l.sent then 1 else 0)
    && (l.over <==> s.settled || s.closed || !s.open || s.aborted)
    && (l.answer.Some? ==> l.sent) && (l.sent ==> !l.refused && l.told.Some?) && (l.refused ==> l.told.Some?)
    && (l.told.Some? ==> l.called)
  }

  lemma SendIsLogged(s: State, l: Log)
    requires Enabled(s, SendContinues) && IsLogged(s, l)
    ensures IsLogged(Next(s, SendContinues), Noted(l, s.tool, SendContinues)) && Next(s, SendContinues).tool == s.tool
  {}

  lemma ThrowIsLogged(s: State, l: Log, thrown: Thrown)
    requires Enabled(s, HostThrows(thrown)) && IsLogged(s, l)
    ensures IsLogged(Next(s, HostThrows(thrown)), Noted(l, s.tool, HostThrows(thrown)))
  {}

  lemma AnswerIsLogged(s: State, l: Log, answer: Answer)
    requires Enabled(s, Answered(answer)) && IsLogged(s, l)
    ensures IsLogged(Next(s, Answered(answer)), Noted(l, s.tool, Answered(answer)))
  {}

  lemma ReadIsLogged(s: State, l: Log, e: Event)
    requires Enabled(s, e) && IsLogged(s, l) && IsReadEvent(e)
    ensures IsLogged(Next(s, e), Noted(l, s.tool, e))
  {}

  lemma StopIsLogged(s: State, l: Log, e: Event)
    requires Enabled(s, e) && IsLogged(s, l) && (e.Close? || e.ConnectionCloses? || e.SignalAborts? || e.HostReturns?)
    ensures IsLogged(Next(s, e), Noted(l, s.tool, e))
  {}

  lemma CheckIsLogged(s: State, l: Log, e: Event)
    requires Enabled(s, e) && IsLogged(s, l) && (e.Lists? || e.HostDispatches? || e.ListsChecked?)
    ensures IsLogged(Next(s, e), Noted(l, s.tool, e))
  {}

  lemma ToolStays(s: State, e: Event)
    requires Enabled(s, e)
    ensures Next(s, e).tool == s.tool
  {
    match e
    case Close =>
    case ConnectionCloses =>
    case SignalAborts =>
    case Lists(_) =>
    case HostDispatches =>
    case ListsChecked =>
    case SendContinues =>
    case Answered(_) =>
    case ReadPrepared(_, _) =>
    case ReadDispatches(_) =>
    case HostReturns =>
    case HostThrows(_) =>
  }

  lemma DispatchStep(s: State, l: Log, e: Event)
    requires Enabled(s, e) && IsLogged(s, l)
    ensures IsLogged(Next(s, e), Noted(l, s.tool, e)) && Next(s, e).tool == s.tool
  {
    ToolStays(s, e);
    match e
    case SendContinues => SendIsLogged(s, l);
    case HostThrows(thrown) => ThrowIsLogged(s, l, thrown);
    case Answered(answer) => AnswerIsLogged(s, l, answer);
    case Lists(_) => CheckIsLogged(s, l, e);
    case HostDispatches => CheckIsLogged(s, l, e);
    case ListsChecked => CheckIsLogged(s, l, e);
    case ReadPrepared(_, _) => ReadIsLogged(s, l, e);
    case ReadDispatches(_) => ReadIsLogged(s, l, e);
    case _ => StopIsLogged(s, l, e);
  }

  lemma {:induction false} RunIsLogged(s: State, l: Log, events: seq<Event>)
    requires Runs(s, events) && IsLogged(s, l)
    ensures IsLogged(Run(s, events), LogOf(l, s.tool, events))
    decreases |events|
  {
    if events != [] {
      DispatchStep(s, l, events[0]);
      RunIsLogged(Next(s, events[0]), Noted(l, s.tool, events[0]), events[1..]);
    }
  }

  /**
   In every run: the request is sent exactly when `send` goes on in a call that is not over with a tool that it was
   told is not retired, each read exactly when its dispatch finds the call not over, and the report is the one that
   the events call for.
   */
  lemma CallFollowsTheEvents(tool: string, lists: HostRefresh.State, events: seq<Event>)
    requires Runs(Initial(tool, lists), events)
    ensures var s, l := Run(Initial(tool, lists), events), LogOf(LogAtStart(lists), tool, events);
      && s.lists == l.lists && s.dispatch == DispatchOf(l) && s.report == l.report
      && s.sends == (if l.sent then 1 else 0) && (s.sent <==> l.sent)
      && s.readSends.Keys == l.linked.Keys
      && forall r :: r in l.linked ==> s.readSends[r] == if l.linked[r] == ReadSent then 1 else 0
  {
    RunIsLogged(Initial(tool, lists), LogAtStart(lists), events);
    RunKeepsInv(Initial(tool, lists), events);
  }

  // ----- what a delivery report is worth -----

  /** The request was handed to a client that was connected. */
  predicate LeftTheAdapter(d: Dispatch) {
    d.Requesting? || d.Resolved? || (d.Rejected? && d.answered.Some? && !d.answered.value.SdkNotConnected?)
  }

  /** A delivery report for the call's own dispatch error says `not_sent` if and only if no request left the adapter. */
  lemma OwnDeliveryIsTrue(s: State)
    requires Inv(s) && Enabled(s, HostThrows(OwnDispatchError))
    ensures var report := Next(s, HostThrows(OwnDispatchError)).report.value;
      report.DeliveryReport? && (report.delivery.NotSent? <==> !LeftTheAdapter(s.dispatch))
  {}

  /** What a host can see of its own dispatch: no promise, one that is not settled, or how it settled. */
  datatype View = NoPromise | Pending | Fulfilled | Refused(delivery: Delivery)

  function ViewOf(d: Dispatch): View {
    match d
    case NotCalled => NoPromise
    case Resolved(_) => Fulfilled
    case Rejected(delivery, _) => Refused(delivery)
    case _ => Pending
  }

  /** The host's handler ends with a `not_sent` error of another call, and this one's report repeats it. */
  predicate RepeatsForeignNotSent(s: State)
    requires !s.settled
  {
    var report := Next(s, HostThrows(AdapterErrorFromElsewhere(NotSent))).report.value;
    report.DeliveryReport? && report.delivery.NotSent?
  }

  /**
   A host may throw an adapter error that is not from this call's dispatch. `not_sent` is then reported as long as
   there is no result. That is true for a host that has made no dispatch or was refused with `not_sent`, false for
   one that was refused otherwise, and for one whose dispatch is pending true if and only if it is not sent yet.
   */
  lemma ForeignNotSentIsTrueIff(s: State)
    requires Inv(s) && !s.settled
    ensures RepeatsForeignNotSent(s) <==> !ViewOf(s.dispatch).Fulfilled?
    ensures RepeatsForeignNotSent(s) ==>
      (!LeftTheAdapter(s.dispatch) <==>
       match ViewOf(s.dispatch)
       case Pending => !s.sent
       case Refused(delivery) => delivery.NotSent?
       case _ => true)
  {}

  /** A call of the one tool of a connection, with no re-list so far. */
  const START := Initial("tool", HostRefresh.Next(HostRefresh.INITIAL, HostRefresh.Select(map["tool" := "fingerprint"])))

  lemma RunFirst(s: State, e: Event, rest: seq<Event>)
    requires Enabled(s, e) && Runs(Next(s, e), rest)
    ensures Runs(s, [e] + rest) && Run(s, [e] + rest) == Run(Next(s, e), rest)
  {
    assert ([e] + rest)[1..] == rest;
  }

  lemma RunOne(s: State, e: Event)
    requires Enabled(s, e)
    ensures Runs(s, [e]) && Run(s, [e]) == Next(s, e)
  {
    RunFirst(s, e, []);
    assert [e] + [] == [e];
  }

  /** A host whose dispatch is pending cannot tell: the same view, and the report is true in one run. */
  lemma ForeignNotSentCanBeTrue()
    ensures var events := [HostDispatches, HostThrows(AdapterErrorFromElsewhere(NotSent))];
      && Runs(START, events)
      && Run(START, events).report == Some(DeliveryReport(NotSent, false))
      && ViewOf(Run(START, events).dispatch).Pending? && Run(START, events).sends == 0
  {
    var s1 := Next(START, HostDispatches);
    RunOne(s1, HostThrows(AdapterErrorFromElsewhere(NotSent)));
    RunFirst(START, HostDispatches, [HostThrows(AdapterErrorFromElsewhere(NotSent))]);
  }

  /** And false in another: the request is under way when the host gives up with another call's error. */
  lemma ForeignNotSentCanBeFalse()
    ensures var events := [HostDispatches, ListsChecked, SendContinues, HostThrows(AdapterErrorFromElsewhere(NotSent))];
      && Runs(START, events)
      && Run(START, events).report == Some(DeliveryReport(NotSent, false))
      && ViewOf(Run(START, events).dispatch).Pending? && Run(START, events).sends == 1
  {
    var last: Event := HostThrows(AdapterErrorFromElsewhere(NotSent));
    var s1 := Next(START, HostDispatches);
    var s2 := Next(s1, ListsChecked);
    var s3 := Next(s2, SendContinues);
    RunOne(s3, last);
    RunFirst(s2, SendContinues, [last]);
    RunFirst(s1, ListsChecked, [SendContinues, last]);
    RunFirst(START, HostDispatches, [ListsChecked, SendContinues, last]);
  }

  // ----- the code -----

  /** The closure variables of one `executeTool`, and the parts of the connection it looks at. */
  class ToolCall {
    const name: string
    const connection: HostRefresh.Connection
    var closed: bool
    var open: bool
    var aborted: bool
    var dispatch: Dispatch
    var sent: bool
    var settled: bool
    var report: Option<Report>
    var linked: map<nat, Read>
    ghost var asked: Option<HostRefresh.State>
    ghost var sends: nat
    ghost var sendsAllowed: bool
    ghost var readSends: map<nat, nat>

    ghost function Abstract(): State
      reads this, connection
    {
      State(name, connection.Abstract(), closed, open, aborted, dispatch, sent, settled, report, linked,
            asked, sends, sendsAllowed, readSends)
    }

    constructor (name: string, connection: HostRefresh.Connection)
      ensures this.connection == connection && Abstract() == Initial(name, connection.Abstract())
    {
      this.name, this.connection := name, connection;
      closed, open, aborted := false, true, false;
      dispatch, sent, settled, report, linked := NotCalled, false, false, None, map[];
      asked, sends, sendsAllowed, readSends := None, 0, true, map[];
    }

    predicate IsUnavailable()
      reads this
    {
      settled || closed || !open || aborted
    }

    /** `dispatch()`: the second call throws. */
    method DispatchOnce() returns (threw: bool)
      modifies this
      ensures threw == !old(dispatch).NotCalled?
      ensures Abstract() == if threw then old(Abstract()) else Next(old(Abstract()), HostDispatches)
    {
      if !dispatch.NotCalled? { return true; }
      dispatch := WaitingForLists;
      return false;
    }

    /** `isRetired` when no re-list is pending any more. */
    method AnswerRetired()
      requires dispatch.WaitingForLists? && !connection.refresh
      modifies this
      ensures Abstract() == Next(old(Abstract()), ListsChecked)
    {
      asked := Some(connection.Abstract());
      dispatch := Told(name in connection.retired);
    }

    /** The rest of `send` once it is told whether the tool is retired, up to the request. */
    method ContinueSend()
      requires dispatch.Told? && sendsAllowed
      modifies this
      ensures Abstract() == Next(old(Abstract()), SendContinues)
    {
      if IsUnavailable() || dispatch.retired {
        dispatch := Rejected(NotSent, None);
        return;
      }
      sent := true;
      sends := sends + 1;
      dispatch := Requesting;
    }

    /** `dispatch()` of a prepared read. */
    method DispatchRead(r: nat) returns (threw: bool)
      requires r in linked && r in readSends
      modifies this
      ensures threw == !old(linked)[r].Prepared?
      ensures Abstract() == if threw then old(Abstract()) else Next(old(Abstract()), ReadDispatches(r))
    {
      if !linked[r].Prepared? { return true; }
      if IsUnavailable() {
        linked := linked[r := ReadRefused];
      } else {
        linked := linked[r := ReadSent];
        readSends := readSends[r := readSends[r] + 1];
      }
      return false;
    }

    /** The `catch` and `finally` around `onToolCall`. */
    method HostFails(thrown: Thrown)
      requires !settled && (thrown.OwnDispatchError? ==> dispatch.Rejected?)
      modifies this
      ensures Abstract() == Next(old(Abstract()), HostThrows(thrown))
    {
      if !thrown.OtherError? && !dispatch.Resolved? {
        var delivery := if thrown.OwnDispatchError? then dispatch.delivery else thrown.delivery;
        report := Some(DeliveryReport(delivery, name in connection.retired && delivery.NotSent?));
      } else {
        report := Some(HostError(sent));
      }
      settled := true;
    }
  }
}
