/**
 Re-listing the tools of a host-managed connection: `requestCatalogRefresh`, the selection at the end of
 `connectServer`, and `isRetired` of host-managed.ts.
 */
module HostRefresh {
  import opened Options

  type Fingerprint = string

  /** How a re-list ends. */
  datatype Listing = Listed(tools: map<string, Fingerprint>) | Failed

  /**
   A connection. `selected` are the tools registered from it, with their fingerprints, and `refresh` is there while
   the re-list loop runs. The last five fields are history: how many events there were, which of them was the last
   notification, how many there were when the running re-list began and when the last completed one did, and what
   all completed ones gave. So a re-list began after a notification if that is one of the events it counts.
   */
  datatype State = State(
    selected: Option<map<string, Fingerprint>>, retired: set<string>, refresh: bool, refreshRequested: bool,
    events: nat, lastNotified: Option<nat>, listBegan: nat, lastServed: Option<nat>, listings: seq<Listing>)

  datatype Event = Notify | Select(tools: map<string, Fingerprint>) | ListEnds(listing: Listing)

  const INITIAL := State(None, {}, false, false, 0, None, 0, None, [])

  predicate Enabled(s: State, e: Event) {
    match e
    case Notify => true
    case Select(_) => s.selected.None?
    case ListEnds(_) => s.refresh
  }

  // ----- the steps -----

  /** `requestCatalogRefresh` up to its first await. */
  function Requested(s: State): State {
    if s.selected.None? || s.refresh then s.(refreshRequested := true)
    else s.(refreshRequested := false, refresh := true, listBegan := s.events)
  }

  predicate Changed(selected: map<string, Fingerprint>, listing: Listing, name: string) {
    name in selected && (listing.Failed? || name !in listing.tools || listing.tools[name] != selected[name])
  }

  function ChangedTools(selected: map<string, Fingerprint>, listing: Listing): set<string> {
    set name | name in selected && Changed(selected, listing, name)
  }

  /** The rest of the loop's body, and its next turn up to the await or its end. */
  function Ended(s: State, listing: Listing): State {
    var selected := if s.selected.Some? then s.selected.value else map[];
    var t := s.(retired := s.retired + ChangedTools(selected, listing), lastServed := Some(s.listBegan),
                listings := s.listings + [listing]);
    if s.refreshRequested then t.(refreshRequested := false, listBegan := s.events) else t.(refresh := false)
  }

  function Next(s: State, e: Event): State
    requires Enabled(s, e)
  {
    var now := s.(events := s.events + 1);
    match e
    case Notify => Requested(now.(lastNotified := Some(s.events)))
    case Select(tools) =>
      var t := now.(selected := Some(tools));
      if s.refreshRequested then Requested(t) else t
    case ListEnds(listing) => Ended(now, listing)
  }

  // ----- what holds in every reachable state -----

  /** No notification is forgotten: it is still asked for, or a re-list that began after it runs or has ended. */
  ghost predicate NoNotificationLost(s: State) {
    && (s.selected.None? ==> !s.refresh && (s.refreshRequested <==> s.lastNotified.Some?))
    && (s.selected.Some? && s.refreshRequested ==> s.refresh)
    && (s.refresh && !s.refreshRequested && s.lastNotified.Some? ==> s.lastNotified.value < s.listBegan)
    && (s.selected.Some? && !s.refresh && s.lastNotified.Some? ==>
          s.lastServed.Some? && s.lastNotified.value < s.lastServed.value)
    && (s.lastNotified.Some? ==> s.lastNotified.value < s.events)
    && (s.refresh ==> s.listBegan <= s.events)
  }

  /** A completed re-list did not have the selected tool as registered. */
  ghost predicate WasChanged(s: State, name: string)
    requires s.selected.Some?
  {
    exists k :: 0 <= k < |s.listings| && Changed(s.selected.value, s.listings[k], name)
  }

  /** A selected tool is retired exactly when a completed re-list did not have it as registered. */
  ghost predicate RetiredExactly(s: State)
  {
    && (s.selected.None? ==> s.listings == [] && s.retired == {})
    && (s.selected.Some? ==> forall name ::
          name in s.retired <==> name in s.selected.value && WasChanged(s, name))
  }

  ghost predicate Inv(s: State) { NoNotificationLost(s) && RetiredExactly(s) }

  lemma RetiredNext(s: State, listing: Listing)
    requires RetiredExactly(s) && s.selected.Some?
    ensures RetiredExactly(s.(retired := s.retired + ChangedTools(s.selected.value, listing), listings := s.listings + [listing]))
  {
    var t := s.(retired := s.retired + ChangedTools(s.selected.value, listing), listings := s.listings + [listing]);
    forall name | name in t.retired
      ensures exists k :: 0 <= k < |t.listings| && Changed(t.selected.value, t.listings[k], name)
    {
      if name in s.retired {
        var k :| 0 <= k < |s.listings| && Changed(s.selected.value, s.listings[k], name);
        assert t.listings[k] == s.listings[k];
      } else {
        assert t.listings[|s.listings|] == listing;
      }
    }
    forall name, k | 0 <= k < |t.listings| && Changed(t.selected.value, t.listings[k], name) ensures name in t.retired {
      if k < |s.listings| {
        assert Changed(s.selected.value, s.listings[k], name);
      }
    }
  }

  lemma InvStep(s: State, e: Event)
    requires Inv(s) && Enabled(s, e)
    ensures Inv(Next(s, e))
    ensures s.retired <= Next(s, e).retired
  {
    if e.ListEnds? {
      RetiredNext(s, e.listing);
    }
  }

  ghost predicate Runs(s: State, events: seq<Event>)
    decreases |events|
  {
    events == [] || (Enabled(s, events[0]) && Runs(Next(s, events[0]), events[1..]))
  }

  ghost function Run(s: State, events: seq<Event>): State
    requires Runs(s, events)
    decreases |events|
  {
    if events == [] then s else Run(Next(s, events[0]), events[1..])
  }

  lemma {:induction false} RunKeepsInv(s: State, events: seq<Event>)
    requires Inv(s) && Runs(s, events)
    ensures Inv(Run(s, events)) && s.retired <= Run(s, events).retired
    decreases |events|
  {
    if events != [] {
      InvStep(s, events[0]);
      RunKeepsInv(Next(s, events[0]), events[1..]);
    }
  }

  /** No re-list is pending, and the last completed one began after the last notification. */
  predicate IsUpToDate(s: State) {
    s.selected.Some? && !s.refresh &&
    (s.lastNotified.Some? ==> s.lastServed.Some? && s.lastNotified.value < s.lastServed.value)
  }

  /**
   Whatever notifications come, before or after the tools are selected and in the middle of re-lists: when no
   re-list is pending, the last completed one began after the last notification, and a selected tool that is not
   retired was as registered in every completed re-list. Retired tools stay retired.
   */
  lemma NotRetiredIsUnchanged(before: seq<Event>, after: seq<Event>, name: string)
    requires Runs(INITIAL, before) && Runs(Run(INITIAL, before), after)
    ensures Run(INITIAL, before).retired <= Run(Run(INITIAL, before), after).retired
    ensures var s := Run(INITIAL, before);
      s.selected.Some? && !s.refresh ==>
        && IsUpToDate(s)
        && (name in s.selected.value ==> (name in s.retired <==> WasChanged(s, name)))
  {
    RunKeepsInv(INITIAL, before);
    RunKeepsInv(Run(INITIAL, before), after);
  }

  // ----- the connection by its events alone -----

  /**
   How many events there were, the last notification among them, the selected tools, since when a re-list runs, when
   the last completed one had begun, and what all completed ones gave.
   */
  datatype Log = Log(count: nat, notified: Option<nat>, tools: Option<map<string, Fingerprint>>, began: Option<nat>,
                     served: Option<nat>, gave: seq<Listing>)

  const EMPTY_LOG := Log(0, None, None, None, None, [])

  /** There was a notification that the running re-list does not answer, or that came before the selection. */
  predicate Unanswered(l: Log) {
    l.notified.Some? && (if l.began.Some? then l.notified.value >= l.began.value else l.tools.None?)
  }

  /** A re-list begins with a notification when none runs, and at the selection or after another one if one is unanswered. */
  ghost function Logged(l: Log, e: Event): Log {
    var now := l.(count := l.count + 1);
    match e
    case Notify =>
      now.(notified := Some(l.count), began := if l.tools.Some? && l.began.None? then Some(l.count + 1) else l.began)
    case Select(tools) => now.(tools := Some(tools), began := if Unanswered(l) then Some(l.count + 1) else None)
    case ListEnds(listing) =>
      now.(gave := l.gave + [listing], served := l.began, began := if Unanswered(l) then Some(l.count + 1) else None)
  }

  ghost function LogOf(l: Log, events: seq<Event>): Log
    decreases |events|
  {
    if events == [] then l else LogOf(Logged(l, events[0]), events[1..])
  }

  /** A re-list failed, or did not list the tool as it was registered. */
  predicate Contradicts(listing: Listing, name: string, fingerprint: Fingerprint) {
    match listing
    case Failed => true
    case Listed(tools) => !(name in tools && tools[name] == fingerprint)
  }

  ghost predicate IsContradicted(l: Log, name: string) {
    && l.tools.Some? && name in l.tools.value
    && exists k :: 0 <= k < |l.gave| && Contradicts(l.gave[k], name, l.tools.value[name])
  }

  ghost predicate IsLogged(s: State, l: Log) {
    && s.events == l.count && s.lastNotified == l.notified && s.selected == l.tools
    && (s.refresh <==> l.began.Some?) && (l.began.Some? ==> s.listBegan == l.began.value)
    && s.lastServed == l.served && s.listings == l.gave
    && (s.refreshRequested <==> Unanswered(l))
    && forall name :: name in s.retired <==> IsContradicted(l, name)
  }

  lemma ContradictedIsChanged(s: State, l: Log)
    requires RetiredExactly(s) && s.selected == l.tools && s.listings == l.gave
    ensures forall name :: name in s.retired <==> IsContradicted(l, name)
  {
    forall name ensures name in s.retired <==> IsContradicted(l, name) {
      if s.selected.Some? && name in s.selected.value {
        assert forall k :: 0 <= k < |l.gave| ==>
          (Changed(s.selected.value, s.listings[k], name) <==> Contradicts(l.gave[k], name, l.tools.value[name]));
      }
    }
  }

  lemma LogStep(s: State, l: Log, e: Event)
    requires Inv(s) && Enabled(s, e) && IsLogged(s, l)
    ensures IsLogged(Next(s, e), Logged(l, e))
  {
    InvStep(s, e);
    ContradictedIsChanged(Next(s, e), Logged(l, e));
  }

  lemma {:induction false} RunIsLogged(s: State, l: Log, events: seq<Event>)
    requires Inv(s) && Runs(s, events) && IsLogged(s, l)
    ensures Inv(Run(s, events)) && IsLogged(Run(s, events), LogOf(l, events))
    decreases |events|
  {
    if events != [] {
      InvStep(s, events[0]);
      LogStep(s, l, events[0]);
      RunIsLogged(Next(s, events[0]), Logged(l, events[0]), events[1..]);
    }
  }

  /**
   In every run: a re-list runs, another is asked for, and tools are retired exactly as the events say, and when none
   runs every notification has been answered by one that began after it.
   */
  lemma RefreshFollowsTheEvents(events: seq<Event>)
    requires Runs(INITIAL, events)
    ensures var s, l := Run(INITIAL, events), LogOf(EMPTY_LOG, events);
      && s.selected == l.tools && (s.refresh <==> l.began.Some?) && (s.refreshRequested <==> Unanswered(l))
      && (forall name :: name in s.retired <==> IsContradicted(l, name))
      && (l.tools.Some? && l.began.None? && l.notified.Some? ==> l.served.Some? && l.notified.value < l.served.value)
  {
    RunIsLogged(INITIAL, EMPTY_LOG, events);
  }

  // ----- the code -----

  class Connection {
    var selected: Option<map<string, Fingerprint>>
    var retired: set<string>
    var refresh: bool
    var refreshRequested: bool
    ghost var events: nat
    ghost var lastNotified: Option<nat>
    ghost var listBegan: nat
    ghost var lastServed: Option<nat>
    ghost var listings: seq<Listing>

    ghost function Abstract(): State
      reads this
    {
      State(selected, retired, refresh, refreshRequested, events, lastNotified, listBegan, lastServed, listings)
    }

    constructor ()
      ensures Abstract() == INITIAL
    {
      selected, retired, refresh, refreshRequested := None, {}, false, false;
      events, lastNotified, listBegan, lastServed, listings := 0, None, 0, None, [];
    }

    method RequestCatalogRefresh()
      modifies this
      ensures Abstract() == Requested(old(Abstract()))
    {
      refreshRequested := true;
      if selected.None? || refresh { return; }
      refresh := true;
      StartListing();
    }

    /** The head of the loop: asks for the list and waits. */
    method StartListing()
      modifies this`refreshRequested, this`listBegan
      ensures !refreshRequested && listBegan == events
    {
      refreshRequested := false;
      listBegan := events;
    }

    method OnListChanged()
      modifies this
      ensures Abstract() == Next(old(Abstract()), Notify)
    {
      lastNotified, events := Some(events), events + 1;
      RequestCatalogRefresh();
    }

    method SelectTools(tools: map<string, Fingerprint>)
      requires selected.None? && !refresh
      modifies this
      ensures Abstract() == Next(old(Abstract()), Select(tools))
    {
      events := events + 1;
      selected := Some(tools);
      if refreshRequested { RequestCatalogRefresh(); }
    }

    method RetireChanged(listing: Listing)
      requires selected.Some?
      modifies this`retired
      ensures retired == old(retired) + ChangedTools(selected.value, listing)
    {
      var names := selected.value.Keys;
      while names != {}
        invariant names <= selected.value.Keys
        invariant retired == old(retired) + (ChangedTools(selected.value, listing) - names)
        decreases names
      {
        var name :| name in names;
        if listing.Failed? || name !in listing.tools || listing.tools[name] != selected.value[name] {
          retired := retired + {name};
        }
        names := names - {name};
      }
    }

    /** After the await: retires what changed, and lists again if that was asked for meanwhile. */
    method OnListing(listing: Listing)
      requires selected.Some? && refresh
      modifies this
      ensures Abstract() == Next(old(Abstract()), ListEnds(listing))
    {
      events, lastServed, listings := events + 1, Some(listBegan), listings + [listing];
      RetireChanged(listing);
      if refreshRequested {
        StartListing();
      } else {
        refresh := false;
      }
    }
  }
}
