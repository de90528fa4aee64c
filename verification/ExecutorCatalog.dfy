/** `fetchExecutorCatalog` of executor-catalog.ts: paging through a server's app tools up to a cap. */
module ExecutorCatalog {
  import opened Options

  const CAP: nat := 1000
  const PAGE_LIMIT: nat := 200

  /** An item of the catalog; paths name tools. */
  datatype Item = Item(path: string, text: string)

  /** What one `search` call gives: a page as the server wrote it, or no usable page at all. */
  datatype Response = Page(items: seq<Item>, remaining: nat, next: Option<int>) | Unusable

  /** A server answers the `k`-th call with an offset and a limit in any way it likes. */
  type Server = (nat, nat, nat) -> Response

  datatype Catalog = Catalog(tools: seq<Item>, total: int)

  // ----- which items are kept -----

  /** The first item of its path among the app tools. */
  ghost predicate FirstListing(items: seq<Item>, i: nat, isAppTool: Item -> bool)
    requires i < |items|
  {
    && isAppTool(items[i])
    && forall j :: 0 <= j < i && isAppTool(items[j]) ==> items[j].path != items[i].path
  }

  /** The app tools of a list, each path as first listed. */
  ghost function Kept(items: seq<Item>, isAppTool: Item -> bool): seq<Item> {
    if items == [] then []
    else
      var last := |items| - 1;
      if FirstListing(items, last, isAppTool) then Kept(items[..last], isAppTool) + [items[last]]
      else Kept(items[..last], isAppTool)
  }

  ghost function Paths(items: seq<Item>): set<string> {
    set t | t in items :: t.path
  }

  lemma PathsNext(items: seq<Item>, item: Item)
    ensures Paths(items + [item]) == Paths(items) + {item.path}
  {
    assert forall t :: t in items + [item] <==> t in items || t == item;
    assert item in items + [item];
    forall path | path in Paths(items) ensures path in Paths(items + [item]) {
      var t :| t in items && t.path == path;
      assert t in items + [item];
    }
  }

  ghost predicate DistinctPaths(items: seq<Item>) {
    forall i, j :: 0 <= i < j < |items| ==> items[i].path != items[j].path
  }

  lemma {:induction false} KeptPaths(items: seq<Item>, isAppTool: Item -> bool)
    ensures Paths(Kept(items, isAppTool)) == set i | 0 <= i < |items| && isAppTool(items[i]) :: items[i].path
    ensures DistinctPaths(Kept(items, isAppTool)) && |Kept(items, isAppTool)| <= |items|
    ensures forall t :: t in Kept(items, isAppTool) ==> t in items && isAppTool(t)
  {
    if items != [] {
      var last := |items| - 1;
      var before, kept := Kept(items[..last], isAppTool), Kept(items, isAppTool);
      KeptPaths(items[..last], isAppTool);
      var all := set i | 0 <= i < |items| && isAppTool(items[i]) :: items[i].path;
      var earlier := set i | 0 <= i < last && isAppTool(items[i]) :: items[i].path;
      assert Paths(before) == earlier by {
        assert forall i :: 0 <= i < last ==> items[..last][i] == items[i];
      }
      if FirstListing(items, last, isAppTool) {
        PathsNext(before, items[last]);
        forall i | 0 <= i < |before| ensures before[i].path != items[last].path {
          assert before[i].path in Paths(before);
        }
      }
    }
  }

  /** No app tool before this one has its path. */
  ghost predicate IsFirstOfItsPath(items: seq<Item>, i: nat, isAppTool: Item -> bool)
    requires i < |items|
  {
    isAppTool(items[i]) && !exists j :: 0 <= j < i && isAppTool(items[j]) && items[j].path == items[i].path
  }

  /** The kept items are the first of each path, all of them and in their order. */
  lemma {:induction false} KeptAreFirstListings(items: seq<Item>, isAppTool: Item -> bool) returns (places: seq<nat>)
    ensures |places| == |Kept(items, isAppTool)|
    ensures forall m :: 0 <= m < |places| ==> places[m] < |items| && Kept(items, isAppTool)[m] == items[places[m]]
    ensures forall m, n :: 0 <= m < n < |places| ==> places[m] < places[n]
    ensures forall i :: 0 <= i < |items| ==> (i in places <==> IsFirstOfItsPath(items, i, isAppTool))
  {
    places := [];
    if items != [] {
      var last := |items| - 1;
      places := KeptAreFirstListings(items[..last], isAppTool);
      assert forall i :: 0 <= i < last ==>
        (IsFirstOfItsPath(items[..last], i, isAppTool) <==> IsFirstOfItsPath(items, i, isAppTool));
      if FirstListing(items, last, isAppTool) {
        places := places + [last];
      }
    }
  }

  lemma PathIsKept(items: seq<Item>, path: string, isAppTool: Item -> bool)
    ensures path in Paths(Kept(items, isAppTool)) <==> exists j :: 0 <= j < |items| && isAppTool(items[j]) && items[j].path == path
  {
    KeptPaths(items, isAppTool);
  }

  lemma KeptNext(items: seq<Item>, item: Item, isAppTool: Item -> bool)
    ensures Kept(items + [item], isAppTool) ==
      if isAppTool(item) && item.path !in Paths(Kept(items, isAppTool)) then Kept(items, isAppTool) + [item]
      else Kept(items, isAppTool)
  {
    var n, more := |items|, items + [item];
    assert more[..n] == items && forall j :: 0 <= j < n ==> more[j] == items[j];
    PathIsKept(items, item.path, isAppTool);
  }

  lemma {:induction false} KeptGrows(items: seq<Item>, a: nat, b: nat, isAppTool: Item -> bool)
    requires a <= b <= |items|
    ensures Kept(items[..a], isAppTool) <= Kept(items[..b], isAppTool)
    ensures |Kept(items[..b], isAppTool)| - |Kept(items[..a], isAppTool)| <= b - a
    decreases b - a
  {
    if a < b {
      KeptGrows(items, a, b - 1, isAppTool);
      KeptNext(items[..b - 1], items[b - 1], isAppTool);
      assert items[..b] == items[..b - 1] + [items[b - 1]];
    }
  }

  // ----- an honest server -----

  function Limit(kept: nat): nat
    requires kept <= CAP
  {
    if PAGE_LIMIT < CAP - kept then PAGE_LIMIT else CAP - kept
  }

  /** A server that pages one catalog: at least one item a page, wherever it ends its pages. */
  ghost predicate Honest(server: Server, catalog: seq<Item>) {
    forall k: nat, offset: nat, limit: nat :: GivesHonestPage(server, catalog, k, offset, limit)
  }

  ghost predicate GivesHonestPage(server: Server, catalog: seq<Item>, k: nat, offset: nat, limit: nat) {
    offset <= |catalog| && 0 < limit ==> HonestPage(server(k, offset, limit), catalog, offset, limit)
  }

  ghost predicate HonestPage(page: Response, catalog: seq<Item>, offset: nat, limit: nat) {
    && page.Page? && |page.items| <= limit && offset + |page.items| <= |catalog|
    && page.items == catalog[offset..offset + |page.items|]
    && page.remaining == |catalog| - offset - |page.items|
    && (offset < |catalog| ==> page.items != [])
    && page.next == if page.remaining == 0 then None else Some(offset + |page.items|)
  }

  /** Nothing is left to read after this many items: the catalog, or the room for tools, has run out. */
  ghost predicate Done(catalog: seq<Item>, offset: nat, isAppTool: Item -> bool) {
    offset >= |catalog| || |Kept(catalog[..offset], isAppTool)| >= CAP
  }

  /** How many items of the catalog an honest server has given after `k` pages. */
  ghost function ReadAfter(server: Server, catalog: seq<Item>, k: nat, isAppTool: Item -> bool): (offset: nat)
    requires Honest(server, catalog)
    ensures offset <= |catalog|
  {
    if k == 0 then 0
    else
      var offset := ReadAfter(server, catalog, k - 1, isAppTool);
      if Done(catalog, offset, isAppTool) then offset
      else
        var limit := Limit(|Kept(catalog[..offset], isAppTool)|);
        assert GivesHonestPage(server, catalog, k - 1, offset, limit);
        offset + |server(k - 1, offset, limit).items|
  }

  lemma {:induction false} DoneStaysDone(server: Server, catalog: seq<Item>, k: nat, m: nat, isAppTool: Item -> bool)
    requires Honest(server, catalog) && k <= m && Done(catalog, ReadAfter(server, catalog, k, isAppTool), isAppTool)
    ensures ReadAfter(server, catalog, m, isAppTool) == ReadAfter(server, catalog, k, isAppTool)
    decreases m - k
  {
    if k < m {
      DoneStaysDone(server, catalog, k, m - 1, isAppTool);
    }
  }

  /** Each page that is needed reads an item, so a catalog of at most `CAP` items never needs too many pages. */
  lemma {:induction false} SmallCatalogsAreRead(server: Server, catalog: seq<Item>, k: nat, isAppTool: Item -> bool)
    requires Honest(server, catalog)
    ensures Done(catalog, ReadAfter(server, catalog, k, isAppTool), isAppTool) || k <= ReadAfter(server, catalog, k, isAppTool)
    ensures |catalog| <= CAP && k == CAP ==> Done(catalog, ReadAfter(server, catalog, k, isAppTool), isAppTool)
  {
    if k > 0 {
      SmallCatalogsAreRead(server, catalog, k - 1, isAppTool);
      var offset := ReadAfter(server, catalog, k - 1, isAppTool);
      if !Done(catalog, offset, isAppTool) {
        var limit := Limit(|Kept(catalog[..offset], isAppTool)|);
        assert GivesHonestPage(server, catalog, k - 1, offset, limit);
      }
    }
  }

  /** What is returned for an honest server: `None` for a refusal. */
  ghost predicate Fetched(server: Server, isAppTool: Item -> bool, catalog: seq<Item>, r: Option<Catalog>) {
    Honest(server, catalog) ==>
      var read := ReadAfter(server, catalog, CAP, isAppTool);
      && (r.Some? <==> Done(catalog, read, isAppTool))
      && (r.Some? ==> r.value.tools == Kept(catalog[..read], isAppTool) && r.value.total == |catalog| - (read - |r.value.tools|))
  }

  /** An honest server that gives one item a page. */
  function OneItemServer(catalog: seq<Item>): Server {
    (k: nat, offset: nat, limit: nat) =>
      if offset < |catalog| && limit > 0
      then Page([catalog[offset]], |catalog| - offset - 1, if offset + 1 == |catalog| then None else Some(offset + 1))
      else Page([], 0, None)
  }

  lemma OneItemServerIsHonest(catalog: seq<Item>)
    ensures Honest(OneItemServer(catalog), catalog)
  {
    forall k: nat, offset: nat, limit: nat | offset <= |catalog| && 0 < limit
      ensures HonestPage(OneItemServer(catalog)(k, offset, limit), catalog, offset, limit)
    {
      if offset < |catalog| {
        assert catalog[offset..offset + 1] == [catalog[offset]];
      }
    }
  }

  lemma {:induction false} OneItemPages(catalog: seq<Item>, k: nat, isAppTool: Item -> bool)
    requires Honest(OneItemServer(catalog), catalog)
    requires k <= CAP < |catalog| && |Kept(catalog[..CAP], isAppTool)| < CAP
    ensures ReadAfter(OneItemServer(catalog), catalog, k, isAppTool) == k
  {
    if k > 0 {
      OneItemPages(catalog, k - 1, isAppTool);
      KeptGrows(catalog, k - 1, CAP, isAppTool);
    }
  }

  /** Every honest server of the catalog is read, however it pages. */
  ghost predicate ReadFromAll(catalog: seq<Item>, isAppTool: Item -> bool) {
    forall server: Server :: Honest(server, catalog) ==> IsRead(server, catalog, isAppTool)
  }

  ghost predicate IsRead(server: Server, catalog: seq<Item>, isAppTool: Item -> bool)
    requires Honest(server, catalog)
  {
    Done(catalog, ReadAfter(server, catalog, CAP, isAppTool), isAppTool)
  }

  lemma FullCatalogIsRead(server: Server, catalog: seq<Item>, isAppTool: Item -> bool)
    requires Honest(server, catalog) && |catalog| > CAP && |Kept(catalog[..CAP], isAppTool)| == CAP
    ensures IsRead(server, catalog, isAppTool)
  {
    var read := ReadAfter(server, catalog, CAP, isAppTool);
    SmallCatalogsAreRead(server, catalog, CAP, isAppTool);
    if read >= CAP { KeptGrows(catalog, CAP, read, isAppTool); }
  }

  /**
   A catalog is read from every honest server if and only if it has at most `CAP` items, or its first `CAP` items
   are app tools of distinct paths. In any other, items that are passed over use up the pages that the cap allows.
   */
  lemma ReadFromAllIff(catalog: seq<Item>, isAppTool: Item -> bool)
    ensures ReadFromAll(catalog, isAppTool) <==> |catalog| <= CAP || |Kept(catalog[..CAP], isAppTool)| == CAP
  {
    if |catalog| <= CAP {
      forall server: Server | Honest(server, catalog) ensures IsRead(server, catalog, isAppTool) {
        SmallCatalogsAreRead(server, catalog, CAP, isAppTool);
      }
    } else if |Kept(catalog[..CAP], isAppTool)| == CAP {
      forall server: Server | Honest(server, catalog) ensures IsRead(server, catalog, isAppTool) {
        FullCatalogIsRead(server, catalog, isAppTool);
      }
    } else {
      ForeignToolsCanRefuseACatalog(catalog, isAppTool);
    }
  }

  /** An honest server can be refused: it gives one item a page, and not all of the first items are kept. */
  lemma ForeignToolsCanRefuseACatalog(catalog: seq<Item>, isAppTool: Item -> bool)
    requires |catalog| > CAP && |Kept(catalog[..CAP], isAppTool)| != CAP
    ensures Honest(OneItemServer(catalog), catalog) && !IsRead(OneItemServer(catalog), catalog, isAppTool)
    ensures forall r :: Fetched(OneItemServer(catalog), isAppTool, catalog, r) ==> r.None?
  {
    OneItemServerIsHonest(catalog);
    KeptPaths(catalog[..CAP], isAppTool);
    OneItemPages(catalog, CAP, isAppTool);
  }

  // ----- pages -----

  /** The next-offset rule of `parseSearchPage`: no later page, a later page, or a malformed answer. */
  datatype NextPage = Last | Later(offset: nat) | Malformed

  function NextOffset(page: Response, offset: nat): NextPage
    requires page.Page?
  {
    if page.next.None? then Last
    else if page.next.value == offset && page.items == [] then Last
    else if page.next.value <= offset then Malformed
    else Later(page.next.value)
  }

  // ----- any server -----

  /** Where the next page starts, and the items of all pages so far. */
  datatype Progress = Progress(offset: nat, seen: seq<Item>)

  /** What any server has given in `k` pages, if reading goes on after them. */
  ghost function PagesRead(server: Server, isAppTool: Item -> bool, k: nat): (p: Option<Progress>)
    ensures p.Some? ==> |Kept(p.value.seen, isAppTool)| < CAP
  {
    if k == 0 then Some(Progress(0, []))
    else
      match PagesRead(server, isAppTool, k - 1)
      case None => None
      case Some(before) =>
        AfterPage(NextPageOf(server, isAppTool, k - 1, before), before, isAppTool)
  }

  ghost function AfterPage(page: Response, before: Progress, isAppTool: Item -> bool): (p: Option<Progress>)
    ensures p.Some? ==> |Kept(p.value.seen, isAppTool)| < CAP
  {
    if page.Page? && NextOffset(page, before.offset).Later? && |Kept(before.seen + page.items, isAppTool)| < CAP
    then Some(Progress(NextOffset(page, before.offset).offset, before.seen + page.items))
    else None
  }

  ghost function NextPageOf(server: Server, isAppTool: Item -> bool, k: nat, before: Progress): Response
    requires |Kept(before.seen, isAppTool)| < CAP
  {
    server(k, before.offset, Limit(|Kept(before.seen, isAppTool)|))
  }

  /** Page `k` cannot be used. */
  ghost predicate RefusedAt(server: Server, isAppTool: Item -> bool, k: nat) {
    match PagesRead(server, isAppTool, k)
    case None => false
    case Some(before) =>
      var page := NextPageOf(server, isAppTool, k, before);
      page.Unusable? || NextOffset(page, before.offset).Malformed?
  }

  /**
   Page `k` is the last, or fills the cap, with its item `n` the first that is not looked at. The tools are those of
   all items looked at, and the total is the server's own count less the items passed over.
   */
  ghost predicate EndsAt(server: Server, isAppTool: Item -> bool, k: nat, n: nat, r: Catalog) {
    match PagesRead(server, isAppTool, k)
    case None => false
    case Some(before) =>
      var page := NextPageOf(server, isAppTool, k, before);
      && page.Page? && !NextOffset(page, before.offset).Malformed? && LooksAt(before.seen, page.items, isAppTool, n)
      && r.tools == Kept(before.seen + page.items[..n], isAppTool)
      && (NextOffset(page, before.offset).Last? || |r.tools| == CAP)
      && r.total == before.offset + |page.items| + page.remaining - (|before.seen| + n - |r.tools|)
  }

  /** After what was seen, the loop looks at the first `n` items: all of them, or as many as fill the cap. */
  ghost predicate LooksAt(seen: seq<Item>, items: seq<Item>, isAppTool: Item -> bool, n: nat) {
    && n <= |items| && (n == |items| || |Kept(seen + items[..n], isAppTool)| == CAP)
    && forall j :: 0 <= j < n ==> |Kept(seen + items[..j], isAppTool)| < CAP
  }

  /**
   What is asked of a server, and what goes on: page `k` is asked for at most 200 items and no more than there is room
   for. Reading goes on at a later offset as long as there is room, a page that points back is refused, and so is one
   that points to its own offset, unless it is empty.
   */
  lemma PagesGoForward(server: Server, isAppTool: Item -> bool, k: nat)
    ensures PagesRead(server, isAppTool, k).Some? ==>
      var Progress(offset, seen) := PagesRead(server, isAppTool, k).value;
      var kept := |Kept(seen, isAppTool)|;
      var page := server(k, offset, if kept > 800 then 1000 - kept else 200);
      && kept < 1000
      && (RefusedAt(server, isAppTool, k) <==>
            page.Unusable? || (page.next.Some? && (page.next.value < offset || (page.next.value == offset && page.items != []))))
      && (PagesRead(server, isAppTool, k + 1).Some? <==>
            page.Page? && page.next.Some? && page.next.value > offset && |Kept(seen + page.items, isAppTool)| < 1000)
      && (PagesRead(server, isAppTool, k + 1).Some? ==>
            PagesRead(server, isAppTool, k + 1).value == Progress(page.next.value, seen + page.items))
    ensures PagesRead(server, isAppTool, 0) == Some(Progress(0, []))
    ensures PagesRead(server, isAppTool, k).None? ==> !RefusedAt(server, isAppTool, k)
  {}

  /** What is returned for any server whatever. */
  ghost predicate Outcome(server: Server, isAppTool: Item -> bool, r: Option<Catalog>) {
    match r
    case Some(catalog) => exists k: nat, n: nat :: k < CAP && EndsAt(server, isAppTool, k, n, catalog)
    case None => PagesRead(server, isAppTool, CAP).Some? || exists k: nat :: k < CAP && RefusedAt(server, isAppTool, k)
  }

  lemma {:induction false} NothingIsReadAfter(server: Server, isAppTool: Item -> bool, k: nat, m: nat)
    requires k <= m && PagesRead(server, isAppTool, k).None?
    ensures PagesRead(server, isAppTool, m).None?
    decreases m - k
  {
    if k < m { NothingIsReadAfter(server, isAppTool, k, m - 1); }
  }

  lemma EndComesFirst(server: Server, isAppTool: Item -> bool, k: nat, m: nat)
    requires PagesRead(server, isAppTool, k + 1).None? && PagesRead(server, isAppTool, m).Some?
    ensures m <= k
  {
    if k + 1 <= m { NothingIsReadAfter(server, isAppTool, k + 1, m); }
  }

  /** The page that ends the reading, well or not, is the first that does. */
  lemma EndIsUnique(server: Server, isAppTool: Item -> bool, k: nat, m: nat)
    requires PagesRead(server, isAppTool, k).Some? && PagesRead(server, isAppTool, k + 1).None?
    requires PagesRead(server, isAppTool, m).Some? && (PagesRead(server, isAppTool, m + 1).None? || m == CAP >= k)
    ensures m <= k && (PagesRead(server, isAppTool, m + 1).None? ==> m == k)
  {
    EndComesFirst(server, isAppTool, k, m);
    if PagesRead(server, isAppTool, m + 1).None? { EndComesFirst(server, isAppTool, m, k); }
  }

  lemma EndsReading(server: Server, isAppTool: Item -> bool, k: nat, n: nat, r: Catalog)
    requires EndsAt(server, isAppTool, k, n, r)
    ensures PagesRead(server, isAppTool, k + 1).None?
  {
    var before := PagesRead(server, isAppTool, k).value;
    var page := NextPageOf(server, isAppTool, k, before);
    if n < |page.items| {
      var all := before.seen + page.items;
      assert all[..|before.seen| + n] == before.seen + page.items[..n] && all[..|all|] == all;
      KeptGrows(all, |before.seen| + n, |all|, isAppTool);
    } else {
      assert page.items[..n] == page.items;
    }
  }

  lemma LooksAtOnce(seen: seq<Item>, items: seq<Item>, isAppTool: Item -> bool, n: nat, m: nat)
    requires LooksAt(seen, items, isAppTool, n) && LooksAt(seen, items, isAppTool, m)
    ensures n == m
  {}

  /** A server decides the outcome: two outcomes for one server are the same. */
  lemma OutcomeIsUnique(server: Server, isAppTool: Item -> bool, r: Option<Catalog>, other: Option<Catalog>)
    requires Outcome(server, isAppTool, r) && Outcome(server, isAppTool, other)
    ensures r == other
  {
    if r.Some? {
      SomeIsUnique(server, isAppTool, r.value, other);
    } else if other.Some? {
      SomeIsUnique(server, isAppTool, other.value, r);
    }
  }

  lemma SomeIsUnique(server: Server, isAppTool: Item -> bool, r: Catalog, other: Option<Catalog>)
    requires Outcome(server, isAppTool, Some(r)) && Outcome(server, isAppTool, other)
    ensures other == Some(r)
  {
    var k: nat, n: nat :| k < CAP && EndsAt(server, isAppTool, k, n, r);
    EndsReading(server, isAppTool, k, n, r);
    if other.Some? {
      var m: nat, i: nat :| m < CAP && EndsAt(server, isAppTool, m, i, other.value);
      SameEnd(server, isAppTool, k, n, r, m, i, other.value);
    } else {
      NotRefused(server, isAppTool, k);
    }
  }

  lemma SameEnd(server: Server, isAppTool: Item -> bool, k: nat, n: nat, r: Catalog, m: nat, i: nat, other: Catalog)
    requires EndsAt(server, isAppTool, k, n, r) && EndsAt(server, isAppTool, m, i, other)
    ensures r == other
  {
    EndsReading(server, isAppTool, k, n, r);
    EndsReading(server, isAppTool, m, i, other);
    EndIsUnique(server, isAppTool, k, m);
    var before := PagesRead(server, isAppTool, k).value;
    LooksAtOnce(before.seen, NextPageOf(server, isAppTool, k, before).items, isAppTool, n, i);
  }

  lemma NotRefused(server: Server, isAppTool: Item -> bool, k: nat)
    requires k < CAP && PagesRead(server, isAppTool, k).Some? && PagesRead(server, isAppTool, k + 1).None?
    requires !RefusedAt(server, isAppTool, k)
    ensures !Outcome(server, isAppTool, None)
  {
    NothingIsReadAfter(server, isAppTool, k + 1, CAP);
    forall m: nat | m < CAP ensures !RefusedAt(server, isAppTool, m) {
      if RefusedAt(server, isAppTool, m) { EndIsUnique(server, isAppTool, k, m); }
    }
  }

  // ----- the outcome of an honest server -----

  /** Reading has come to this place of the catalog. */
  ghost function At(catalog: seq<Item>, offset: nat): Progress
    requires offset <= |catalog|
  {
    Progress(offset, catalog[..offset])
  }

  /** The page goes on in the catalog from this place to another. */
  ghost predicate PageFrom(page: Response, catalog: seq<Item>, offset: nat, read: nat) {
    && page.Page? && offset <= read <= |catalog| && page.items == catalog[offset..read]
    && NextOffset(page, offset) == (if read == |catalog| then Last else Later(read))
    && page.remaining == |catalog| - read
  }

  lemma HonestPageFrom(page: Response, catalog: seq<Item>, offset: nat, limit: nat)
    requires offset <= |catalog| && HonestPage(page, catalog, offset, limit)
    ensures PageFrom(page, catalog, offset, offset + |page.items|)
  {}

  lemma SeenTo(catalog: seq<Item>, offset: nat, read: nat)
    requires offset <= read <= |catalog|
    ensures catalog[..offset] + catalog[offset..read] == catalog[..read]
  {}

  lemma AfterPageFrom(page: Response, catalog: seq<Item>, offset: nat, read: nat, isAppTool: Item -> bool)
    requires PageFrom(page, catalog, offset, read)
    ensures AfterPage(page, At(catalog, offset), isAppTool) ==
      if Done(catalog, read, isAppTool) then None else Some(At(catalog, read))
  {
    SeenTo(catalog, offset, read);
  }

  /** The page that an honest server gives at the place where its pages so far end. */
  lemma HonestNextPage(server: Server, isAppTool: Item -> bool, catalog: seq<Item>, k: nat)
    requires Honest(server, catalog)
    requires var offset := ReadAfter(server, catalog, k, isAppTool); |Kept(catalog[..offset], isAppTool)| < CAP
    ensures var offset := ReadAfter(server, catalog, k, isAppTool);
      var page := NextPageOf(server, isAppTool, k, At(catalog, offset));
      && HonestPage(page, catalog, offset, Limit(|Kept(catalog[..offset], isAppTool)|))
      && ReadAfter(server, catalog, k + 1, isAppTool) == offset + |page.items|
      && PageFrom(page, catalog, offset, ReadAfter(server, catalog, k + 1, isAppTool))
  {
    var offset := ReadAfter(server, catalog, k, isAppTool);
    var limit := Limit(|Kept(catalog[..offset], isAppTool)|);
    assert GivesHonestPage(server, catalog, k, offset, limit);
    HonestPageFrom(server(k, offset, limit), catalog, offset, limit);
  }

  /** Reading is where the pages so far end, unless they have ended it. */
  ghost predicate IsReadPageByPage(server: Server, isAppTool: Item -> bool, catalog: seq<Item>, k: nat)
    requires Honest(server, catalog)
  {
    var read := ReadAfter(server, catalog, k, isAppTool);
    PagesRead(server, isAppTool, k) == if k == 0 || !Done(catalog, read, isAppTool) then Some(At(catalog, read)) else None
  }

  lemma HonestPageIsRead(server: Server, isAppTool: Item -> bool, catalog: seq<Item>, k: nat)
    requires Honest(server, catalog) && IsReadPageByPage(server, isAppTool, catalog, k)
    ensures IsReadPageByPage(server, isAppTool, catalog, k + 1)
  {
    var offset := ReadAfter(server, catalog, k, isAppTool);
    if PagesRead(server, isAppTool, k).Some? {
      HonestNextPage(server, isAppTool, catalog, k);
      AfterPageFrom(NextPageOf(server, isAppTool, k, At(catalog, offset)), catalog, offset,
                    ReadAfter(server, catalog, k + 1, isAppTool), isAppTool);
    }
  }

  /** An honest server is read page by page until the catalog, or the room for tools, has run out. */
  lemma {:induction false} HonestPagesRead(server: Server, isAppTool: Item -> bool, catalog: seq<Item>, k: nat)
    requires Honest(server, catalog)
    ensures IsReadPageByPage(server, isAppTool, catalog, k)
  {
    if k > 0 {
      HonestPagesRead(server, isAppTool, catalog, k - 1);
      HonestPageIsRead(server, isAppTool, catalog, k - 1);
    }
  }

  lemma HonestIsNotRefused(server: Server, isAppTool: Item -> bool, catalog: seq<Item>, k: nat)
    requires Honest(server, catalog)
    ensures !RefusedAt(server, isAppTool, k)
  {
    HonestPagesRead(server, isAppTool, catalog, k);
    if PagesRead(server, isAppTool, k).Some? {
      HonestNextPage(server, isAppTool, catalog, k);
    }
  }

  lemma AllLookedAt(page: Response, catalog: seq<Item>, offset: nat, isAppTool: Item -> bool,
                    tools: seq<Item>, seen: seq<Item>, n: nat, newTools: seq<Item>)
    requires |tools| < CAP && page.Page? && HonestPage(page, catalog, offset, Limit(|tools|))
    requires LooksAt(seen, page.items, isAppTool, n) && newTools == Kept(seen + page.items[..n], isAppTool)
    requires |newTools| - |tools| <= n
    ensures n == |page.items| && page.items[..n] == page.items
  {}

  lemma LastPage(server: Server, isAppTool: Item -> bool, catalog: seq<Item>, pages: nat, read: nat, r: Catalog)
    requires Honest(server, catalog) && pages <= CAP && read == ReadAfter(server, catalog, pages, isAppTool)
    requires r.tools == Kept(catalog[..read], isAppTool) && (read == |catalog| || |r.tools| == CAP)
    requires r.total == |catalog| - (read - |r.tools|)
    ensures Fetched(server, isAppTool, catalog, Some(r))
  {
    DoneStaysDone(server, catalog, pages, CAP, isAppTool);
  }

  lemma EndOfPage(page: Response, catalog: seq<Item>, offset: nat, read: nat, isAppTool: Item -> bool, n: nat, tools: seq<Item>)
    requires PageFrom(page, catalog, offset, read) && |Kept(catalog[..offset], isAppTool)| < CAP
    requires HonestPage(page, catalog, offset, Limit(|Kept(catalog[..offset], isAppTool)|))
    requires LooksAt(catalog[..offset], page.items, isAppTool, n)
    requires tools == Kept(catalog[..offset] + page.items[..n], isAppTool)
    ensures offset + n == read && tools == Kept(catalog[..read], isAppTool)
  {
    SeenTo(catalog, offset, offset + n);
    assert page.items[..n] == catalog[offset..offset + n];
    KeptGrows(catalog, offset, offset + n, isAppTool);
    AllLookedAt(page, catalog, offset, isAppTool, Kept(catalog[..offset], isAppTool), catalog[..offset], n, tools);
  }

  lemma EndIsThere(server: Server, isAppTool: Item -> bool, k: nat, n: nat, r: Catalog, catalog: seq<Item>, offset: nat)
    requires offset <= |catalog| && PagesRead(server, isAppTool, k) == Some(At(catalog, offset))
    requires EndsAt(server, isAppTool, k, n, r)
    ensures var page := NextPageOf(server, isAppTool, k, At(catalog, offset));
      && page.Page? && LooksAt(catalog[..offset], page.items, isAppTool, n)
      && r.tools == Kept(catalog[..offset] + page.items[..n], isAppTool)
      && (NextOffset(page, offset).Last? || |r.tools| == CAP)
      && r.total == offset + |page.items| + page.remaining - (offset + n - |r.tools|)
  {}

  lemma TotalAtEnd(page: Response, catalog: seq<Item>, offset: nat, read: nat, n: nat, r: Catalog)
    requires PageFrom(page, catalog, offset, read) && offset + n == read
    requires NextOffset(page, offset).Last? || |r.tools| == CAP
    requires r.total == offset + |page.items| + page.remaining - (offset + n - |r.tools|)
    ensures r.total == |catalog| - (read - |r.tools|) && (read == |catalog| || |r.tools| == CAP)
  {}

  lemma HonestEndIsThere(server: Server, isAppTool: Item -> bool, catalog: seq<Item>, k: nat, n: nat, r: Catalog)
    requires Honest(server, catalog) && EndsAt(server, isAppTool, k, n, r)
    ensures var read := ReadAfter(server, catalog, k + 1, isAppTool);
      && r.tools == Kept(catalog[..read], isAppTool) && (read == |catalog| || |r.tools| == CAP)
      && r.total == |catalog| - (read - |r.tools|)
  {
    var offset, read := ReadAfter(server, catalog, k, isAppTool), ReadAfter(server, catalog, k + 1, isAppTool);
    HonestPagesRead(server, isAppTool, catalog, k);
    EndIsThere(server, isAppTool, k, n, r, catalog, offset);
    HonestNextPage(server, isAppTool, catalog, k);
    var page := NextPageOf(server, isAppTool, k, At(catalog, offset));
    EndOfPage(page, catalog, offset, read, isAppTool, n, r.tools);
    TotalAtEnd(page, catalog, offset, read, n, r);
  }

  lemma HonestEnd(server: Server, isAppTool: Item -> bool, catalog: seq<Item>, k: nat, n: nat, r: Catalog)
    requires Honest(server, catalog) && k < CAP && EndsAt(server, isAppTool, k, n, r)
    ensures Fetched(server, isAppTool, catalog, Some(r))
  {
    HonestEndIsThere(server, isAppTool, catalog, k, n, r);
    LastPage(server, isAppTool, catalog, k + 1, ReadAfter(server, catalog, k + 1, isAppTool), r);
  }

  /** The one outcome that the pages of an honest server leave is the right one. */
  lemma HonestOutcome(server: Server, isAppTool: Item -> bool, catalog: seq<Item>, r: Option<Catalog>)
    requires Honest(server, catalog) && Outcome(server, isAppTool, r)
    ensures Fetched(server, isAppTool, catalog, r)
  {
    match r
    case Some(read) =>
      var k: nat, n: nat :| k < CAP && EndsAt(server, isAppTool, k, n, read);
      HonestEnd(server, isAppTool, catalog, k, n, read);
    case None =>
      HonestPagesRead(server, isAppTool, catalog, CAP);
      if PagesRead(server, isAppTool, CAP).None? {
        var k: nat :| k < CAP && RefusedAt(server, isAppTool, k);
        HonestIsNotRefused(server, isAppTool, catalog, k);
      }
  }

  lemma OutcomeIsRight(server: Server, isAppTool: Item -> bool, r: Option<Catalog>)
    requires Outcome(server, isAppTool, r)
    ensures forall catalog :: Honest(server, catalog) ==> Fetched(server, isAppTool, catalog, r)
  {
    forall catalog | Honest(server, catalog) ensures Fetched(server, isAppTool, catalog, r) {
      HonestOutcome(server, isAppTool, catalog, r);
    }
  }

  // ----- the loop -----

  /** The inner loop: the items of one page that are kept, up to the cap, and how many are passed over. */
  method KeepItems(items: seq<Item>, isAppTool: Item -> bool, tools: seq<Item>, paths: set<string>, skipped: int,
                   ghost seen: seq<Item>)
    returns (newTools: seq<Item>, newPaths: set<string>, newSkipped: int, ghost n: nat)
    requires tools == Kept(seen, isAppTool) && |tools| <= CAP && paths == Paths(tools)
    ensures LooksAt(seen, items, isAppTool, n)
    ensures newTools == Kept(seen + items[..n], isAppTool) && |newTools| <= CAP && newPaths == Paths(newTools)
    ensures newSkipped == skipped + n - (|newTools| - |tools|) && |newTools| - |tools| <= n
  {
    newTools, newPaths, newSkipped := tools, paths, skipped;
    var i := 0;
    assert seen + items[..0] == seen;
    while i < |items| && |newTools| != CAP
      invariant 0 <= i <= |items|
      invariant newTools == Kept(seen + items[..i], isAppTool) && |newTools| <= CAP && newPaths == Paths(newTools)
      invariant newSkipped == skipped + i - (|newTools| - |tools|) && |newTools| - |tools| <= i
      invariant forall j :: 0 <= j < i ==> |Kept(seen + items[..j], isAppTool)| < CAP
    {
      var item := items[i];
      KeptNext(seen + items[..i], item, isAppTool);
      assert seen + items[..i + 1] == (seen + items[..i]) + [item];
      if item.path in newPaths || !isAppTool(item) {
        newSkipped := newSkipped + 1;
      } else {
        newPaths := newPaths + {item.path};
        PathsNext(newTools, item);
        newTools := newTools + [item];
      }
      i := i + 1;
    }
    n := i;
  }

  /** One page further, for any server: either it ends the reading, or reading goes on. */
  lemma PageTaken(server: Server, isAppTool: Item -> bool, k: nat, before: Progress, n: nat, tools: seq<Item>)
    requires PagesRead(server, isAppTool, k) == Some(before)
    requires var page := NextPageOf(server, isAppTool, k, before);
      && page.Page? && !NextOffset(page, before.offset).Malformed? && LooksAt(before.seen, page.items, isAppTool, n)
      && tools == Kept(before.seen + page.items[..n], isAppTool) && |tools| <= CAP
    ensures var page := NextPageOf(server, isAppTool, k, before);
      var next := NextOffset(page, before.offset);
      if next.Last? || |tools| == CAP
      then EndsAt(server, isAppTool, k, n,
             Catalog(tools, before.offset + |page.items| + page.remaining - (|before.seen| + n - |tools|)))
      else PagesRead(server, isAppTool, k + 1) == Some(Progress(next.offset, before.seen + page.items[..n]))
  {
    var page := NextPageOf(server, isAppTool, k, before);
    assert n == |page.items| ==> page.items[..n] == page.items;
  }

  /** The loop's state after some pages, none of them the last. */
  ghost predicate Reading(server: Server, isAppTool: Item -> bool, pages: nat, offset: nat, tools: seq<Item>,
                          skipped: int, seen: seq<Item>)
  {
    && PagesRead(server, isAppTool, pages) == Some(Progress(offset, seen))
    && tools == Kept(seen, isAppTool) && |tools| < CAP && skipped == |seen| - |tools|
  }

  lemma EndIsOutcome(server: Server, isAppTool: Item -> bool, k: nat, n: nat, r: Catalog)
    requires k < CAP && EndsAt(server, isAppTool, k, n, r)
    ensures Outcome(server, isAppTool, Some(r)) && DistinctPaths(r.tools)
  {
    var before := PagesRead(server, isAppTool, k).value;
    KeptPaths(before.seen + NextPageOf(server, isAppTool, k, before).items[..n], isAppTool);
  }

  /** One page further: either the loop's result is the outcome, or the loop goes on. */
  lemma PageKept(server: Server, isAppTool: Item -> bool, pages: nat, page: Response, offset: nat, tools: seq<Item>,
                 skipped: int, seen: seq<Item>, n: nat, newTools: seq<Item>, newSkipped: int)
    requires Reading(server, isAppTool, pages, offset, tools, skipped, seen) && pages < CAP
    requires page == server(pages, offset, Limit(|tools|)) && page.Page? && !NextOffset(page, offset).Malformed?
    requires LooksAt(seen, page.items, isAppTool, n) && newSkipped == skipped + n - (|newTools| - |tools|)
    requires newTools == Kept(seen + page.items[..n], isAppTool) && |newTools| <= CAP
    ensures var next := NextOffset(page, offset);
      if next.Last? || |newTools| == CAP
      then IsRight(server, isAppTool, Some(Catalog(newTools, offset + |page.items| + page.remaining - newSkipped)))
      else Reading(server, isAppTool, pages + 1, next.offset, newTools, newSkipped, seen + page.items[..n])
  {
    PageTaken(server, isAppTool, pages, Progress(offset, seen), n, newTools);
    if NextOffset(page, offset).Last? || |newTools| == CAP {
      EndIsOutcome(server, isAppTool, pages, n, Catalog(newTools, offset + |page.items| + page.remaining - newSkipped));
    }
  }

  ghost predicate IsRight(server: Server, isAppTool: Item -> bool, r: Option<Catalog>) {
    Outcome(server, isAppTool, r) && (r.Some? ==> |r.value.tools| <= CAP && DistinctPaths(r.value.tools))
  }

  lemma RefusalIsOutcome(server: Server, isAppTool: Item -> bool, k: nat)
    requires (k == CAP && PagesRead(server, isAppTool, k).Some?) || (k < CAP && RefusedAt(server, isAppTool, k))
    ensures Outcome(server, isAppTool, None)
  {}

  /**
   Pages any server. Whatever the server answers, the loop ends with the outcome its pages decide, with at most `CAP`
   tools of distinct paths. An honest server's catalog is returned exactly when its pages up to the end, or up to
   the cap, are at most `CAP`.
   */
  method FetchExecutorCatalog(server: Server, isAppTool: Item -> bool) returns (r: Option<Catalog>)
    ensures Outcome(server, isAppTool, r)
    ensures r.Some? ==> |r.value.tools| <= CAP && DistinctPaths(r.value.tools)
    ensures forall catalog :: Honest(server, catalog) ==> Fetched(server, isAppTool, catalog, r)
  {
    r := FetchPages(server, isAppTool);
    OutcomeIsRight(server, isAppTool, r);
  }

  /** The loop. */
  method FetchPages(server: Server, isAppTool: Item -> bool) returns (r: Option<Catalog>)
    ensures IsRight(server, isAppTool, r)
  {
    var tools, paths: set<string>, skipped := [], {}, 0;
    var offset, pages := 0, 0;
    ghost var seen := [];
    while true
      invariant 0 <= pages <= CAP && 0 <= offset && paths == Paths(tools)
      invariant Reading(server, isAppTool, pages, offset, tools, skipped, seen)
      decreases CAP - pages
    {
      if pages + 1 > CAP {
        RefusalIsOutcome(server, isAppTool, pages);
        return None;
      }
      var limit := Limit(|tools|);
      var page := server(pages, offset, limit);
      if page.Unusable? || NextOffset(page, offset).Malformed? {
        RefusalIsOutcome(server, isAppTool, pages);
        return None;
      }
      var next := NextOffset(page, offset);
      var newTools, newPaths, newSkipped;
      ghost var n;
      newTools, newPaths, newSkipped, n := KeepItems(page.items, isAppTool, tools, paths, skipped, seen);
      PageKept(server, isAppTool, pages, page, offset, tools, skipped, seen, n, newTools, newSkipped);
      tools, paths, skipped := newTools, newPaths, newSkipped;
      if next.Last? || |tools| == CAP {
        return Some(Catalog(tools, offset + |page.items| + page.remaining - skipped));
      }
      seen := seen + page.items[..n];
      offset, pages := next.offset, pages + 1;
    }
  }

  /** With an honest server, a catalog whose app tools fit below the cap has as many tools as its total says. */
  lemma TotalIsTheToolsKept(server: Server, catalog: seq<Item>, isAppTool: Item -> bool, r: Catalog)
    requires Honest(server, catalog) && Done(catalog, ReadAfter(server, catalog, CAP, isAppTool), isAppTool)
    requires r.tools == Kept(catalog[..ReadAfter(server, catalog, CAP, isAppTool)], isAppTool)
    requires r.total == |catalog| - (ReadAfter(server, catalog, CAP, isAppTool) - |r.tools|)
    requires |r.tools| <= CAP
    ensures r.tools <= Kept(catalog, isAppTool)
    ensures |r.tools| < CAP ==> r.tools == Kept(catalog, isAppTool) && r.total == |r.tools|
    ensures |r.tools| == CAP || |r.tools| == |Kept(catalog, isAppTool)|
    ensures r.total >= |Kept(catalog, isAppTool)|
  {
    var read := ReadAfter(server, catalog, CAP, isAppTool);
    KeptGrows(catalog, read, |catalog|, isAppTool);
    assert catalog[..|catalog|] == catalog;
  }
}
