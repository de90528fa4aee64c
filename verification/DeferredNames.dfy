/** The naming loop of `resolveDeferredToolSpecs` in deferred-tool-surface.ts, against names that no order decides. */
module DeferredNames {
  import opened Options

  const MAX_TOOL_NAME_LENGTH := 64
  const HASH_LENGTH := 8

  /** A tool, or a resource tool, of one server. It is also the key that names are owned by. */
  datatype Tool = Tool(server: string, name: string, resourceUri: Option<string>)

  /**
   What the naming is given: how a server's namespace and a hash of a text are written, the names already in use,
   and the tool that each name of the session belongs to.
   */
  datatype Session = Session(
    namespace: string -> string, hash: string -> string, reserved: set<string>, owners: map<string, Tool>)

  predicate IsNameChar(c: char) {
    'A' <= c <= 'Z' || 'a' <= c <= 'z' || '0' <= c <= '9' || c == '_'
  }

  ghost predicate IsNameText(text: string) {
    forall k :: 0 <= k < |text| ==> IsNameChar(text[k])
  }

  /** The first eight digits of a SHA-256 in hexadecimal. */
  ghost predicate HashesAreDigits(s: Session) {
    forall text :: |s.hash(text)| == HASH_LENGTH && IsNameText(s.hash(text))
  }

  function Cleaned(text: string): (cleaned: string)
    ensures |cleaned| == |text| && IsNameText(cleaned)
  {
    seq(|text|, i requires 0 <= i < |text| => if IsNameChar(text[i]) then text[i] else '_')
  }

  function PlainName(s: Session, t: Tool): (name: string)
    ensures IsNameText(name)
  {
    Cleaned("mcp__" + s.namespace(t.server) + "__" + t.name)
  }

  function HashInput(t: Tool): string {
    t.server + "\0" + t.name + if t.resourceUri.Some? then "\0" + t.resourceUri.value else ""
  }

  function HashedName(s: Session, t: Tool): string {
    var plain, hash := PlainName(s, t), s.hash(HashInput(t));
    var keep := MAX_TOOL_NAME_LENGTH - |hash| - 1;
    (if 0 <= keep <= |plain| then plain[..keep] else plain) + "_" + hash
  }

  /** Every character of a plain name is that of `mcp__namespace__tool`, or an underscore where that is none of these. */
  lemma PlainNameIsCleaned(s: Session, t: Tool)
    ensures var text, plain := "mcp__" + s.namespace(t.server) + "__" + t.name, PlainName(s, t);
      && |plain| == |text|
      && forall k :: 0 <= k < |text| ==>
           var c := text[k];
           plain[k] == if 'A' <= c <= 'Z' || 'a' <= c <= 'z' || '0' <= c <= '9' then c else '_'
  {}

  /** A hashed name has as much of the plain name as fits beside the hash. */
  lemma HashedNameIsCut(s: Session, t: Tool)
    requires HashesAreDigits(s)
    ensures var plain := PlainName(s, t);
      HashedName(s, t) == (if |plain| <= 55 then plain else plain[..55]) + "_" + s.hash(HashInput(t))
  {
    assert |s.hash(HashInput(t))| == HASH_LENGTH;
  }

  ghost predicate HasNoNul(text: string) { forall k :: 0 <= k < |text| ==> text[k] != '\0' }

  lemma SameBeforeNul(a: string, b: string, afterA: string, afterB: string)
    requires HasNoNul(a) && HasNoNul(b) && a + "\0" + afterA == b + "\0" + afterB
    ensures a == b && afterA == afterB
  {
    var x, y := a + "\0" + afterA, b + "\0" + afterB;
    assert x[|a|] == '\0' && y[|b|] == '\0';
    assert forall k :: 0 <= k < |a| ==> x[k] == a[k];
    assert forall k :: 0 <= k < |b| ==> y[k] == b[k];
    assert |a| == |b|;
    assert a == x[..|a|] && b == y[..|b|] && afterA == x[|a| + 1..] && afterB == y[|b| + 1..];
  }

  lemma NulIsInside(name: string, uri: string, other: string)
    requires HasNoNul(other) && uri != "" && uri[0] == '\0'
    ensures name + uri != other
  {
    assert (name + uri)[|name|] == '\0';
  }

  /** Tools that are not the same are hashed from different texts, and so is each resource of one tool name. */
  lemma HashInputTellsApart(a: Tool, b: Tool)
    requires HasNoNul(a.server) && HasNoNul(a.name) && HasNoNul(b.server) && HasNoNul(b.name)
    ensures HashInput(a) == HashInput(b) <==> a == b
  {
    if HashInput(a) == HashInput(b) {
      var uriA := if a.resourceUri.Some? then "\0" + a.resourceUri.value else "";
      var uriB := if b.resourceUri.Some? then "\0" + b.resourceUri.value else "";
      assert HashInput(a) == a.server + "\0" + (a.name + uriA) && HashInput(b) == b.server + "\0" + (b.name + uriB);
      SameBeforeNul(a.server, b.server, a.name + uriA, b.name + uriB);
      if a.resourceUri.Some? && b.resourceUri.Some? {
        assert a.name + uriA == a.name + "\0" + a.resourceUri.value && b.name + uriB == b.name + "\0" + b.resourceUri.value;
        SameBeforeNul(a.name, b.name, a.resourceUri.value, b.resourceUri.value);
      } else {
        assert a.resourceUri.None? ==> a.name + uriA == a.name;
        assert b.resourceUri.None? ==> b.name + uriB == b.name;
        if a.resourceUri.Some? { NulIsInside(a.name, uriA, b.name); }
        if b.resourceUri.Some? { NulIsInside(b.name, uriB, a.name); }
      }
    }
  }

  predicate FitsLength(name: string) { |name| <= MAX_TOOL_NAME_LENGTH }

  /** Whether a tool may not have a name because of the session: it is in use, or another tool's. */
  predicate Unavailable(s: Session, t: Tool, name: string) {
    name in s.reserved || (name in s.owners && s.owners[name] != t)
  }

  function PlainNames(s: Session, tools: seq<Tool>): (names: seq<string>)
    ensures |names| == |tools| && forall i :: 0 <= i < |tools| ==> names[i] == PlainName(s, tools[i])
  {
    seq(|tools|, i requires 0 <= i < |tools| => PlainName(s, tools[i]))
  }

  /** How many tools of the list have this plain name. */
  ghost function Sharing(s: Session, tools: seq<Tool>, plain: string): nat {
    multiset(PlainNames(s, tools))[plain]
  }

  /** The name that a tool should get, whatever its place in the list. */
  ghost function Wanted(s: Session, tools: seq<Tool>, t: Tool): string {
    var plain := PlainName(s, t);
    if FitsLength(plain) && !Unavailable(s, t, plain) && Sharing(s, tools, plain) <= 1 then plain else HashedName(s, t)
  }

  /** No wanted name is in use, another tool's, or the wanted name of another tool of the list. */
  ghost predicate NoCollision(s: Session, tools: seq<Tool>) {
    && (forall i :: 0 <= i < |tools| ==> !Unavailable(s, tools[i], Wanted(s, tools, tools[i])))
    && (forall i, j :: 0 <= i < j < |tools| ==> Wanted(s, tools, tools[i]) != Wanted(s, tools, tools[j]))
  }

  // ----- the names of any list, tool by tool -----

  /** No part of the session and no tool before has the name. */
  ghost predicate IsFree(s: Session, t: Tool, name: string, given: seq<Option<string>>) {
    name !in s.reserved && (name in s.owners ==> s.owners[name] == t) && Some(name) !in given
  }

  ghost predicate SharesPlainName(s: Session, tools: seq<Tool>, k: nat)
    requires k < |tools|
  {
    exists i :: 0 <= i < |tools| && i != k && PlainName(s, tools[i]) == PlainName(s, tools[k])
  }

  /** The name of tool `k`, or none, when the tools before it have been given these. */
  ghost function NameGiven(s: Session, tools: seq<Tool>, k: nat, given: seq<Option<string>>): Option<string>
    requires k < |tools|
  {
    var plain, hashed := PlainName(s, tools[k]), HashedName(s, tools[k]);
    if |plain| <= 64 && IsFree(s, tools[k], plain, given) && !SharesPlainName(s, tools, k) then Some(plain)
    else if IsFree(s, tools[k], hashed, given) then Some(hashed)
    else None
  }

  ghost predicate AreGiven(s: Session, tools: seq<Tool>, given: seq<Option<string>>) {
    |given| <= |tools| && forall k :: 0 <= k < |given| ==> given[k] == NameGiven(s, tools, k, given[..k])
  }

  /** The tools that are given a name, under it. */
  ghost function Emitted(tools: seq<Tool>, given: seq<Option<string>>): seq<Named>
    requires |given| <= |tools|
  {
    if given == [] then []
    else
      var last := |given| - 1;
      Emitted(tools, given[..last]) + if given[last].Some? then [Named(tools[last], given[last].value)] else []
  }

  lemma SharingIff(s: Session, tools: seq<Tool>, k: nat)
    requires k < |tools|
    ensures Sharing(s, tools, PlainName(s, tools[k])) > 1 <==> SharesPlainName(s, tools, k)
  {
    var names := PlainNames(s, tools);
    if i :| 0 <= i < |tools| && i != k && PlainName(s, tools[i]) == PlainName(s, tools[k]) {
      Twice(names, if i < k then i else k, if i < k then k else i);
    } else {
      forall m, n | 0 <= m < n < |names| ensures !(names[m] == names[n] == names[k]) {}
      AtMostOnce(names, names[k]);
    }
  }

  lemma Twice<T>(a: seq<T>, i: nat, j: nat)
    requires i < j < |a| && a[i] == a[j]
    ensures multiset(a)[a[i]] >= 2
  {
    assert a == a[..j] + [a[j]] + a[j + 1..];
    assert a[i] in a[..j];
  }

  // ----- the loop -----

  datatype Named = Named(tool: Tool, name: string)

  function FormatDeferredToolName(s: Session, t: Tool, isTaken: bool): string {
    var name := PlainName(s, t);
    if |name| <= MAX_TOOL_NAME_LENGTH && !isTaken then name else HashedName(s, t)
  }

  method CountNames(names: seq<string>) returns (counts: map<string, nat>)
    ensures forall name :: (if name in counts then counts[name] else 0) == multiset(names)[name]
  {
    counts := map[];
    for k := 0 to |names|
      invariant forall name :: (if name in counts then counts[name] else 0) == multiset(names[..k])[name]
    {
      assert names[..k + 1] == names[..k] + [names[k]];
      counts := counts[names[k] := (if names[k] in counts then counts[names[k]] else 0) + 1];
    }
    assert names[..|names|] == names;
  }

  /** What is promised of an emitted name for any list and any hash. */
  ghost predicate SafeName(s: Session, spec: Named) {
    && spec.name !in s.reserved && (spec.name in s.owners ==> s.owners[spec.name] == spec.tool)
    && (spec.name == PlainName(s, spec.tool) || spec.name == HashedName(s, spec.tool))
    && |spec.name| <= 64 && IsNameText(spec.name)
  }

  ghost predicate SafeNames(s: Session, specs: seq<Named>) {
    && (forall k :: 0 <= k < |specs| ==> SafeName(s, specs[k]))
    && (forall j, k :: 0 <= j < k < |specs| ==> specs[j].name != specs[k].name)
  }

  /** Every tool of the list is emitted, in order, under its wanted name. */
  ghost predicate AllAsWanted(s: Session, tools: seq<Tool>, specs: seq<Named>) {
    |specs| == |tools| && forall k :: 0 <= k < |tools| ==> specs[k] == Named(tools[k], Wanted(s, tools, tools[k]))
  }

  lemma HashedNameIsSafe(s: Session, t: Tool)
    requires HashesAreDigits(s)
    ensures FitsLength(HashedName(s, t)) && IsNameText(HashedName(s, t))
  {
    var hash := s.hash(HashInput(t));
    assert |hash| == HASH_LENGTH && IsNameText(hash);
  }

  /** One turn of the loop: the name of one tool, or none when its name is taken. */
  method NameTool(s: Session, t: Tool, shared: bool, taken: set<string>) returns (spec: Option<Named>)
    requires HashesAreDigits(s) && s.reserved <= taken
    ensures spec.Some? ==> SafeName(s, spec.value) && spec.value.tool == t && spec.value.name !in taken
    ensures var plain, hashed := PlainName(s, t), HashedName(s, t);
      spec ==
        if |plain| <= 64 && !shared && plain !in taken && (plain in s.owners ==> s.owners[plain] == t) then Some(Named(t, plain))
        else if hashed !in taken && (hashed in s.owners ==> s.owners[hashed] == t) then Some(Named(t, hashed))
        else None
  {
    var plain := PlainName(s, t);
    var isTaken := plain in taken || (plain in s.owners && s.owners[plain] != t) || shared;
    var name := FormatDeferredToolName(s, t, isTaken);
    HashedNameIsSafe(s, t);
    if name in taken || (name in s.owners && s.owners[name] != t) { return None; }
    return Some(Named(t, name));
  }

  /** The names in use after some specs. */
  ghost predicate IsTaken(s: Session, specs: seq<Named>, taken: set<string>) {
    taken == s.reserved + set k | 0 <= k < |specs| :: specs[k].name
  }

  /** The first specs are those of the first tools, as wanted. */
  ghost predicate AsWantedSoFar(s: Session, tools: seq<Tool>, specs: seq<Named>, k: nat) {
    |specs| == k <= |tools| && forall m :: 0 <= m < k ==> specs[m] == Named(tools[m], Wanted(s, tools, tools[m]))
  }

  /** What the loop knows after `k` tools; `free` says that no wanted names collide. */
  ghost predicate NamedSoFar(s: Session, tools: seq<Tool>, specs: seq<Named>, k: nat, taken: set<string>, free: bool) {
    && SafeNames(s, specs) && IsTaken(s, specs, taken)
    && (free ==> AsWantedSoFar(s, tools, specs, k))
  }

  /** The names so far are given as they should be. */
  ghost predicate GivenSoFar(s: Session, tools: seq<Tool>, specs: seq<Named>, taken: set<string>, given: seq<Option<string>>) {
    && AreGiven(s, tools, given) && specs == Emitted(tools, given)
    && forall name :: name in taken <==> name in s.reserved || Some(name) in given
  }

  ghost function NameOf(spec: Option<Named>): Option<string> {
    if spec.Some? then Some(spec.value.name) else None
  }

  lemma GivenNext(s: Session, tools: seq<Tool>, specs: seq<Named>, taken: set<string>, given: seq<Option<string>>, spec: Option<Named>)
    requires |given| < |tools| && GivenSoFar(s, tools, specs, taken, given)
    requires NameOf(spec) == NameGiven(s, tools, |given|, given) && (spec.Some? ==> spec.value.tool == tools[|given|])
    ensures if spec.None? then GivenSoFar(s, tools, specs, taken, given + [NameOf(spec)])
            else GivenSoFar(s, tools, specs + [spec.value], taken + {spec.value.name}, given + [NameOf(spec)])
  {
    var more := given + [NameOf(spec)];
    assert more[..|given|] == given && more[|given|] == NameOf(spec);
    assert forall k :: 0 <= k < |given| ==> more[k] == given[k] && more[..k] == given[..k];
  }

  lemma WantedIsFree(s: Session, tools: seq<Tool>, specs: seq<Named>, k: nat, taken: set<string>)
    requires k < |tools| && NoCollision(s, tools) && AsWantedSoFar(s, tools, specs, k) && IsTaken(s, specs, taken)
    ensures Wanted(s, tools, tools[k]) !in taken && !Unavailable(s, tools[k], Wanted(s, tools, tools[k]))
  {}

  lemma TakenNext(s: Session, specs: seq<Named>, taken: set<string>, spec: Named)
    requires IsTaken(s, specs, taken)
    ensures IsTaken(s, specs + [spec], taken + {spec.name})
  {
    var more := specs + [spec];
    assert more[|specs|] == spec;
    assert forall k :: 0 <= k < |specs| ==> more[k] == specs[k];
  }

  lemma SafeNext(s: Session, specs: seq<Named>, taken: set<string>, spec: Named)
    requires SafeNames(s, specs) && IsTaken(s, specs, taken) && SafeName(s, spec) && spec.name !in taken
    ensures SafeNames(s, specs + [spec])
  {}

  lemma NamedNext(s: Session, tools: seq<Tool>, specs: seq<Named>, k: nat, taken: set<string>, free: bool, spec: Option<Named>)
    requires k < |tools| && NamedSoFar(s, tools, specs, k, taken, free)
    requires spec.Some? ==> SafeName(s, spec.value) && spec.value.name !in taken
    requires free ==> spec == Some(Named(tools[k], Wanted(s, tools, tools[k])))
    ensures if spec.None? then NamedSoFar(s, tools, specs, k + 1, taken, free)
            else NamedSoFar(s, tools, specs + [spec.value], k + 1, taken + {spec.value.name}, free)
  {
    if spec.Some? {
      TakenNext(s, specs, taken, spec.value);
      SafeNext(s, specs, taken, spec.value);
    }
  }

  method NameNext(s: Session, tools: seq<Tool>, counts: map<string, nat>, k: nat, used: set<string>,
                  ghost specs: seq<Named>, ghost given: seq<Option<string>>, ghost free: bool)
    returns (spec: Option<Named>)
    requires HashesAreDigits(s) && s.reserved <= used && k < |tools| && |given| == k && (free ==> NoCollision(s, tools))
    requires forall name :: (if name in counts then counts[name] else 0) == Sharing(s, tools, name)
    requires NamedSoFar(s, tools, specs, k, used, free) && GivenSoFar(s, tools, specs, used, given)
    ensures spec.Some? ==> SafeName(s, spec.value) && spec.value.tool == tools[k] && spec.value.name !in used
    ensures NameOf(spec) == NameGiven(s, tools, k, given)
    ensures free ==> spec == Some(Named(tools[k], Wanted(s, tools, tools[k])))
  {
    var plain := PlainName(s, tools[k]);
    SharingIff(s, tools, k);
    spec := NameTool(s, tools[k], plain in counts && counts[plain] > 1, used);
    if free { WantedIsFree(s, tools, specs, k, used); }
  }

  method NameTools(s: Session, tools: seq<Tool>, counts: map<string, nat>, ghost free: bool)
    returns (specs: seq<Named>)
    requires HashesAreDigits(s) && (free ==> NoCollision(s, tools))
    requires forall name :: (if name in counts then counts[name] else 0) == Sharing(s, tools, name)
    ensures SafeNames(s, specs) && (free ==> AllAsWanted(s, tools, specs))
    ensures exists given :: |given| == |tools| && AreGiven(s, tools, given) && specs == Emitted(tools, given)
  {
    var used := s.reserved;
    specs := [];
    ghost var given: seq<Option<string>> := [];
    for k := 0 to |tools|
      invariant s.reserved <= used && NamedSoFar(s, tools, specs, k, used, free)
      invariant |given| == k && GivenSoFar(s, tools, specs, used, given)
    {
      var spec := NameNext(s, tools, counts, k, used, specs, given, free);
      NamedNext(s, tools, specs, k, used, free, spec);
      GivenNext(s, tools, specs, used, given, spec);
      given := given + [NameOf(spec)];
      if spec.Some? {
        used := used + {spec.value.name};
        specs := specs + [spec.value];
      }
    }
  }

  /**
   The naming loop. Its names are always safe: each tool has its plain name if that is short enough, free and no other
   tool's, else its hashed name if that is free, and else none. They are the wanted ones of the whole list if and only if
   the wanted names do not collide.
   */
  method ResolveNames(s: Session, tools: seq<Tool>) returns (specs: seq<Named>)
    requires HashesAreDigits(s)
    ensures SafeNames(s, specs)
    ensures exists given :: |given| == |tools| && AreGiven(s, tools, given) && specs == Emitted(tools, given)
    ensures AllAsWanted(s, tools, specs) <==> NoCollision(s, tools)
  {
    var counts := CountNames(PlainNames(s, tools));
    specs := NameTools(s, tools, counts, NoCollision(s, tools));
    AsWantedHasNoCollision(s, tools, specs);
  }

  lemma AsWantedHasNoCollision(s: Session, tools: seq<Tool>, specs: seq<Named>)
    requires SafeNames(s, specs)
    ensures AllAsWanted(s, tools, specs) ==> NoCollision(s, tools)
  {
    if AllAsWanted(s, tools, specs) {
      forall i | 0 <= i < |tools| ensures !Unavailable(s, tools[i], Wanted(s, tools, tools[i])) {
        assert SafeName(s, specs[i]);
      }
      forall i, j | 0 <= i < j < |tools| ensures Wanted(s, tools, tools[i]) != Wanted(s, tools, tools[j]) {
        assert specs[i].name != specs[j].name;
      }
    }
  }

  // ----- the order of the list -----

  function Without<T>(a: seq<T>, i: nat): seq<T>
    requires i < |a|
  {
    a[..i] + a[i + 1..]
  }

  lemma WithoutOne<T>(a: seq<T>, i: nat)
    requires i < |a|
    ensures multiset(Without(a, i)) == multiset(a) - multiset{a[i]}
  {
    assert a == a[..i] + [a[i]] + a[i + 1..];
  }

  lemma PlainNamesWithout(s: Session, a: seq<Tool>, i: nat)
    requires i < |a|
    ensures PlainNames(s, Without(a, i)) == Without(PlainNames(s, a), i)
  {}

  lemma {:induction false} SharingOfPermutation(s: Session, a: seq<Tool>, b: seq<Tool>)
    requires multiset(a) == multiset(b)
    ensures multiset(PlainNames(s, a)) == multiset(PlainNames(s, b))
    decreases |a|
  {
    assert |a| == |multiset(a)| == |multiset(b)| == |b|;
    if a != [] {
      assert a[0] in multiset(b);
      var i :| 0 <= i < |b| && b[i] == a[0];
      WithoutOne(a, 0);
      WithoutOne(b, i);
      SharingOfPermutation(s, Without(a, 0), Without(b, i));
      PlainNamesWithout(s, a, 0);
      PlainNamesWithout(s, b, i);
      WithoutOne(PlainNames(s, a), 0);
      WithoutOne(PlainNames(s, b), i);
      RemovedTheSame(multiset(PlainNames(s, a)), multiset(PlainNames(s, b)), PlainName(s, a[0]));
    }
  }

  lemma RemovedTheSame<T>(a: multiset<T>, b: multiset<T>, x: T)
    requires x in a && x in b && a - multiset{x} == b - multiset{x}
    ensures a == b
  {
    assert a == a - multiset{x} + multiset{x} && b == b - multiset{x} + multiset{x};
  }

  lemma OnceInPermutation<T>(a: seq<T>, b: seq<T>, i: nat, j: nat)
    requires multiset(a) == multiset(b) && i < j < |b| && b[i] == b[j]
    ensures exists m, n :: 0 <= m < n < |a| && a[m] == a[n] == b[i]
  {
    var x := b[i];
    assert b == b[..j] + [b[j]] + b[j + 1..];
    assert x in b[..j];
    assert multiset(b)[x] >= 2;
    if forall m, n :: 0 <= m < n < |a| ==> !(a[m] == a[n] == x) {
      AtMostOnce(a, x);
    }
  }

  lemma {:induction false} AtMostOnce<T>(a: seq<T>, x: T)
    requires forall m, n :: 0 <= m < n < |a| ==> !(a[m] == a[n] == x)
    ensures multiset(a)[x] <= 1
  {
    if a != [] {
      var last := |a| - 1;
      assert a == a[..last] + [a[last]];
      if a[last] == x {
        assert x !in a[..last];
      } else {
        AtMostOnce(a[..last], x);
      }
    }
  }

  lemma DistinctInAnyOrder<T>(a: seq<T>, b: seq<T>, name: T -> string)
    requires multiset(a) == multiset(b)
    requires forall i, j :: 0 <= i < j < |a| ==> name(a[i]) != name(a[j])
    ensures forall i, j :: 0 <= i < j < |b| ==> name(b[i]) != name(b[j])
  {
    forall i, j | 0 <= i < j < |b| ensures name(b[i]) != name(b[j]) {
      if b[i] == b[j] {
        OnceInPermutation(a, b, i, j);
      } else {
        assert b[i] in multiset(a) && b[j] in multiset(a);
        var m :| 0 <= m < |a| && a[m] == b[i];
        var n :| 0 <= n < |a| && a[n] == b[j];
        assert m < n || n < m;
      }
    }
  }

  lemma WantedInAnyOrder(s: Session, a: seq<Tool>, b: seq<Tool>, t: Tool)
    requires multiset(a) == multiset(b)
    ensures Wanted(s, a, t) == Wanted(s, b, t)
  {
    SharingOfPermutation(s, a, b);
  }

  /** Without collisions, no order of the list changes which name a tool gets. */
  lemma OrderDoesNotMatter(s: Session, a: seq<Tool>, b: seq<Tool>)
    requires multiset(a) == multiset(b) && NoCollision(s, a)
    ensures NoCollision(s, b)
    ensures forall t :: Wanted(s, a, t) == Wanted(s, b, t)
  {
    forall t ensures Wanted(s, a, t) == Wanted(s, b, t) {
      WantedInAnyOrder(s, a, b, t);
    }
    DistinctInAnyOrder(a, b, t => Wanted(s, a, t));
    forall i | 0 <= i < |b| ensures !Unavailable(s, b[i], Wanted(s, b, b[i])) {
      assert b[i] in multiset(a);
      var k :| 0 <= k < |a| && a[k] == b[i];
      assert !Unavailable(s, a[k], Wanted(s, a, a[k]));
    }
  }
}
