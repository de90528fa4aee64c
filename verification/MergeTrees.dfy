/**
 What survives any nesting of server-entry merges. The loader folds its files, merges each file over its own
 imports first, and merges the result over plugin and package entries: a tree of merges, because merging is not
 associative.
 */
module MergeTrees {
  import opened Options
  import opened ServerEntries

  // ----- one merge, field by field, written out without the predicates it is computed with -----

  /** A credential for one url: a field that only ever holds one, a provider's token, or an OAuth setup. */
  predicate IsForOneUrl(f: Field, v: Value) {
    || f in {Headers, BearerToken, BearerTokenEnv, BearerTokenStore, RequestHeadersCommand, CaFile}
    || (f == Auth && v.Struct?)
    || (f == OAuth && v != Flag(false))
  }

  predicate SetsText(e: Entry, f: Field) { f in e.fields && e.fields[f].Text? }

  /** The definition repoints the server: its url is text, and not the one of the existing entry. */
  predicate Repoints(existing: Entry, definition: Entry) {
    SetsText(definition, Url) && !(Url in existing.fields && existing.fields[Url] == definition.fields[Url])
  }

  /**
   A definition with another url inherits no credential. What it does inherit as `auth` is no object, and an inherited
   `oauth` says that there is none.
   */
  lemma RepointingInheritsNoCredential(existing: Entry, definition: Entry, merged: Entry)
    requires IsMerge(existing, definition, merged) && Repoints(existing, definition)
    ensures forall f :: f in {Headers, BearerToken, BearerTokenEnv, BearerTokenStore, RequestHeadersCommand, CaFile} ==>
      (f in merged.fields <==> f in definition.fields)
    ensures Auth in merged.fields && Auth !in definition.fields ==> !merged.fields[Auth].Struct?
    ensures OAuth in merged.fields && OAuth !in definition.fields ==> merged.fields[OAuth] == Flag(false)
  {
    forall f | f in {Headers, BearerToken, BearerTokenEnv, BearerTokenStore, RequestHeadersCommand, CaFile}
      ensures f in merged.fields <==> f in definition.fields
    {
      assert MergesField(existing, definition, merged, f);
    }
    assert MergesField(existing, definition, merged, Auth) && MergesField(existing, definition, merged, OAuth);
  }

  /** The fields that a definition makes the server forget with its transport, its url or a plugin's env. */
  predicate Forgets(existing: Entry, definition: Entry, f: Field)
    requires f in existing.fields
  {
    || (SetsText(definition, Command) &&
        f in {Url, Headers, RequestHeadersCommand, CaFile, Auth, BearerToken, BearerTokenEnv, BearerTokenStore, OAuth,
              HttpTransport, Socket})
    || (!SetsText(definition, Command) && SetsText(definition, Url) &&
        f in {Command, Args, Env, Cwd, PluginDataDir, LiteralEnv, InheritEnv, Socket})
    || (!SetsText(definition, Command) && !SetsText(definition, Url) && SetsText(definition, Socket) &&
        f in {Command, Args, Env, Cwd, PluginDataDir, LiteralEnv, InheritEnv, Url, Headers, RequestHeadersCommand, CaFile,
              Auth, BearerToken, BearerTokenEnv, BearerTokenStore, OAuth, HttpTransport})
    || (Repoints(existing, definition) && IsForOneUrl(f, existing.fields[f]))
    || (f == LiteralEnv && Env in definition.fields && Env in existing.literal)
  }

  /**
   What a definition sets is in the merged entry as it sets it. What it does not set is inherited, unless it is
   forgotten, and nothing else is there. A plugin's mark goes with the value.
   */
  lemma MergeKeepsTheRest(existing: Entry, definition: Entry, merged: Entry, f: Field)
    requires IsMerge(existing, definition, merged)
    ensures f in definition.fields ==> SameField(merged, definition, f)
    ensures f !in definition.fields && f in existing.fields && !Forgets(existing, definition, f) ==>
      SameField(merged, existing, f)
    ensures f !in definition.fields && (f !in existing.fields || Forgets(existing, definition, f)) ==> f !in merged.fields
  {
    assert MergesField(existing, definition, merged, f);
  }

  /** The same value for a field, and the same plugin mark on it. */
  ghost predicate SameField(a: Entry, b: Entry, f: Field) {
    && f in a.fields && f in b.fields && a.fields[f] == b.fields[f]
    && (f in {Args, Env, Cwd, Headers} ==> (f in a.literal <==> f in b.literal))
  }

  // ----- trees of merges -----

  /** One server's entries as some source gives them, and which is merged over which, with each merge's result. */
  datatype Layers = Given(result: Entry) | Over(base: Layers, next: Layers, result: Entry) {

    ghost predicate Valid() {
      Over? ==> base.Valid() && next.Valid() && IsMerge(base.result, next.result, result)
    }

    /** How many entries were given. */
    function Count(): nat {
      if Given? then 1 else base.Count() + next.Count()
    }

    /** Given entry number `i`, from the lowest precedence up. */
    function Entry(i: nat): Entry
      requires i < Count()
    {
      if Given? then result
      else if i < base.Count() then base.Entry(i)
      else next.Entry(i - base.Count())
    }
  }

  /** Whether given entry number `i` is the one whose value of the field is in the result. */
  ghost predicate Supplies(layers: Layers, i: nat, f: Field) {
    match layers
    case Given(entry) => i == 0 && f in entry.fields
    case Over(base, next, _) =>
      if i < base.Count() then Supplies(base, i, f) && f !in next.result.fields && !Cuts(base.result, next.result, f)
      else Supplies(next, i - base.Count(), f)
  }

  ghost predicate IsSupplied(layers: Layers, f: Field) {
    exists i: nat :: Supplies(layers, i, f)
  }

  lemma {:induction false} SupplierExists(layers: Layers, f: Field) returns (i: nat)
    requires layers.Valid() && f in layers.result.fields
    ensures Supplies(layers, i, f)
    decreases layers
  {
    match layers
    case Given(_) => i := 0;
    case Over(base, next, result) =>
      assert MergesField(base.result, next.result, result, f);
      if f in next.result.fields {
        i := SupplierExists(next, f);
        i := base.Count() + i;
      } else {
        i := SupplierExists(base, f);
        SupplierGivesValue(base, i, f);
      }
  }

  lemma {:induction false} SupplierGivesValue(layers: Layers, i: nat, f: Field)
    requires layers.Valid() && Supplies(layers, i, f)
    ensures f in layers.result.fields && i < layers.Count()
    ensures SameField(layers.result, layers.Entry(i), f)
    decreases layers
  {
    match layers
    case Given(_) =>
    case Over(base, next, result) =>
      assert MergesField(base.result, next.result, result, f);
      if i < base.Count() {
        SupplierGivesValue(base, i, f);
      } else {
        SupplierGivesValue(next, i - base.Count(), f);
      }
  }

  lemma {:induction false} SupplierIsUnique(layers: Layers, i: nat, k: nat, f: Field)
    requires layers.Valid() && Supplies(layers, i, f) && Supplies(layers, k, f)
    ensures i == k
    decreases layers
  {
    match layers
    case Given(_) =>
    case Over(base, next, _) =>
      var n := base.Count();
      if i < n && k < n {
        SupplierIsUnique(base, i, k, f);
      } else if i >= n && k >= n {
        SupplierIsUnique(next, i - n, k - n, f);
      } else {
        SupplierGivesValue(next, if i < n then k - n else i - n, f);
      }
  }

  /**
   A field is in the result if and only if exactly one given entry supplies it, with that entry's value, and it is
   marked as a plugin's if and only if that entry marked it.
   */
  lemma EveryFieldHasOneSupplier(layers: Layers, f: Field)
    requires layers.Valid()
    ensures f in layers.result.fields <==> IsSupplied(layers, f)
    ensures forall i: nat, k: nat :: Supplies(layers, i, f) && Supplies(layers, k, f) ==> i == k
    ensures forall i: nat :: Supplies(layers, i, f) ==> i < layers.Count() && SameField(layers.result, layers.Entry(i), f)
  {
    if f in layers.result.fields {
      var i := SupplierExists(layers, f);
    }
    if IsSupplied(layers, f) {
      var i: nat :| Supplies(layers, i, f);
      SupplierGivesValue(layers, i, f);
    }
    forall i: nat | Supplies(layers, i, f)
      ensures i < layers.Count() && SameField(layers.result, layers.Entry(i), f)
    {
      SupplierGivesValue(layers, i, f);
    }
    forall i: nat, k: nat | Supplies(layers, i, f) && Supplies(layers, k, f) ensures i == k {
      SupplierIsUnique(layers, i, k, f);
    }
  }

  // ----- credentials stay with their url -----

  /** The entry names a url as text, or none at all. */
  predicate HasUsableUrl(e: Entry) { Url in e.fields ==> e.fields[Url].Text? }

  /**
   On the way from given entry `i` to the result, every merge the entry took part in had the result's url: an
   entry merged over had exactly it, and an entry merged in had it or left it to what it was merged over.
   */
  ghost predicate KeptItsUrl(layers: Layers, i: nat) {
    match layers
    case Given(_) => true
    case Over(base, next, result) =>
      if i < base.Count() then Get(base.result, Url) == Get(result, Url) && KeptItsUrl(base, i)
      else (Url in next.result.fields ==> Get(next.result, Url) == Get(result, Url)) && KeptItsUrl(next, i - base.Count())
  }

  lemma InheritedCredential(existing: Entry, definition: Entry, merged: Entry, f: Field)
    requires IsMerge(existing, definition, merged)
    requires f in existing.fields && IsForOneUrl(f, existing.fields[f])
    requires f !in definition.fields && !Cuts(existing, definition, f)
    requires HasUsableUrl(merged)
    ensures Get(existing, Url) == Get(merged, Url) && Get(existing, f) == Get(merged, f)
  {
    assert MergesField(existing, definition, merged, Url) && MergesField(existing, definition, merged, f);
  }

  /** A url-bound credential of a merged entry has met no url but the one it is now used with. */
  lemma {:induction false} CredentialsStayWithTheirUrl(layers: Layers, i: nat, f: Field)
    requires layers.Valid() && Supplies(layers, i, f)
    requires f in layers.result.fields && IsForOneUrl(f, layers.result.fields[f])
    requires HasUsableUrl(layers.result)
    ensures KeptItsUrl(layers, i)
    decreases layers
  {
    match layers
    case Given(_) =>
    case Over(base, next, result) =>
      SupplierGivesValue(layers, i, f);
      if i < base.Count() {
        SupplierGivesValue(base, i, f);
        InheritedCredential(base.result, next.result, result, f);
        CredentialsStayWithTheirUrl(base, i, f);
      } else {
        SupplierGivesValue(next, i - base.Count(), f);
        assert MergesField(base.result, next.result, result, Url);
        CredentialsStayWithTheirUrl(next, i - base.Count(), f);
      }
  }

  /** A definition sets a url that is not text, where there was another or none. */
  predicate SetsOddUrl(existing: Entry, definition: Entry) {
    Url in definition.fields && !definition.fields[Url].Text? && Get(definition, Url) != Get(existing, Url)
  }

  /** One merge that lets a credential through keeps its url, if and only if the definition sets no odd one. */
  lemma InheritedCredentialKeepsUrlIff(existing: Entry, definition: Entry, merged: Entry, f: Field)
    requires IsMerge(existing, definition, merged)
    requires f in existing.fields && IsForOneUrl(f, existing.fields[f])
    requires f !in definition.fields && !Cuts(existing, definition, f)
    ensures Get(existing, f) == Get(merged, f)
    ensures Get(existing, Url) == Get(merged, Url) <==> !SetsOddUrl(existing, definition)
  {
    assert MergesField(existing, definition, merged, Url) && MergesField(existing, definition, merged, f);
  }

  /** On the way from given entry `i` to the result, nothing merged over it sets an odd url. */
  ghost predicate NoOddUrlOver(layers: Layers, i: nat) {
    match layers
    case Given(_) => true
    case Over(base, next, _) =>
      if i < base.Count() then !SetsOddUrl(base.result, next.result) && NoOddUrlOver(base, i)
      else NoOddUrlOver(next, i - base.Count())
  }

  /** For any urls: a url-bound credential has met no url but its own if and only if no odd url was merged over it. */
  lemma {:induction false} CredentialsKeepTheirUrlIff(layers: Layers, i: nat, f: Field)
    requires layers.Valid() && Supplies(layers, i, f)
    requires f in layers.result.fields && IsForOneUrl(f, layers.result.fields[f])
    ensures KeptItsUrl(layers, i) <==> NoOddUrlOver(layers, i)
    decreases layers
  {
    match layers
    case Given(_) =>
    case Over(base, next, result) =>
      SupplierGivesValue(layers, i, f);
      if i < base.Count() {
        SupplierGivesValue(base, i, f);
        InheritedCredentialKeepsUrlIff(base.result, next.result, result, f);
        CredentialsKeepTheirUrlIff(base, i, f);
      } else {
        SupplierGivesValue(next, i - base.Count(), f);
        assert MergesField(base.result, next.result, result, Url);
        CredentialsKeepTheirUrlIff(next, i - base.Count(), f);
      }
  }

  /** When every given url is text, so is every merged one. */
  lemma {:induction false} TextUrlsStayText(layers: Layers)
    requires layers.Valid()
    requires forall i :: 0 <= i < layers.Count() ==> HasUsableUrl(layers.Entry(i))
    ensures HasUsableUrl(layers.result)
    decreases layers
  {
    match layers
    case Given(entry) => assert layers.Entry(0) == entry;
    case Over(base, next, result) =>
      assert forall i :: 0 <= i < base.Count() ==> base.Entry(i) == layers.Entry(i);
      assert forall i :: 0 <= i < next.Count() ==> next.Entry(i) == layers.Entry(base.Count() + i);
      TextUrlsStayText(base);
      TextUrlsStayText(next);
      assert MergesField(base.result, next.result, result, Url);
  }

  /** An odd url: the credential stays although the url it was for is gone. */
  lemma UrlThatIsNoText(header: Value) returns (layers: Layers)
    ensures layers.Valid() && layers.Count() == 2
    ensures layers.Entry(0).fields == map[Url := Text("https://a"), Headers := header]
    ensures layers.Entry(1).fields == map[Url := Struct("null")]
    ensures Supplies(layers, 0, Headers) && Get(layers.result, Headers) == Some(header)
    ensures !HasUsableUrl(layers.result) && !KeptItsUrl(layers, 0) && !NoOddUrlOver(layers, 0)
  {
    var existing := Entry(map[Url := Text("https://a"), Headers := header], {});
    var definition := Entry(map[Url := Struct("null")], {});
    MergedIsMerge(existing, definition);
    layers := Over(Given(existing), Given(definition), Merged(existing, definition));
    assert MergesField(existing, definition, layers.result, Url);
    assert MergesField(existing, definition, layers.result, Headers);
  }

  /** Sources merged one after another, each over all before it. */
  ghost predicate IsChain(layers: Layers) {
    layers.Over? ==> layers.next.Given? && IsChain(layers.base)
  }

  /** The chain up to and with source `k`. */
  ghost function UpTo(layers: Layers, k: nat): Layers
    requires IsChain(layers) && k < layers.Count()
  {
    assert layers.Over? ==> layers.next.Count() == 1;
    if k + 1 == layers.Count() then layers else UpTo(layers.base, k)
  }

  /**
   When sources are merged one after another: since the source that supplied a credential, no source has changed
   the url, and none has set the credential again.
   */
  lemma {:induction false} NoLaterSourceChangedTheUrl(layers: Layers, k: nat, f: Field, m: nat)
    requires layers.Valid() && IsChain(layers) && k <= m < layers.Count()
    requires Supplies(layers, k, f)
    requires f in layers.result.fields && IsForOneUrl(f, layers.result.fields[f])
    requires HasUsableUrl(layers.result)
    ensures Get(UpTo(layers, m).result, Url) == Get(layers.result, Url)
    ensures m > k ==> f !in layers.Entry(m).fields
    decreases layers
  {
    if k + 1 < layers.Count() {
      SupplierGivesValue(layers.base, k, f);
      SupplierGivesValue(layers, k, f);
      InheritedCredential(layers.base.result, layers.next.result, layers.result, f);
      if m + 1 < layers.Count() {
        NoLaterSourceChangedTheUrl(layers.base, k, f, m);
      }
    }
  }

  // ----- transports and plugin env -----

  predicate AtMostOneTransport(e: Entry) {
    && !(SetsText(e, Command) && SetsText(e, Url))
    && !(SetsText(e, Command) && SetsText(e, Socket))
    && !(SetsText(e, Url) && SetsText(e, Socket))
  }

  lemma OneTransportStep(existing: Entry, definition: Entry, merged: Entry)
    requires IsMerge(existing, definition, merged)
    requires AtMostOneTransport(existing) && AtMostOneTransport(definition)
    ensures AtMostOneTransport(merged)
  {
    assert MergesField(existing, definition, merged, Command);
    assert MergesField(existing, definition, merged, Url);
    assert MergesField(existing, definition, merged, Socket);
  }

  lemma {:induction false} MergesKeepOneTransport(layers: Layers)
    requires layers.Valid()
    requires forall i :: 0 <= i < layers.Count() ==> AtMostOneTransport(layers.Entry(i))
    ensures AtMostOneTransport(layers.result)
    decreases layers
  {
    match layers
    case Given(entry) => assert layers.Entry(0) == entry;
    case Over(base, next, result) =>
      assert forall i :: 0 <= i < base.Count() ==> base.Entry(i) == layers.Entry(i);
      assert forall i :: 0 <= i < next.Count() ==> next.Entry(i) == layers.Entry(base.Count() + i);
      MergesKeepOneTransport(base);
      MergesKeepOneTransport(next);
      OneTransportStep(base.result, next.result, result);
  }

  /** An entry that says its env is literal text marks the env it means, as agent plugins do. */
  predicate LiteralEnvMarksEnv(e: Entry) {
    LiteralEnv in e.fields ==> Env in e.fields && Env in e.literal
  }

  /** On the way from given entry `i` to the result, nothing merged over it sets an env. */
  ghost predicate NoEnvOver(layers: Layers, i: nat) {
    match layers
    case Given(_) => true
    case Over(base, next, _) =>
      if i < base.Count() then Env !in next.result.fields && NoEnvOver(base, i)
      else NoEnvOver(next, i - base.Count())
  }

  /** Whatever the entries: a `literalEnv` in the result is about the env it came with, if no env was merged over that. */
  lemma {:induction false} LiteralEnvIsAboutItsEnvIff(layers: Layers, i: nat)
    requires layers.Valid() && Supplies(layers, i, LiteralEnv) && i < layers.Count()
    ensures Supplies(layers, i, Env) <==> Env in layers.Entry(i).fields && NoEnvOver(layers, i)
    decreases layers
  {
    match layers
    case Given(_) =>
    case Over(base, next, _) =>
      if i < base.Count() {
        LiteralEnvIsAboutItsEnvIff(base, i);
      } else {
        LiteralEnvIsAboutItsEnvIff(next, i - base.Count());
      }
  }

  lemma LiteralEnvStep(existing: Entry, definition: Entry)
    requires Env in existing.literal && LiteralEnv !in definition.fields && !Cuts(existing, definition, LiteralEnv)
    ensures Env !in definition.fields && !Cuts(existing, definition, Env)
  {}

  /**
   A plugin's `literalEnv`, where it is in the result, is about the plugin's env, which is still marked as such,
   whatever other entries say of `literalEnv`.
   */
  lemma {:induction false} LiteralEnvStaysWithItsEnv(layers: Layers, i: nat)
    requires layers.Valid() && Supplies(layers, i, LiteralEnv) && i < layers.Count()
    requires LiteralEnvMarksEnv(layers.Entry(i))
    ensures Supplies(layers, i, Env) && Env in layers.result.literal
    decreases layers
  {
    SupplierGivesValue(layers, i, LiteralEnv);
    match layers
    case Given(_) =>
    case Over(base, next, _) =>
      if i < base.Count() {
        LiteralEnvStaysWithItsEnv(base, i);
        LiteralEnvStep(base.result, next.result);
      } else {
        LiteralEnvStaysWithItsEnv(next, i - base.Count());
      }
      SupplierGivesValue(layers, i, Env);
  }

  /** The `literalEnv` of a config file marks nothing: it stays when a later file sets another env, and speaks of that. */
  lemma UnmarkedLiteralEnv(first: Value, second: Value) returns (layers: Layers)
    ensures layers.Valid() && layers.Count() == 2
    ensures layers.Entry(0) == Entry(map[Env := first, LiteralEnv := Flag(true)], {})
    ensures layers.Entry(1) == Entry(map[Env := second], {})
    ensures Supplies(layers, 0, LiteralEnv) && Supplies(layers, 1, Env) && !Supplies(layers, 0, Env)
  {
    var existing := Entry(map[Env := first, LiteralEnv := Flag(true)], {});
    var definition := Entry(map[Env := second], {});
    MergedIsMerge(existing, definition);
    layers := Over(Given(existing), Given(definition), Merged(existing, definition));
    assert MergesField(existing, definition, layers.result, LiteralEnv);
  }

  /** Merging is not associative: whether a url was changed in between shows only when the merges go in order. */
  lemma MergeIsNotAssociative(a: Entry, b: Entry, c: Entry, ab: Entry, abThenC: Entry, bc: Entry, aThenBc: Entry)
    requires a.fields == map[Url := Text("https://a"), BearerToken := Text("t")]
    requires b.fields == map[Url := Text("https://b")] && c.fields == map[Url := Text("https://a")]
    requires IsMerge(a, b, ab) && IsMerge(ab, c, abThenC) && IsMerge(b, c, bc) && IsMerge(a, bc, aThenBc)
    ensures Get(abThenC, BearerToken) == None && Get(aThenBc, BearerToken) == Some(Text("t"))
  {
    assert MergesField(a, b, ab, BearerToken) && MergesField(ab, c, abThenC, BearerToken);
    assert MergesField(b, c, bc, BearerToken) && MergesField(b, c, bc, Url) && MergesField(b, c, bc, Command);
    assert MergesField(b, c, bc, Socket) && MergesField(a, bc, aThenBc, BearerToken);
  }
}
