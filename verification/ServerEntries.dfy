/**
 Server entries of a config file and how one entry is merged over another: `mergeServerMaps`,
 `droppedUrlBoundAuth` and agent-plugin-provenance.ts.
 */
module ServerEntries {
  import opened Options

  datatype Field =
    | Command | Url | Socket
    | Headers | BearerToken | BearerTokenEnv | BearerTokenStore | RequestHeadersCommand | CaFile | Auth | OAuth
    | HttpTransport | Args | Env | Cwd | PluginDataDir | LiteralEnv | InheritEnv
    | Other(name: string)

  /** A JSON value, as far as the merge looks at it: `Struct` is anything `typeof` calls an object. */
  datatype Value = Text(text: string) | Flag(on: bool) | Struct(json: string)

  /** An entry's own fields, and the fields an agent plugin marked as literal text. */
  datatype Entry = Entry(fields: map<Field, Value>, literal: set<Field>)

  type ServerMap = map<string, Entry>

  /** `URL_BOUND_AUTH_FIELDS`. */
  predicate IsUrlBoundField(f: Field) {
    f.Headers? || f.BearerToken? || f.BearerTokenEnv? || f.BearerTokenStore? || f.RequestHeadersCommand? || f.CaFile?
  }

  /** `CREDENTIAL_FIELDS`. */
  predicate IsCredential(f: Field) { IsUrlBoundField(f) || f.Auth? || f.OAuth? }

  /** `LITERAL_PLUGIN_FIELDS`. */
  predicate IsLiteralField(f: Field) { f.Args? || f.Env? || f.Cwd? || f.Headers? }

  predicate IsStdioField(f: Field) {
    f.Command? || f.Args? || f.Env? || f.Cwd? || f.PluginDataDir? || f.LiteralEnv? || f.InheritEnv?
  }

  predicate IsHttpField(f: Field) { f.Url? || f.HttpTransport? || IsCredential(f) }

  function Get(e: Entry, f: Field): Option<Value> {
    if f in e.fields then Some(e.fields[f]) else None
  }

  /** `typeof definition[field] === "string"`. */
  predicate HasText(e: Entry, f: Field) { f in e.fields && e.fields[f].Text? }

  /** Whether the value is a credential that only the url it was given for may see. */
  predicate IsUrlBound(f: Field, v: Value) {
    if f == Auth then v.Struct?
    else if f == OAuth then v != Flag(false)
    else IsUrlBoundField(f)
  }

  /** Whether a definition sets a url that is not the existing one. */
  predicate ChangesUrl(existing: Entry, definition: Entry) {
    HasText(definition, Url) && Get(definition, Url) != Get(existing, Url)
  }

  /** Whether `droppedUrlBoundAuth` names the field. */
  predicate DropsCredential(existing: Entry, definition: Entry, f: Field) {
    && ChangesUrl(existing, definition)
    && IsCredential(f) && f !in definition.fields && f in existing.fields && IsUrlBound(f, existing.fields[f])
  }

  function DroppedUrlBoundAuth(existing: Entry, definition: Entry): set<Field> {
    set f | f in existing.fields && DropsCredential(existing, definition, f)
  }

  /** Whether a definition's transport makes the merge forget a field. */
  predicate OfOtherTransport(definition: Entry, f: Field) {
    if HasText(definition, Command) then IsHttpField(f) || f.Socket?
    else if HasText(definition, Url) then IsStdioField(f) || f.Socket?
    else HasText(definition, Socket) && (IsStdioField(f) || IsHttpField(f))
  }

  /** Whether a definition takes `env` over from a plugin without saying how to read it. */
  predicate TakesPluginEnv(existing: Entry, definition: Entry) {
    Env in definition.fields && Env in existing.literal && LiteralEnv !in definition.fields
  }

  /** Which fields of the existing entry a definition removes, apart from those it sets. */
  predicate Cuts(existing: Entry, definition: Entry, f: Field) {
    || OfOtherTransport(definition, f)
    || DropsCredential(existing, definition, f)
    || (f == LiteralEnv && TakesPluginEnv(existing, definition))
  }

  /** What becomes of one field: a definition's own field wins, and an inherited one stays unless it is cut. */
  ghost predicate MergesField(existing: Entry, definition: Entry, merged: Entry, f: Field) {
    && Get(merged, f) == (if f in definition.fields then Get(definition, f)
                          else if Cuts(existing, definition, f) then None
                          else Get(existing, f))
    && (f in merged.literal <==>
        && IsLiteralField(f) && f in merged.fields
        && (if f in definition.fields then f in definition.literal else f in existing.literal))
  }

  ghost predicate IsMerge(existing: Entry, definition: Entry, merged: Entry) {
    forall f :: MergesField(existing, definition, merged, f)
  }

  const NO_FIELDS := Entry(map[], {})

  /** `mergeBuiltInAgentPluginEntries`. */
  function Spread(base: Entry, next: Entry): Entry {
    var inherited := set f | f in base.literal && f in base.fields && f !in next.fields && IsLiteralField(f);
    var own := set f | f in next.literal && f in next.fields && IsLiteralField(f);
    Entry(base.fields + next.fields, inherited + own)
  }

  function Inherited(existing: Entry, definition: Entry): map<Field, Value> {
    map f | f in existing.fields && !Cuts(existing, definition, f) :: existing.fields[f]
  }

  /** The merged entry as a value. */
  function Merged(existing: Entry, definition: Entry): Entry {
    Spread(Entry(Inherited(existing, definition), existing.literal), definition)
  }

  lemma MergedIsMerge(existing: Entry, definition: Entry)
    ensures IsMerge(existing, definition, Merged(existing, definition))
  {}

  lemma MergeIsUnique(existing: Entry, definition: Entry, merged: Entry)
    requires IsMerge(existing, definition, merged)
    ensures merged == Merged(existing, definition)
  {
    MergedIsMerge(existing, definition);
    SameMerge(existing, definition, merged, Merged(existing, definition));
  }

  lemma SameMerge(existing: Entry, definition: Entry, a: Entry, b: Entry)
    requires IsMerge(existing, definition, a) && IsMerge(existing, definition, b)
    ensures a == b
  {
    forall f ensures Get(a, f) == Get(b, f) && (f in a.literal <==> f in b.literal) {
      assert MergesField(existing, definition, a, f) && MergesField(existing, definition, b, f);
    }
    assert forall f :: f in a.fields <==> Get(a, f).Some?;
    assert forall f :: f in b.fields <==> Get(b, f).Some?;
    assert a.fields == b.fields && a.literal == b.literal;
  }

  /** The fields left of the existing entry: what the branches of `mergeServerMaps` delete, one after another. */
  method InheritedFields(existing: Entry, definition: Entry) returns (base: map<Field, Value>)
    ensures base == Inherited(existing, definition)
  {
    base := existing.fields;
    if HasText(definition, Command) {
      base := base - {Url, Headers, RequestHeadersCommand, CaFile, Auth, BearerToken, BearerTokenEnv, BearerTokenStore,
        OAuth, HttpTransport, Socket};
    } else if HasText(definition, Url) {
      base := base - {Command, Args, Env, Cwd, PluginDataDir, LiteralEnv, InheritEnv, Socket};
    } else if HasText(definition, Socket) {
      base := base - {Command, Args, Env, Cwd, PluginDataDir, LiteralEnv, InheritEnv, Url, Headers,
        RequestHeadersCommand, CaFile, Auth, BearerToken, BearerTokenEnv, BearerTokenStore, OAuth, HttpTransport};
    }
    assert forall f :: f in base <==> f in existing.fields && !OfOtherTransport(definition, f);
    if HasText(definition, Url) && Get(definition, Url) != Get(existing, Url) {
      base := base - DroppedUrlBoundAuth(existing, definition);
    }
    if Env in definition.fields && Env in existing.literal && LiteralEnv !in definition.fields {
      base := base - {LiteralEnv};
    }
  }

  /** The body of the loop in `mergeServerMaps`, for one name. */
  method MergeEntry(existing: Option<Entry>, definition: Entry) returns (merged: Entry)
    ensures merged == Merged(if existing.Some? then existing.value else NO_FIELDS, definition)
  {
    var base := NO_FIELDS;
    if existing.Some? {
      var fields := InheritedFields(existing.value, definition);
      base := existing.value.(fields := fields);
    }
    merged := Spread(base, definition);
  }
}
