/**
 `getDroppedCredentialNotices`: it replays the loader's merges with, beside each entry, a map from credential fields
 to the files they came from. The map is kept by hand, and keeps entries for fields that are long gone. Here it is
 compared with merges whose values carry their files themselves.
 */
module DroppedNotices {
  import opened ServerEntries
  import opened MergeTrees
  import opened LayeredConfig

  type Files = map<string, map<Field, string>>

  /** A credential of `file` that a merge dropped because `urlFile` sets a different url. */
  datatype Notice = Notice(name: string, field: Field, file: string, urlFile: string)

  // ----- values that carry their files -----

  /** An entry with the file that each of its fields came from. */
  datatype Traced = Traced(entry: Entry, from: map<Field, string>) {
    ghost predicate Valid() { from.Keys == entry.fields.Keys }
  }

  type TracedMap = map<string, Traced>

  ghost predicate ValidMap(servers: TracedMap) {
    forall name :: name in servers ==> servers[name].Valid()
  }

  ghost function Untraced(servers: TracedMap): ServerMap {
    map name | name in servers :: servers[name].entry
  }

  ghost function TracedOf(servers: TracedMap, name: string): Traced {
    if name in servers then servers[name] else Traced(NO_FIELDS, map[])
  }

  ghost function TracedMerge(base: Traced, next: Traced): (merged: Traced)
    requires base.Valid() && next.Valid()
    ensures merged.Valid()
  {
    var entry := Merged(base.entry, next.entry);
    Traced(entry, map f | f in entry.fields :: if f in next.from then next.from[f] else base.from[f])
  }

  ghost function TracedMaps(base: TracedMap, next: TracedMap): (merged: TracedMap)
    requires ValidMap(base) && ValidMap(next)
    ensures ValidMap(merged)
  {
    map name | name in base.Keys + next.Keys ::
      if name in next then TracedMerge(TracedOf(base, name), next[name]) else base[name]
  }

  /** A server has a credential for one url, and a definition that repoints it does not set that field. */
  predicate LosesCredential(existing: Entry, definition: Entry, f: Field) {
    && Repoints(existing, definition)
    && f in existing.fields && f !in definition.fields && IsForOneUrl(f, existing.fields[f])
  }

  /** The credentials that a merge of two maps drops for a url change, with the files they and the url came from. */
  ghost function UrlDrops(base: TracedMap, next: TracedMap): set<Notice>
    requires ValidMap(base) && ValidMap(next)
  {
    set name, f |
      name in base && name in next && f in base[name].from && LosesCredential(base[name].entry, next[name].entry, f) ::
      Notice(name, f, base[name].from[f], next[name].from[Url])
  }

  /** A merge drops a credential for its url, if one transport is named, exactly when it is a credential that is lost. */
  lemma DropsAreLostCredentials(existing: Entry, definition: Entry, merged: Entry, f: Field)
    requires IsMerge(existing, definition, merged) && Repoints(existing, definition)
    requires f in {Headers, BearerToken, BearerTokenEnv, BearerTokenStore, RequestHeadersCommand, CaFile, Auth, OAuth}
    requires f in existing.fields && !SetsText(definition, Command)
    ensures LosesCredential(existing, definition, f) <==> f !in merged.fields
    ensures LosesCredential(existing, definition, f) <==> f in DroppedUrlBoundAuth(existing, definition)
  {
    assert MergesField(existing, definition, merged, f);
  }

  // ----- the map that is kept by hand -----

  function FilesOf(files: Files, name: string): map<Field, string> {
    if name in files then files[name] else map[]
  }

  /** Every credential of the entry is in the map, with the file it came from. The map may have more. */
  ghost predicate Covers(files: map<Field, string>, e: Traced) {
    forall f :: f in e.from && IsCredential(f) ==> f in files && files[f] == e.from[f]
  }

  /** A definition that removes every credential it is merged over. */
  predicate ForgetsCredentials(e: Entry) { HasText(e, Command) || (!HasText(e, Url) && HasText(e, Socket)) }

  /** The map has a field that the entry lacks only where that entry would remove the field anyway. */
  ghost predicate StaleOnlyWhereForgotten(files: map<Field, string>, e: Traced) {
    forall f :: f in files && f !in e.from ==> IsCredential(f) && ForgetsCredentials(e.entry)
  }

  /** `credentialFiles`, for one entry. */
  ghost predicate IsCredentialFiles(files: map<Field, string>, e: Traced) {
    files == map f | f in e.from && IsCredential(f) :: e.from[f]
  }

  ghost predicate CoversAll(files: Files, servers: TracedMap) {
    forall name :: name in servers ==> Covers(FilesOf(files, name), servers[name])
  }

  ghost predicate StaleNowhereElse(files: Files, servers: TracedMap) {
    forall name :: name in servers ==> StaleOnlyWhereForgotten(FilesOf(files, name), servers[name])
  }

  ghost predicate AreCredentialFiles(files: Files, servers: TracedMap) {
    && files.Keys == servers.Keys
    && forall name :: name in servers ==> IsCredentialFiles(FilesOf(files, name), servers[name])
  }

  /** The new map of one name: what was dropped goes, and what the definition's file supplies wins. */
  function FieldFiles(known: map<Field, string>, dropped: set<Field>, own: map<Field, string>): map<Field, string> {
    (known - dropped) + own
  }

  lemma MergedFieldFiles(base: Traced, next: Traced, merged: Traced, known: map<Field, string>, own: map<Field, string>)
    requires base.Valid() && next.Valid() && merged.Valid() && IsMerge(base.entry, next.entry, merged.entry)
    requires forall f :: f in merged.from && f in next.from ==> merged.from[f] == next.from[f]
    requires forall f :: f in merged.from && f !in next.from && f in base.from ==> merged.from[f] == base.from[f]
    requires Covers(known, base) && Covers(own, next) && StaleOnlyWhereForgotten(own, next)
    ensures Covers(FieldFiles(known, DroppedUrlBoundAuth(base.entry, next.entry), own), merged)
  {
    forall f | f in merged.from && IsCredential(f)
      ensures f in FieldFiles(known, DroppedUrlBoundAuth(base.entry, next.entry), own)
      ensures FieldFiles(known, DroppedUrlBoundAuth(base.entry, next.entry), own)[f] == merged.from[f]
    {
      assert MergesField(base.entry, next.entry, merged.entry, f);
    }
  }

  /** A definition that forgets a credential makes an entry that forgets every credential in a further merge. */
  lemma ForgettingIsKept(existing: Entry, definition: Entry, merged: Entry, f: Field)
    requires IsMerge(existing, definition, merged) && IsCredential(f) && OfOtherTransport(definition, f)
    ensures ForgetsCredentials(merged)
  {
    assert MergesField(existing, definition, merged, Command);
    assert MergesField(existing, definition, merged, Url);
    assert MergesField(existing, definition, merged, Socket);
  }

  /** After a file's own entries are merged over its imports, a stale field is one that any further merge forgets. */
  lemma StaleFieldFiles(base: Traced, next: Traced, merged: Traced, known: map<Field, string>, own: map<Field, string>)
    requires base.Valid() && next.Valid() && merged.Valid() && IsMerge(base.entry, next.entry, merged.entry)
    requires IsCredentialFiles(known, base) && IsCredentialFiles(own, next)
    ensures StaleOnlyWhereForgotten(FieldFiles(known, DroppedUrlBoundAuth(base.entry, next.entry), own), merged)
  {
    forall f | f in FieldFiles(known, DroppedUrlBoundAuth(base.entry, next.entry), own) && f !in merged.from
      ensures IsCredential(f) && ForgetsCredentials(merged.entry)
    {
      assert MergesField(base.entry, next.entry, merged.entry, f);
      ForgettingIsKept(base.entry, next.entry, merged.entry, f);
    }
  }

  ghost function NoticesOf(name: string, fields: set<Field>, known: map<Field, string>, urlFile: string): set<Notice> {
    set f | f in fields && f in known :: Notice(name, f, known[f], urlFile)
  }

  lemma NoticesOfOneMore(name: string, fields: set<Field>, f: Field, known: map<Field, string>, urlFile: string)
    ensures NoticesOf(name, fields + {f}, known, urlFile) ==
      NoticesOf(name, fields, known, urlFile) + if f in known then {Notice(name, f, known[f], urlFile)} else {}
  {}

  /** One pass of the loop of `merge`: the notices for one name, and its new file map. */
  method NoticesFor(name: string, dropped: set<Field>, known: map<Field, string>, own: map<Field, string>, urlFile: string)
    returns (files: map<Field, string>, notices: set<Notice>)
    ensures files == FieldFiles(known, dropped, own)
    ensures notices == NoticesOf(name, dropped, known, urlFile)
  {
    files, notices := known, {};
    var fields := dropped;
    while fields != {}
      invariant fields <= dropped
      invariant files == known - (dropped - fields)
      invariant notices == NoticesOf(name, dropped - fields, known, urlFile)
      decreases fields
    {
      var f :| f in fields;
      NoticesOfOneMore(name, dropped - fields, f, known, urlFile);
      assert dropped - (fields - {f}) == (dropped - fields) + {f};
      if f in files {
        notices := notices + {Notice(name, f, files[f], urlFile)};
      }
      files, fields := files - {f}, fields - {f};
    }
    assert dropped - {} == dropped;
    files := files + own;
  }

  ghost function NewFiles(baseFiles: Files, nextFiles: Files, base: ServerMap, next: ServerMap, name: string): map<Field, string> {
    FieldFiles(FilesOf(baseFiles, name), DroppedUrlBoundAuth(EntryOf(base, name), EntryOf(next, name)), FilesOf(nextFiles, name))
  }

  ghost predicate SeenFiles(files: Files, done: set<string>, baseFiles: Files, nextFiles: Files, base: ServerMap, next: ServerMap) {
    forall name ::
      FilesOf(files, name) == if name in done then NewFiles(baseFiles, nextFiles, base, next, name) else FilesOf(baseFiles, name)
  }

  lemma SeenOneMore(files: Files, done: set<string>, baseFiles: Files, nextFiles: Files, base: ServerMap, next: ServerMap,
                    name: string, fieldFiles: map<Field, string>)
    requires SeenFiles(files, done, baseFiles, nextFiles, base, next)
    requires fieldFiles == NewFiles(baseFiles, nextFiles, base, next, name)
    ensures SeenFiles(files[name := fieldFiles], done + {name}, baseFiles, nextFiles, base, next)
  {
    forall other | other != name ensures FilesOf(files[name := fieldFiles], other) == FilesOf(files, other) {}
  }

  /** The notices of a merge that has seen the names in `done`. */
  ghost function DropsOfNames(base: TracedMap, next: TracedMap, done: set<string>): set<Notice>
    requires ValidMap(base) && ValidMap(next)
  {
    set n | n in UrlDrops(base, next) && n.name in done
  }

  lemma DropsOfOneMore(baseFiles: Files, base: TracedMap, next: TracedMap, done: set<string>, name: string, urlFile: string)
    requires ValidMap(base) && ValidMap(next) && CoversAll(baseFiles, base) && name in next
    requires HasText(next[name].entry, Url) ==> urlFile == next[name].from[Url]
    ensures DropsOfNames(base, next, done + {name}) ==
      DropsOfNames(base, next, done) +
      NoticesOf(name, DroppedUrlBoundAuth(EntryOf(Untraced(base), name), EntryOf(Untraced(next), name)),
                FilesOf(baseFiles, name), urlFile)
  {}

  lemma AllDrops(base: TracedMap, next: TracedMap)
    requires ValidMap(base) && ValidMap(next)
    ensures DropsOfNames(base, next, next.Keys) == UrlDrops(base, next) && DropsOfNames(base, next, {}) == {}
  {}

  /** The loop of `merge`. */
  method ReplayFiles(base: ServerMap, baseFiles: Files, next: ServerMap, nextFiles: Files, urlFile: map<string, string>,
                     ghost tracedBase: TracedMap, ghost tracedNext: TracedMap)
    returns (files: Files, notices: set<Notice>)
    requires ValidMap(tracedBase) && Untraced(tracedBase) == base && CoversAll(baseFiles, tracedBase)
    requires ValidMap(tracedNext) && Untraced(tracedNext) == next
    requires forall name :: name in next ==> name in urlFile
    requires forall name :: name in next && HasText(next[name], Url) ==> urlFile[name] == tracedNext[name].from[Url]
    ensures SeenFiles(files, next.Keys, baseFiles, nextFiles, base, next)
    ensures notices == UrlDrops(tracedBase, tracedNext)
  {
    files, notices := baseFiles, {};
    var names := next.Keys;
    ghost var done: set<string> := {};
    AllDrops(tracedBase, tracedNext);
    while names != {}
      invariant done !! names && done + names == next.Keys
      invariant SeenFiles(files, done, baseFiles, nextFiles, base, next)
      invariant notices == DropsOfNames(tracedBase, tracedNext, done)
      decreases names
    {
      var name :| name in names;
      var dropped := DroppedIn(base, next[name], name);
      DropsOfOneMore(baseFiles, tracedBase, tracedNext, done, name, urlFile[name]);
      var fieldFiles, more := NoticesFor(name, dropped, FilesOf(files, name), FilesOf(nextFiles, name), urlFile[name]);
      SeenOneMore(files, done, baseFiles, nextFiles, base, next, name, fieldFiles);
      files, notices := files[name := fieldFiles], notices + more;
      names, done := names - {name}, done + {name};
    }
    assert done == next.Keys;
  }

  method DroppedIn(base: ServerMap, definition: Entry, name: string) returns (dropped: set<Field>)
    ensures dropped == DroppedUrlBoundAuth(EntryOf(base, name), definition)
  {
    dropped := if name in base then DroppedUrlBoundAuth(base[name], definition) else {};
  }

  /** The `merge` of the replay. */
  method MergeWithFiles(base: ServerMap, baseFiles: Files, next: ServerMap, nextFiles: Files, urlFile: map<string, string>,
                        ghost tracedBase: TracedMap, ghost tracedNext: TracedMap)
    returns (servers: ServerMap, files: Files, notices: set<Notice>)
    requires ValidMap(tracedBase) && Untraced(tracedBase) == base && CoversAll(baseFiles, tracedBase)
    requires ValidMap(tracedNext) && Untraced(tracedNext) == next && CoversAll(nextFiles, tracedNext)
    requires StaleNowhereElse(nextFiles, tracedNext)
    requires forall name :: name in next ==> name in urlFile
    requires forall name :: name in next && HasText(next[name], Url) ==> urlFile[name] == tracedNext[name].from[Url]
    ensures servers == MergedMaps(base, next) == Untraced(TracedMaps(tracedBase, tracedNext))
    ensures notices == UrlDrops(tracedBase, tracedNext)
    ensures CoversAll(files, TracedMaps(tracedBase, tracedNext))
    ensures AreCredentialFiles(baseFiles, tracedBase) && AreCredentialFiles(nextFiles, tracedNext) ==>
      StaleNowhereElse(files, TracedMaps(tracedBase, tracedNext))
  {
    files, notices := ReplayFiles(base, baseFiles, next, nextFiles, urlFile, tracedBase, tracedNext);
    servers := MergeServerMaps(base, next);
    MergedFilesFit(tracedBase, tracedNext, baseFiles, nextFiles, files);
    if AreCredentialFiles(baseFiles, tracedBase) && AreCredentialFiles(nextFiles, tracedNext) {
      MergedFilesStale(tracedBase, tracedNext, baseFiles, nextFiles, files);
    }
    UntracedMaps(tracedBase, tracedNext);
  }

  lemma FilesOfName(base: TracedMap, next: TracedMap, baseFiles: Files, nextFiles: Files, files: Files, name: string)
    requires ValidMap(base) && ValidMap(next) && name in next
    requires SeenFiles(files, next.Keys, baseFiles, nextFiles, Untraced(base), Untraced(next))
    ensures TracedMaps(base, next)[name] == TracedMerge(TracedOf(base, name), next[name])
    ensures FilesOf(files, name) ==
      FieldFiles(FilesOf(baseFiles, name), DroppedUrlBoundAuth(TracedOf(base, name).entry, next[name].entry), FilesOf(nextFiles, name))
  {
    assert EntryOf(Untraced(base), name) == TracedOf(base, name).entry;
    assert EntryOf(Untraced(next), name) == next[name].entry;
  }

  lemma MergedFilesFit(base: TracedMap, next: TracedMap, baseFiles: Files, nextFiles: Files, files: Files)
    requires ValidMap(base) && ValidMap(next) && CoversAll(baseFiles, base) && CoversAll(nextFiles, next)
    requires StaleNowhereElse(nextFiles, next)
    requires SeenFiles(files, next.Keys, baseFiles, nextFiles, Untraced(base), Untraced(next))
    ensures CoversAll(files, TracedMaps(base, next))
  {
    forall name | name in next ensures Covers(FilesOf(files, name), TracedMaps(base, next)[name]) {
      FilesOfName(base, next, baseFiles, nextFiles, files, name);
      MergedNameFits(TracedOf(base, name), next[name], FilesOf(baseFiles, name), FilesOf(nextFiles, name));
    }
  }

  lemma MergedFilesStale(base: TracedMap, next: TracedMap, baseFiles: Files, nextFiles: Files, files: Files)
    requires ValidMap(base) && ValidMap(next) && CoversAll(baseFiles, base) && CoversAll(nextFiles, next)
    requires AreCredentialFiles(baseFiles, base) && AreCredentialFiles(nextFiles, next)
    requires SeenFiles(files, next.Keys, baseFiles, nextFiles, Untraced(base), Untraced(next))
    ensures StaleNowhereElse(files, TracedMaps(base, next))
  {
    forall name | name in next ensures StaleOnlyWhereForgotten(FilesOf(files, name), TracedMaps(base, next)[name]) {
      FilesOfName(base, next, baseFiles, nextFiles, files, name);
      MergedNameFits(TracedOf(base, name), next[name], FilesOf(baseFiles, name), FilesOf(nextFiles, name));
    }
  }

  lemma MergedNameFits(base: Traced, next: Traced, known: map<Field, string>, own: map<Field, string>)
    requires base.Valid() && next.Valid()
    requires Covers(known, base) && Covers(own, next) && StaleOnlyWhereForgotten(own, next)
    ensures var files := FieldFiles(known, DroppedUrlBoundAuth(base.entry, next.entry), own);
      && Covers(files, TracedMerge(base, next))
      && (IsCredentialFiles(known, base) && IsCredentialFiles(own, next) ==>
          StaleOnlyWhereForgotten(files, TracedMerge(base, next)))
  {
    MergedIsMerge(base.entry, next.entry);
    MergedFieldFiles(base, next, TracedMerge(base, next), known, own);
    if IsCredentialFiles(known, base) && IsCredentialFiles(own, next) {
      StaleFieldFiles(base, next, TracedMerge(base, next), known, own);
    }
  }

  lemma UntracedName(base: TracedMap, next: TracedMap, name: string)
    requires ValidMap(base) && ValidMap(next) && name in base.Keys + next.Keys
    ensures TracedMaps(base, next)[name].entry == MergedMaps(Untraced(base), Untraced(next))[name]
  {
    assert EntryOf(Untraced(base), name) == TracedOf(base, name).entry;
  }

  /** Without their files, traced merges are the loader's merges. */
  lemma UntracedMaps(base: TracedMap, next: TracedMap)
    requires ValidMap(base) && ValidMap(next)
    ensures Untraced(TracedMaps(base, next)) == MergedMaps(Untraced(base), Untraced(next))
  {
    var traced, plain := Untraced(TracedMaps(base, next)), MergedMaps(Untraced(base), Untraced(next));
    assert traced.Keys == plain.Keys;
    forall name | name in traced ensures traced[name] == plain[name] {
      UntracedName(base, next, name);
    }
  }

  // ----- the replay of all files -----

  function ImportFile(imported: Imported, f: Field): string {
    if f in imported.keyPaths then imported.keyPaths[f] else imported.path
  }

  function ImportFiles(imported: map<string, Imported>): Files {
    map name | name in imported ::
      map f | f in imported[name].entry.fields && IsCredential(f) :: ImportFile(imported[name], f)
  }

  function OwnFiles(own: ServerMap, path: string): Files {
    map name | name in own :: map f | f in own[name].fields && IsCredential(f) :: path
  }

  function HostFiles(host: ServerMap, paths: map<string, string>): Files {
    map name | name in host :: map f | f in host[name].fields && IsCredential(f) :: PathOf(paths, name)
  }

  function PathOf(paths: map<string, string>, name: string): string {
    if name in paths then paths[name] else "a host config"
  }

  ghost function TracedImports(imported: map<string, Imported>): (servers: TracedMap)
    ensures ValidMap(servers) && Untraced(servers) == Entries(imported)
    ensures AreCredentialFiles(ImportFiles(imported), servers)
  {
    map name | name in imported ::
      Traced(imported[name].entry, map f | f in imported[name].entry.fields :: ImportFile(imported[name], f))
  }

  ghost function TracedOwn(own: ServerMap, path: string): (servers: TracedMap)
    ensures ValidMap(servers) && Untraced(servers) == own
    ensures AreCredentialFiles(OwnFiles(own, path), servers)
  {
    map name | name in own :: Traced(own[name], map f | f in own[name].fields :: path)
  }

  ghost function TracedHost(host: ServerMap, paths: map<string, string>): (servers: TracedMap)
    ensures ValidMap(servers) && Untraced(servers) == host
    ensures AreCredentialFiles(HostFiles(host, paths), servers)
  {
    map name | name in host :: Traced(host[name], map f | f in host[name].fields :: PathOf(paths, name))
  }

  ghost function TracedFile(source: Source, piProjectNames: set<string>): (servers: TracedMap)
    ensures ValidMap(servers)
  {
    TracedMaps(TracedImports(ImportedServers(source.imports)), TracedOwn(OwnServers(source, piProjectNames), source.path))
  }

  ghost function TracedLoaded(host: TracedMap, sources: seq<Source>, piProjectNames: set<string>): (servers: TracedMap)
    requires ValidMap(host)
    ensures ValidMap(servers)
  {
    if sources == [] then host
    else
      var last := |sources| - 1;
      TracedMaps(TracedLoaded(host, sources[..last], piProjectNames), TracedFile(sources[last], piProjectNames))
  }

  /** For each file, what it drops of its own imports and then what it drops of the files before it. */
  ghost function AllUrlDrops(host: TracedMap, sources: seq<Source>, piProjectNames: set<string>): (drops: seq<set<Notice>>)
    requires ValidMap(host)
    ensures |drops| == 2 * |sources|
  {
    if sources == [] then []
    else
      var last := |sources| - 1;
      var source := sources[last];
      AllUrlDrops(host, sources[..last], piProjectNames) +
      [UrlDrops(TracedImports(ImportedServers(source.imports)), TracedOwn(OwnServers(source, piProjectNames), source.path)),
       UrlDrops(TracedLoaded(host, sources[..last], piProjectNames), TracedFile(source, piProjectNames))]
  }

  /** A config file has no plugin marks: it is JSON, which has no symbols. */
  predicate Unmarked(servers: ServerMap) {
    forall name :: name in servers ==> servers[name].literal == {}
  }

  /** Merging a file over no imports changes nothing, so the replay may merge where the loader does not. */
  lemma OverNoImports(source: Source, piProjectNames: set<string>)
    requires Unmarked(source.own)
    ensures MergedMaps(Entries(ImportedServers(source.imports)), OwnServers(source, piProjectNames)) ==
            FileServers(source, piProjectNames)
  {
    var own := OwnServers(source, piProjectNames);
    if source.imports == [] {
      forall name | name in own ensures Merged(NO_FIELDS, own[name]) == own[name] {
        OverNothing(own[name]);
      }
      assert MergedMaps(Entries(ImportedServers([])), own) == own;
    }
  }

  lemma OverNothing(e: Entry)
    requires e.literal == {}
    ensures Merged(NO_FIELDS, e) == e
  {
    assert NO_FIELDS.fields + e.fields == e.fields;
  }

  /** The file that set the url of a file's merged entry. */
  function UrlFile(source: Source, own: ServerMap, imported: map<string, Imported>, name: string): string {
    if name in own && HasText(own[name], Url) then source.path
    else if name in imported then ImportFile(imported[name], Url)
    else source.path
  }

  lemma UrlFileIsTraced(source: Source, piProjectNames: set<string>, name: string)
    requires name in TracedFile(source, piProjectNames) && HasText(TracedFile(source, piProjectNames)[name].entry, Url)
    ensures UrlFile(source, OwnServers(source, piProjectNames), ImportedServers(source.imports), name) ==
            TracedFile(source, piProjectNames)[name].from[Url]
  {
    var own, imported := OwnServers(source, piProjectNames), ImportedServers(source.imports);
    var base, next := TracedImports(imported), TracedOwn(own, source.path);
    if name in own {
      var existing := TracedOf(base, name).entry;
      MergedIsMerge(existing, own[name]);
      assert MergesField(existing, own[name], Merged(existing, own[name]), Url);
    }
  }

  lemma UrlFilesAreTraced(source: Source, piProjectNames: set<string>)
    ensures var servers := TracedFile(source, piProjectNames);
      forall name :: name in servers && HasText(servers[name].entry, Url) ==>
        UrlFile(source, OwnServers(source, piProjectNames), ImportedServers(source.imports), name) == servers[name].from[Url]
  {
    forall name | name in TracedFile(source, piProjectNames) && HasText(TracedFile(source, piProjectNames)[name].entry, Url) {
      UrlFileIsTraced(source, piProjectNames, name);
    }
  }

  /** The servers and the notices of one file of the replay. */
  method ReplayFile(servers: ServerMap, files: Files, source: Source, piProjectNames: set<string>, ghost traced: TracedMap)
    returns (newServers: ServerMap, newFiles: Files, notices: seq<set<Notice>>)
    requires ValidMap(traced) && Untraced(traced) == servers && CoversAll(files, traced) && Unmarked(source.own)
    ensures newServers == MergedMaps(servers, FileServers(source, piProjectNames)) ==
            Untraced(TracedMaps(traced, TracedFile(source, piProjectNames)))
    ensures CoversAll(newFiles, TracedMaps(traced, TracedFile(source, piProjectNames)))
    ensures notices == [
      UrlDrops(TracedImports(ImportedServers(source.imports)), TracedOwn(OwnServers(source, piProjectNames), source.path)),
      UrlDrops(traced, TracedFile(source, piProjectNames))]
  {
    var own, imported := OwnServers(source, piProjectNames), ImportedServers(source.imports);
    ghost var tracedImports, tracedOwn := TracedImports(imported), TracedOwn(own, source.path);
    var ownUrl := map name | name in own :: source.path;
    var fileServers, fileFiles, inner :=
      MergeWithFiles(Entries(imported), ImportFiles(imported), own, OwnFiles(own, source.path), ownUrl, tracedImports, tracedOwn);
    OverNoImports(source, piProjectNames);
    var urlFile := map name | name in fileServers :: UrlFile(source, own, imported, name);
    UrlFilesAreTraced(source, piProjectNames);
    var outer;
    newServers, newFiles, outer :=
      MergeWithFiles(servers, files, fileServers, fileFiles, urlFile, traced, TracedFile(source, piProjectNames));
    notices := [inner, outer];
  }

  lemma OneMoreSource(host: ServerMap, tracedHost: TracedMap, sources: seq<Source>, i: nat, piProjectNames: set<string>)
    requires ValidMap(tracedHost) && i < |sources|
    ensures var traced, file := TracedLoaded(tracedHost, sources[..i], piProjectNames), TracedFile(sources[i], piProjectNames);
      && Loaded(host, sources[..i + 1], piProjectNames) ==
         MergedMaps(Loaded(host, sources[..i], piProjectNames), FileServers(sources[i], piProjectNames))
      && TracedLoaded(tracedHost, sources[..i + 1], piProjectNames) == TracedMaps(traced, file)
      && AllUrlDrops(tracedHost, sources[..i + 1], piProjectNames) ==
         AllUrlDrops(tracedHost, sources[..i], piProjectNames) +
         [UrlDrops(TracedImports(ImportedServers(sources[i].imports)),
                   TracedOwn(OwnServers(sources[i], piProjectNames), sources[i].path)),
          UrlDrops(traced, file)]
  {
    assert sources[..i + 1][..i] == sources[..i];
  }

  /**
   The replay merges what the loader merges, and reports exactly the credentials that a change of url dropped, each
   with the file it came from and the file of the url, although its file map keeps fields that are gone.
   */
  method DroppedCredentialNotices(host: ServerMap, hostPaths: map<string, string>, sources: seq<Source>,
                                  piProjectNames: set<string>)
    returns (servers: ServerMap, notices: seq<set<Notice>>)
    requires forall i :: 0 <= i < |sources| ==> Unmarked(sources[i].own)
    ensures servers == Loaded(host, sources, piProjectNames)
    ensures notices == AllUrlDrops(TracedHost(host, hostPaths), sources, piProjectNames)
  {
    servers, notices := host, [];
    var files := HostFiles(host, hostPaths);
    ghost var traced := TracedHost(host, hostPaths);
    for i := 0 to |sources|
      invariant ValidMap(traced) && traced == TracedLoaded(TracedHost(host, hostPaths), sources[..i], piProjectNames)
      invariant servers == Untraced(traced) == Loaded(host, sources[..i], piProjectNames)
      invariant CoversAll(files, traced)
      invariant notices == AllUrlDrops(TracedHost(host, hostPaths), sources[..i], piProjectNames)
    {
      var more;
      servers, files, more := ReplayFile(servers, files, sources[i], piProjectNames, traced);
      notices := notices + more;
      OneMoreSource(host, TracedHost(host, hostPaths), sources, i, piProjectNames);
      traced := TracedMaps(traced, TracedFile(sources[i], piProjectNames));
    }
    assert sources[..|sources|] == sources;
  }

  // ----- what a notice says, in terms of the files alone -----

  /** The file of an imported key: its own, where the import names one, and else the imported file. */
  ghost predicate KeyComesFrom(imported: Imported, f: Field, file: string) {
    file == if f in imported.keyPaths then imported.keyPaths[f] else imported.path
  }

  /** The file behind a field of a config file: the file itself if its own entry sets it, and else that of the import. */
  ghost predicate ComesFrom(source: Source, piProjectNames: set<string>, name: string, f: Field, file: string) {
    if OwnSets(source, piProjectNames, name, f) then file == source.path
    else ComesFromImport(source, name, f, file)
  }

  ghost predicate Traces(servers: TracedMap, name: string, f: Field) { name in servers && f in servers[name].from }

  ghost predicate ComesFromImport(source: Source, name: string, f: Field, file: string) {
    exists k: nat :: ImportSets(source, k, name, f) && KeyComesFrom(source.imports[k][name], f, file)
  }

  /** Each key of an import is traced to its own file. */
  lemma ImportedFile(source: Source, name: string, f: Field)
    requires Traces(TracedImports(ImportedServers(source.imports)), name, f)
    ensures ComesFromImport(source, name, f, TracedImports(ImportedServers(source.imports))[name].from[f])
  {
    FirstImportWins(source.imports, name);
    var k: nat :| FirstListedBy(source.imports, k, name);
    assert ImportSets(source, k, name, f);
  }

  lemma OwnFile(source: Source, piProjectNames: set<string>, name: string, f: Field)
    ensures var own := TracedOwn(OwnServers(source, piProjectNames), source.path);
      && (Traces(own, name, f) <==> OwnSets(source, piProjectNames, name, f))
      && (Traces(own, name, f) ==> own[name].from[f] == source.path)
  {}

  lemma HostFile(host: ServerMap, paths: map<string, string>, name: string, f: Field)
    ensures Traces(TracedHost(host, paths), name, f) <==> Lists(host, name, f)
    ensures Lists(host, name, f) ==>
      TracedHost(host, paths)[name].from[f] == if name in paths then paths[name] else "a host config"
  {}

  /** The file of a field that two merged maps trace. */
  ghost predicate MergesTrace(base: TracedMap, next: TracedMap, merged: TracedMap, name: string, f: Field) {
    Traces(merged, name, f) ==>
      if Traces(next, name, f) then merged[name].from[f] == next[name].from[f]
      else Traces(base, name, f) && merged[name].from[f] == base[name].from[f]
  }

  lemma TracedMapsField(base: TracedMap, next: TracedMap, name: string, f: Field)
    requires ValidMap(base) && ValidMap(next)
    ensures MergesTrace(base, next, TracedMaps(base, next), name, f)
  {
    if name in next {
      MergedField(TracedOf(base, name).entry, next[name].entry, f);
    }
  }

  lemma TracedFileField(source: Source, piProjectNames: set<string>, name: string, f: Field)
    ensures MergesTrace(TracedImports(ImportedServers(source.imports)),
                        TracedOwn(OwnServers(source, piProjectNames), source.path),
                        TracedFile(source, piProjectNames), name, f)
  {
    TracedMapsField(TracedImports(ImportedServers(source.imports)),
                    TracedOwn(OwnServers(source, piProjectNames), source.path), name, f);
  }

  lemma FileFieldFile(source: Source, piProjectNames: set<string>, name: string, f: Field)
    requires Traces(TracedFile(source, piProjectNames), name, f)
    ensures ComesFrom(source, piProjectNames, name, f, TracedFile(source, piProjectNames)[name].from[f])
  {
    OwnFile(source, piProjectNames, name, f);
    TracedFileField(source, piProjectNames, name, f);
    if !OwnSets(source, piProjectNames, name, f) {
      ImportedFile(source, name, f);
    }
  }

  /** A loaded field is traced to the file behind it in the last config file that sets it, or to the host's. */
  ghost predicate TracedToLastFile(host: TracedMap, sources: seq<Source>, piProjectNames: set<string>, loaded: TracedMap,
                                   name: string, f: Field)
  {
    Traces(loaded, name, f) ==>
      && (NoFileSets(AllFiles(sources, piProjectNames), name, f) ==>
          Traces(host, name, f) && loaded[name].from[f] == host[name].from[f])
      && (forall i: nat :: HasLastWord(AllFiles(sources, piProjectNames), name, f, i) ==>
          ComesFrom(sources[i], piProjectNames, name, f, loaded[name].from[f]))
  }

  lemma UntracedFile(source: Source, piProjectNames: set<string>)
    requires Unmarked(source.own)
    ensures Untraced(TracedFile(source, piProjectNames)) == FileServers(source, piProjectNames)
  {
    UntracedMaps(TracedImports(ImportedServers(source.imports)), TracedOwn(OwnServers(source, piProjectNames), source.path));
    OverNoImports(source, piProjectNames);
  }

  lemma LastFileStep(host: TracedMap, sources: seq<Source>, source: Source, piProjectNames: set<string>,
                     before: TracedMap, next: TracedMap, loaded: TracedMap, name: string, f: Field)
    requires TracedToLastFile(host, sources, piProjectNames, before, name, f)
    requires MergesTrace(before, next, loaded, name, f)
    requires Traces(next, name, f) <==> Lists(FileServers(source, piProjectNames), name, f)
    requires Traces(next, name, f) ==> ComesFrom(source, piProjectNames, name, f, next[name].from[f])
    ensures TracedToLastFile(host, sources + [source], piProjectNames, loaded, name, f)
  {
    var files := AllFiles(sources, piProjectNames);
    var servers := FileServers(source, piProjectNames);
    assert (sources + [source])[..|sources|] == sources;
    assert AllFiles(sources + [source], piProjectNames) == files + [servers];
    NoMoreFileSets(files, servers, name, f);
    if Traces(loaded, name, f) {
      forall i: nat | HasLastWord(files + [servers], name, f, i)
        ensures ComesFrom((sources + [source])[i], piProjectNames, name, f, loaded[name].from[f])
      {
        LastWordBefore(files, servers, name, f, i);
      }
    }
  }

  lemma FileIsTraced(source: Source, piProjectNames: set<string>, name: string, f: Field)
    requires Unmarked(source.own)
    ensures Traces(TracedFile(source, piProjectNames), name, f) <==> Lists(FileServers(source, piProjectNames), name, f)
  {
    var servers := TracedFile(source, piProjectNames);
    UntracedFile(source, piProjectNames);
    assert name in servers <==> name in Untraced(servers);
  }

  lemma OneMoreFile(host: TracedMap, sources: seq<Source>, source: Source, piProjectNames: set<string>, name: string, f: Field)
    requires ValidMap(host) && Unmarked(source.own)
    requires TracedToLastFile(host, sources, piProjectNames, TracedLoaded(host, sources, piProjectNames), name, f)
    ensures TracedToLastFile(host, sources + [source], piProjectNames,
                             TracedLoaded(host, sources + [source], piProjectNames), name, f)
  {
    var before, next := TracedLoaded(host, sources, piProjectNames), TracedFile(source, piProjectNames);
    TracedMapsField(before, next, name, f);
    FileIsTraced(source, piProjectNames, name, f);
    if Traces(next, name, f) {
      FileFieldFile(source, piProjectNames, name, f);
    }
    LastFileStep(host, sources, source, piProjectNames, before, next, TracedMaps(before, next), name, f);
    assert (sources + [source])[..|sources|] == sources;
  }

  lemma {:induction false} LastFileIsTraced(host: TracedMap, sources: seq<Source>, piProjectNames: set<string>, name: string, f: Field)
    requires ValidMap(host) && forall i :: 0 <= i < |sources| ==> Unmarked(sources[i].own)
    ensures TracedToLastFile(host, sources, piProjectNames, TracedLoaded(host, sources, piProjectNames), name, f)
  {
    if sources != [] {
      var rest, source := sources[..|sources| - 1], sources[|sources| - 1];
      assert sources == rest + [source];
      LastFileIsTraced(host, rest, piProjectNames, name, f);
      OneMoreFile(host, rest, source, piProjectNames, name, f);
    }
  }

  ghost predicate Reports(notices: set<Notice>, name: string, f: Field) {
    exists n :: n in notices && n.name == name && n.field == f
  }

  /** One server of one map loses a credential to the other map. */
  ghost predicate LosesIn(base: ServerMap, next: ServerMap, name: string, f: Field) {
    name in base && name in next && LosesCredential(base[name], next[name], f)
  }

  lemma DropsAreReported(base: TracedMap, next: TracedMap, name: string, f: Field)
    requires ValidMap(base) && ValidMap(next)
    ensures Reports(UrlDrops(base, next), name, f) <==> LosesIn(Untraced(base), Untraced(next), name, f)
    ensures forall n :: n in UrlDrops(base, next) ==>
      && Traces(base, n.name, n.field) && n.file == base[n.name].from[n.field]
      && Traces(next, n.name, Url) && n.urlFile == next[n.name].from[Url]
  {
    if LosesIn(Untraced(base), Untraced(next), name, f) {
      assert Notice(name, f, base[name].from[f], next[name].from[Url]) in UrlDrops(base, next);
    }
  }

  lemma DropsOfAllButLast(host: TracedMap, sources: seq<Source>, piProjectNames: set<string>)
    requires ValidMap(host) && sources != []
    ensures var rest := AllUrlDrops(host, sources[..|sources| - 1], piProjectNames);
      AllUrlDrops(host, sources, piProjectNames)[..|rest|] == rest
  {}

  lemma SamePrefix<T>(all: seq<T>, first: seq<T>, n: nat)
    requires n <= |first| <= |all| && all[..|first|] == first
    ensures all[..n] == first[..n]
  {}

  lemma {:induction false} DropsOfFirstFiles(host: TracedMap, sources: seq<Source>, piProjectNames: set<string>, i: nat)
    requires ValidMap(host) && i <= |sources|
    ensures AllUrlDrops(host, sources, piProjectNames)[..2 * i] == AllUrlDrops(host, sources[..i], piProjectNames)
  {
    if i == |sources| {
      assert sources[..i] == sources;
    } else {
      var rest := sources[..|sources| - 1];
      DropsOfFirstFiles(host, rest, piProjectNames, i);
      assert rest[..i] == sources[..i];
      DropsOfAllButLast(host, sources, piProjectNames);
      SamePrefix(AllUrlDrops(host, sources, piProjectNames), AllUrlDrops(host, rest, piProjectNames), 2 * i);
    }
  }

  lemma DropsOfFile(host: TracedMap, sources: seq<Source>, piProjectNames: set<string>, i: nat)
    requires ValidMap(host) && i < |sources|
    ensures var all := AllUrlDrops(host, sources, piProjectNames);
      && all[2 * i] == UrlDrops(TracedImports(ImportedServers(sources[i].imports)),
                                TracedOwn(OwnServers(sources[i], piProjectNames), sources[i].path))
      && all[2 * i + 1] == UrlDrops(TracedLoaded(host, sources[..i], piProjectNames), TracedFile(sources[i], piProjectNames))
  {
    var all, first := AllUrlDrops(host, sources, piProjectNames), AllUrlDrops(host, sources[..i + 1], piProjectNames);
    DropsOfFirstFiles(host, sources, piProjectNames, i + 1);
    assert all[2 * i] == first[2 * i] && all[2 * i + 1] == first[2 * i + 1];
    assert sources[..i + 1][..i] == sources[..i];
  }

  lemma {:induction false} UntracedLoaded(host: ServerMap, paths: map<string, string>, sources: seq<Source>, piProjectNames: set<string>)
    requires forall i :: 0 <= i < |sources| ==> Unmarked(sources[i].own)
    ensures Untraced(TracedLoaded(TracedHost(host, paths), sources, piProjectNames)) == Loaded(host, sources, piProjectNames)
  {
    if sources != [] {
      var rest, source := sources[..|sources| - 1], sources[|sources| - 1];
      UntracedLoaded(host, paths, rest, piProjectNames);
      UntracedFile(source, piProjectNames);
      UntracedMaps(TracedLoaded(TracedHost(host, paths), rest, piProjectNames), TracedFile(source, piProjectNames));
    }
  }

  /** What a file makes its own imports lose, with the file of the lost key. */
  ghost predicate TellsOfImports(notices: set<Notice>, source: Source, piProjectNames: set<string>) {
    && (forall name, f :: Reports(notices, name, f) <==>
          LosesIn(Entries(ImportedServers(source.imports)), OwnServers(source, piProjectNames), name, f))
    && (forall n :: n in notices ==> ComesFromImport(source, n.name, n.field, n.file) && n.urlFile == source.path)
  }

  /** What a file makes the files before it lose, with the file behind the lost field and that behind the url. */
  ghost predicate TellsOfFiles(notices: set<Notice>, host: ServerMap, paths: map<string, string>, earlier: seq<Source>,
                               source: Source, piProjectNames: set<string>)
  {
    && (forall name, f :: Reports(notices, name, f) <==>
          LosesIn(Loaded(host, earlier, piProjectNames), FileServers(source, piProjectNames), name, f))
    && (forall n :: n in notices ==> NoticeIsTrue(n, paths, earlier, source, piProjectNames))
  }

  /** The file in a notice is the one behind the field in the last file that sets it, or else the host's. */
  ghost predicate NoticeIsTrue(n: Notice, paths: map<string, string>, earlier: seq<Source>, source: Source,
                               piProjectNames: set<string>)
  {
    var files := AllFiles(earlier, piProjectNames);
    && ComesFrom(source, piProjectNames, n.name, Url, n.urlFile)
    && (forall k: nat :: HasLastWord(files, n.name, n.field, k) ==>
          ComesFrom(earlier[k], piProjectNames, n.name, n.field, n.file))
    && (NoFileSets(files, n.name, n.field) ==> n.file == if n.name in paths then paths[n.name] else "a host config")
  }

  lemma ImportNoticesAreTrue(source: Source, piProjectNames: set<string>)
    ensures TellsOfImports(UrlDrops(TracedImports(ImportedServers(source.imports)),
                                    TracedOwn(OwnServers(source, piProjectNames), source.path)), source, piProjectNames)
  {
    var base, next := TracedImports(ImportedServers(source.imports)), TracedOwn(OwnServers(source, piProjectNames), source.path);
    forall name, f
      ensures Reports(UrlDrops(base, next), name, f) <==> LosesIn(Untraced(base), Untraced(next), name, f)
    {
      DropsAreReported(base, next, name, f);
    }
    forall n | n in UrlDrops(base, next) ensures ComesFromImport(source, n.name, n.field, n.file) && n.urlFile == source.path {
      DropsAreReported(base, next, n.name, n.field);
      ImportedFile(source, n.name, n.field);
      OwnFile(source, piProjectNames, n.name, Url);
    }
  }

  lemma OneNoticeIsTrue(n: Notice, host: ServerMap, paths: map<string, string>, earlier: seq<Source>, source: Source,
                        piProjectNames: set<string>)
    requires Unmarked(source.own) && forall i :: 0 <= i < |earlier| ==> Unmarked(earlier[i].own)
    requires n in UrlDrops(TracedLoaded(TracedHost(host, paths), earlier, piProjectNames), TracedFile(source, piProjectNames))
    ensures NoticeIsTrue(n, paths, earlier, source, piProjectNames)
  {
    DropsAreReported(TracedLoaded(TracedHost(host, paths), earlier, piProjectNames), TracedFile(source, piProjectNames),
                     n.name, n.field);
    FileFieldFile(source, piProjectNames, n.name, Url);
    LastFileIsTraced(TracedHost(host, paths), earlier, piProjectNames, n.name, n.field);
    HostFile(host, paths, n.name, n.field);
  }

  lemma FileNoticesAreTrue(host: ServerMap, paths: map<string, string>, earlier: seq<Source>, source: Source,
                           piProjectNames: set<string>)
    requires Unmarked(source.own) && forall i :: 0 <= i < |earlier| ==> Unmarked(earlier[i].own)
    ensures TellsOfFiles(UrlDrops(TracedLoaded(TracedHost(host, paths), earlier, piProjectNames),
                                  TracedFile(source, piProjectNames)), host, paths, earlier, source, piProjectNames)
  {
    var base, next := TracedLoaded(TracedHost(host, paths), earlier, piProjectNames), TracedFile(source, piProjectNames);
    UntracedLoaded(host, paths, earlier, piProjectNames);
    UntracedFile(source, piProjectNames);
    forall name, f
      ensures Reports(UrlDrops(base, next), name, f) <==> LosesIn(Untraced(base), Untraced(next), name, f)
    {
      DropsAreReported(base, next, name, f);
    }
    forall n | n in UrlDrops(base, next) ensures NoticeIsTrue(n, paths, earlier, source, piProjectNames) {
      OneNoticeIsTrue(n, host, paths, earlier, source, piProjectNames);
    }
  }

  /**
   The notices of the replay, told without it: one for each credential that a file takes from its imports or from the
   files before it, with the file that set it last and the file that sets the new url.
   */
  lemma NoticesAreTrue(host: ServerMap, paths: map<string, string>, sources: seq<Source>, piProjectNames: set<string>, i: nat)
    requires i < |sources| && forall k :: 0 <= k < |sources| ==> Unmarked(sources[k].own)
    ensures var notices := AllUrlDrops(TracedHost(host, paths), sources, piProjectNames);
      && |notices| == 2 * |sources|
      && TellsOfImports(notices[2 * i], sources[i], piProjectNames)
      && TellsOfFiles(notices[2 * i + 1], host, paths, sources[..i], sources[i], piProjectNames)
  {
    DropsOfFile(TracedHost(host, paths), sources, piProjectNames, i);
    ImportNoticesAreTrue(sources[i], piProjectNames);
    FileNoticesAreTrue(host, paths, sources[..i], sources[i], piProjectNames);
  }
}
