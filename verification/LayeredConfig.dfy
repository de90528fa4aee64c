/**
 How the loader merges server entries from many files (`mergeServerMaps`, `expandImports` and the fold of
 `loadMcpConfigWithSources`), and the replay of the same merges that reports dropped credentials
 (`getDroppedCredentialNotices`).
 */
module LayeredConfig {
  import opened Options
  import opened ServerEntries
  import opened MergeTrees

  /** An entry of an imported file, with the file that set each of its keys where that is not the file itself. */
  datatype Imported = Imported(entry: Entry, path: string, keyPaths: map<Field, string>)

  /** One config file: what each of its imports lists, and its own servers. */
  datatype Source = Source(path: string, isPiGlobal: bool, imports: seq<map<string, Imported>>, own: ServerMap)

  // ----- merging server maps -----

  function EntryOf(servers: ServerMap, name: string): Entry {
    if name in servers then servers[name] else NO_FIELDS
  }

  function MergedMaps(base: ServerMap, next: ServerMap): ServerMap {
    map name | name in base.Keys + next.Keys ::
      if name in next then Merged(EntryOf(base, name), next[name]) else base[name]
  }

  lemma MergeOneMore(base: ServerMap, next: ServerMap, name: string, definition: Entry)
    requires name !in next
    ensures MergedMaps(base, next[name := definition]) == MergedMaps(base, next)[name := Merged(EntryOf(base, name), definition)]
  {}

  lemma MergeNothing(base: ServerMap)
    ensures MergedMaps(base, map[]) == base
  {}

  method MergeServerMaps(base: ServerMap, next: ServerMap) returns (merged: ServerMap)
    ensures merged == MergedMaps(base, next)
  {
    merged := base;
    var names := next.Keys;
    ghost var done: ServerMap := map[];
    MergeNothing(base);
    while names != {}
      invariant names <= next.Keys && done == next - names
      invariant merged == MergedMaps(base, done)
      decreases names
    {
      var name :| name in names;
      assert name !in done && (name in merged <==> name in base) && EntryOf(merged, name) == EntryOf(base, name);
      var entry := MergeEntry(if name in merged then Some(merged[name]) else None, next[name]);
      MergeOneMore(base, done, name, next[name]);
      merged, done := merged[name := entry], done[name := next[name]];
      names := names - {name};
    }
    assert done == next;
  }

  // ----- one file over its imports, and file over file -----

  /** The imported entries: of two imports that list a server, the first is used. */
  function ImportedServers(imports: seq<map<string, Imported>>): map<string, Imported> {
    if imports == [] then map[]
    else
      var last := |imports| - 1;
      imports[last] + ImportedServers(imports[..last])
  }

  function Entries(imported: map<string, Imported>): ServerMap {
    map name | name in imported :: imported[name].entry
  }

  function OwnServers(source: Source, piProjectNames: set<string>): ServerMap {
    if source.isPiGlobal then source.own - piProjectNames else source.own
  }

  /** The servers of `expandImports`. */
  function FileServers(source: Source, piProjectNames: set<string>): ServerMap {
    var own := OwnServers(source, piProjectNames);
    if source.imports == [] then own else MergedMaps(Entries(ImportedServers(source.imports)), own)
  }

  /** The servers after the fold over the files. */
  function Loaded(host: ServerMap, sources: seq<Source>, piProjectNames: set<string>): ServerMap {
    if sources == [] then host
    else
      var last := |sources| - 1;
      MergedMaps(Loaded(host, sources[..last], piProjectNames), FileServers(sources[last], piProjectNames))
  }

  method ExpandImports(source: Source, own: ServerMap) returns (servers: ServerMap)
    ensures servers == if source.imports == [] then own else MergedMaps(Entries(ImportedServers(source.imports)), own)
  {
    if source.imports == [] { return own; }
    var imported: map<string, Imported> := map[];
    for i := 0 to |source.imports|
      invariant imported == ImportedServers(source.imports[..i])
    {
      var listed := source.imports[i];
      imported := listed + imported;
      assert source.imports[..i + 1][..i] == source.imports[..i];
    }
    assert source.imports[..|source.imports|] == source.imports;
    servers := MergeServerMaps(Entries(imported), own);
  }

  method LoadServers(host: ServerMap, sources: seq<Source>, piProjectNames: set<string>) returns (config: ServerMap)
    ensures config == Loaded(host, sources, piProjectNames)
  {
    config := host;
    for i := 0 to |sources|
      invariant config == Loaded(host, sources[..i], piProjectNames)
    {
      var own := OwnServers(sources[i], piProjectNames);
      var expanded := ExpandImports(sources[i], own);
      config := MergeServerMaps(config, expanded);
      assert sources[..i + 1][..i] == sources[..i];
    }
    assert sources[..|sources|] == sources;
  }

  /** What the loader makes of the files and of the servers that plugins and packages bring. */
  function FinalServers(loaded: ServerMap, plugins: ServerMap, packages: ServerMap, claudeDefaults: ServerMap): ServerMap {
    MergedMaps(claudeDefaults, MergedMaps(packages - plugins.Keys, MergedMaps(plugins, loaded)))
  }

  // ----- who has the last word on a field -----

  predicate Lists(servers: ServerMap, name: string, f: Field) { name in servers && f in servers[name].fields }

  /** A file's own entry sets the field. Pi's global file is not heard on the servers of Pi's project file. */
  predicate OwnSets(source: Source, piProjectNames: set<string>, name: string, f: Field) {
    name in source.own && !(source.isPiGlobal && name in piProjectNames) && f in source.own[name].fields
  }

  /** Import number `k` is the first that lists the server, and sets the field. */
  ghost predicate ImportSets(source: Source, k: nat, name: string, f: Field) {
    && k < |source.imports| && name in source.imports[k] && f in source.imports[k][name].entry.fields
    && forall m :: 0 <= m < k ==> name !in source.imports[m]
  }

  ghost predicate FileGives(source: Source, piProjectNames: set<string>, name: string, f: Field, v: Value) {
    if OwnSets(source, piProjectNames, name, f) then v == source.own[name].fields[f]
    else exists k: nat :: ImportSets(source, k, name, f) && v == source.imports[k][name].entry.fields[f]
  }

  ghost predicate FirstListedBy(imports: seq<map<string, Imported>>, k: nat, name: string) {
    k < |imports| && name in imports[k] && forall m :: 0 <= m < k ==> name !in imports[m]
  }

  /** Of the imports that list a server, the first is used, and no other one. */
  lemma {:induction false} FirstImportWins(imports: seq<map<string, Imported>>, name: string)
    ensures name in ImportedServers(imports) <==> exists k: nat :: FirstListedBy(imports, k, name)
    ensures forall k: nat :: FirstListedBy(imports, k, name) ==> ImportedServers(imports)[name] == imports[k][name]
  {
    if imports != [] {
      var last := |imports| - 1;
      FirstImportWins(imports[..last], name);
      if name in ImportedServers(imports[..last]) {
        var k: nat :| FirstListedBy(imports[..last], k, name);
        assert FirstListedBy(imports, k, name);
      } else if name in imports[last] {
        forall m: nat | m < last ensures name !in imports[m] {
          if name in imports[m] {
            var k := FirstListing(imports[..last], m, name);
            assert false;
          }
        }
        assert FirstListedBy(imports, last, name);
      }
      forall k: nat | FirstListedBy(imports, k, name) && k < last ensures FirstListedBy(imports[..last], k, name) {}
    }
  }

  lemma {:induction false} FirstListing(imports: seq<map<string, Imported>>, m: nat, name: string) returns (k: nat)
    requires m < |imports| && name in imports[m]
    ensures FirstListedBy(imports, k, name)
    decreases m
  {
    if p: nat :| p < m && name in imports[p] {
      k := FirstListing(imports, p, name);
    } else {
      k := m;
    }
  }

  lemma ImportedField(source: Source, name: string, f: Field)
    ensures var imported := Entries(ImportedServers(source.imports));
      && (Lists(imported, name, f) ==>
          exists k: nat :: ImportSets(source, k, name, f) && imported[name].fields[f] == source.imports[k][name].entry.fields[f])
      && ((exists k: nat :: ImportSets(source, k, name, f)) ==> Lists(imported, name, f))
  {
    FirstImportWins(source.imports, name);
    if k: nat :| ImportSets(source, k, name, f) {
      assert FirstListedBy(source.imports, k, name);
    }
    if Lists(Entries(ImportedServers(source.imports)), name, f) {
      var k: nat :| FirstListedBy(source.imports, k, name);
      assert ImportSets(source, k, name, f);
    }
  }

  /** What a file says of a field: as its own entry sets it, or else as its first import that lists the server does. */
  lemma FileFieldIsGiven(source: Source, piProjectNames: set<string>, name: string, f: Field)
    ensures var servers := FileServers(source, piProjectNames);
      Lists(servers, name, f) ==> FileGives(source, piProjectNames, name, f, servers[name].fields[f])
    ensures f.Other? ==>
      (Lists(FileServers(source, piProjectNames), name, f) <==>
       OwnSets(source, piProjectNames, name, f) || exists k: nat :: ImportSets(source, k, name, f))
  {
    ImportedField(source, name, f);
    if source.imports != [] {
      MergedMapsField(Entries(ImportedServers(source.imports)), OwnServers(source, piProjectNames), name, f);
    }
  }

  lemma MergedField(existing: Entry, definition: Entry, f: Field)
    ensures var merged := Merged(existing, definition);
      && (f in definition.fields ==> f in merged.fields && merged.fields[f] == definition.fields[f])
      && (f in merged.fields && f !in definition.fields ==> f in existing.fields && merged.fields[f] == existing.fields[f])
      && (f.Other? && f in existing.fields ==> f in merged.fields)
  {
    MergedIsMerge(existing, definition);
    MergeKeepsTheRest(existing, definition, Merged(existing, definition), f);
  }

  /** What a merge makes of one field of one server, of maps that are merged. */
  ghost predicate MergesFieldOf(base: ServerMap, next: ServerMap, merged: ServerMap, name: string, f: Field) {
    && (Lists(next, name, f) ==> Lists(merged, name, f) && merged[name].fields[f] == next[name].fields[f])
    && (Lists(merged, name, f) && !Lists(next, name, f) ==> Lists(base, name, f) && merged[name].fields[f] == base[name].fields[f])
    && (f.Other? && Lists(base, name, f) ==> Lists(merged, name, f))
  }

  lemma MergedMapsField(base: ServerMap, next: ServerMap, name: string, f: Field)
    ensures MergesFieldOf(base, next, MergedMaps(base, next), name, f)
  {
    if name in next {
      MergedField(EntryOf(base, name), next[name], f);
    }
  }

  /** The servers of each file. */
  ghost function AllFiles(sources: seq<Source>, piProjectNames: set<string>): (files: seq<ServerMap>)
    ensures |files| == |sources|
    ensures forall i :: 0 <= i < |sources| ==> files[i] == FileServers(sources[i], piProjectNames)
  {
    if sources == [] then []
    else AllFiles(sources[..|sources| - 1], piProjectNames) + [FileServers(sources[|sources| - 1], piProjectNames)]
  }

  /** File number `i` sets the field, and none after it does. */
  ghost predicate HasLastWord(files: seq<ServerMap>, name: string, f: Field, i: nat) {
    i < |files| && Lists(files[i], name, f) && forall m :: i < m < |files| ==> !Lists(files[m], name, f)
  }

  ghost predicate NoFileSets(files: seq<ServerMap>, name: string, f: Field) {
    forall m :: 0 <= m < |files| ==> !Lists(files[m], name, f)
  }

  /**
   A loaded field is as the last file that sets it has it, and as the host's config has it where no file does. A field
   that no merge forgets is there if any of them sets it.
   */
  ghost predicate FollowsLastWord(host: ServerMap, files: seq<ServerMap>, loaded: ServerMap, name: string, f: Field) {
    && (f.Other? && (Lists(host, name, f) || !NoFileSets(files, name, f)) ==> Lists(loaded, name, f))
    && (Lists(loaded, name, f) && NoFileSets(files, name, f) ==>
        Lists(host, name, f) && loaded[name].fields[f] == host[name].fields[f])
    && (forall i: nat :: Lists(loaded, name, f) && HasLastWord(files, name, f, i) ==>
        loaded[name].fields[f] == files[i][name].fields[f])
  }

  lemma NoMoreFileSets(files: seq<ServerMap>, next: ServerMap, name: string, f: Field)
    ensures NoFileSets(files + [next], name, f) <==> NoFileSets(files, name, f) && !Lists(next, name, f)
  {
    var all := files + [next];
    assert all[|files|] == next && forall m :: 0 <= m < |files| ==> all[m] == files[m];
  }

  lemma LastWordBefore(files: seq<ServerMap>, next: ServerMap, name: string, f: Field, i: nat)
    requires HasLastWord(files + [next], name, f, i)
    ensures if i == |files| then Lists(next, name, f) else HasLastWord(files, name, f, i) && !Lists(next, name, f)
  {
    var all := files + [next];
    assert all[|files|] == next && forall m :: 0 <= m < |files| ==> all[m] == files[m];
  }

  lemma LastWordStep(host: ServerMap, files: seq<ServerMap>, before: ServerMap, next: ServerMap, loaded: ServerMap,
                     name: string, f: Field)
    requires FollowsLastWord(host, files, before, name, f) && MergesFieldOf(before, next, loaded, name, f)
    ensures FollowsLastWord(host, files + [next], loaded, name, f)
  {
    NoMoreFileSets(files, next, name, f);
    forall i: nat | Lists(loaded, name, f) && HasLastWord(files + [next], name, f, i)
      ensures loaded[name].fields[f] == (files + [next])[i][name].fields[f]
    {
      LastWordBefore(files, next, name, f, i);
    }
  }

  lemma {:induction false} LastFileWins(host: ServerMap, sources: seq<Source>, piProjectNames: set<string>, name: string, f: Field)
    ensures FollowsLastWord(host, AllFiles(sources, piProjectNames), Loaded(host, sources, piProjectNames), name, f)
  {
    if sources != [] {
      var last := |sources| - 1;
      var before := Loaded(host, sources[..last], piProjectNames);
      var next := FileServers(sources[last], piProjectNames);
      LastFileWins(host, sources[..last], piProjectNames, name, f);
      MergedMapsField(before, next, name, f);
      LastWordStep(host, AllFiles(sources[..last], piProjectNames), before, next, MergedMaps(before, next), name, f);
    }
  }

  /**
   Files come before plugins, plugins before packages, and those before Claude's defaults. A package is not heard on a
   server of a plugin at all.
   */
  lemma FinalPrecedence(loaded: ServerMap, plugins: ServerMap, packages: ServerMap, claudeDefaults: ServerMap,
                        name: string, f: Field)
    requires f.Other?
    ensures var servers := FinalServers(loaded, plugins, packages, claudeDefaults);
      if Lists(loaded, name, f) then Lists(servers, name, f) && servers[name].fields[f] == loaded[name].fields[f]
      else if Lists(plugins, name, f) then Lists(servers, name, f) && servers[name].fields[f] == plugins[name].fields[f]
      else if name !in plugins && Lists(packages, name, f) then
        Lists(servers, name, f) && servers[name].fields[f] == packages[name].fields[f]
      else if Lists(claudeDefaults, name, f) then
        Lists(servers, name, f) && servers[name].fields[f] == claudeDefaults[name].fields[f]
      else !Lists(servers, name, f)
  {
    var withPlugins := MergedMaps(plugins, loaded);
    var withPackages := MergedMaps(packages - plugins.Keys, withPlugins);
    MergedMapsField(plugins, loaded, name, f);
    MergedMapsField(packages - plugins.Keys, withPlugins, name, f);
    MergedMapsField(claudeDefaults, withPackages, name, f);
  }

  // ----- the loader's result is a tree of merges -----

  ghost function MergeLayers(base: Layers, next: Layers): (layers: Layers)
    requires base.Valid() && next.Valid()
    ensures layers.Valid() && layers.result == Merged(base.result, next.result)
  {
    MergedIsMerge(base.result, next.result);
    Over(base, next, Merged(base.result, next.result))
  }

  /** The tree of merges behind one server of one file. */
  ghost function FileLayers(source: Source, piProjectNames: set<string>, name: string): (layers: Layers)
    ensures layers.Valid()
    ensures layers.result == EntryOf(FileServers(source, piProjectNames), name)
  {
    var own := OwnServers(source, piProjectNames);
    var imported := Entries(ImportedServers(source.imports));
    if source.imports == [] then Given(EntryOf(own, name))
    else if name !in own then Given(EntryOf(imported, name))
    else MergeLayers(Given(EntryOf(imported, name)), Given(own[name]))
  }

  /** The tree of merges behind one server of all files together. */
  ghost function LoadedLayers(host: ServerMap, sources: seq<Source>, piProjectNames: set<string>, name: string): (layers: Layers)
    ensures layers.Valid()
    ensures layers.result == EntryOf(Loaded(host, sources, piProjectNames), name)
  {
    if sources == [] then Given(EntryOf(host, name))
    else
      var last := |sources| - 1;
      var base := LoadedLayers(host, sources[..last], piProjectNames, name);
      if name !in FileServers(sources[last], piProjectNames) then base
      else MergeLayers(base, FileLayers(sources[last], piProjectNames, name))
  }

  /** The tree of merges behind one server of the final config, from the tree of its files. */
  ghost function FinalLayers(loaded: ServerMap, plugins: ServerMap, packages: ServerMap, claudeDefaults: ServerMap,
                             name: string, files: Layers): (layers: Layers)
    requires files.Valid() && files.result == EntryOf(loaded, name)
    ensures layers.Valid()
    ensures layers.result == EntryOf(FinalServers(loaded, plugins, packages, claudeDefaults), name)
  {
    var kept := packages - plugins.Keys;
    var withPlugins := if name in loaded then MergeLayers(Given(EntryOf(plugins, name)), files)
                       else Given(EntryOf(plugins, name));
    var withPackages := if name in MergedMaps(plugins, loaded) then MergeLayers(Given(EntryOf(kept, name)), withPlugins)
                        else Given(EntryOf(kept, name));
    if name in MergedMaps(kept, MergedMaps(plugins, loaded)) then MergeLayers(Given(EntryOf(claudeDefaults, name)), withPackages)
    else Given(EntryOf(claudeDefaults, name))
  }

  /**
   The loader, for any files, imports, plugins and packages: a url-bound credential in the final config is that of
   exactly one entry of one of them, and from there to the final config it met no url but the one it is used with,
   unless a `url` that is not text was merged over it. There is none where the final url is text, or left out.
   */
  lemma LoadedCredentialsStayWithTheirUrl(host: ServerMap, sources: seq<Source>, piProjectNames: set<string>,
      plugins: ServerMap, packages: ServerMap, claudeDefaults: ServerMap, name: string, f: Field)
    returns (layers: Layers, i: nat)
    requires var servers := FinalServers(Loaded(host, sources, piProjectNames), plugins, packages, claudeDefaults);
      && name in servers
      && f in servers[name].fields && IsForOneUrl(f, servers[name].fields[f])
    ensures var loaded := Loaded(host, sources, piProjectNames);
      && layers == FinalLayers(loaded, plugins, packages, claudeDefaults, name,
                               LoadedLayers(host, sources, piProjectNames, name))
      && Supplies(layers, i, f) && i < layers.Count()
      && (KeptItsUrl(layers, i) <==> NoOddUrlOver(layers, i))
      && (HasUsableUrl(layers.result) ==> KeptItsUrl(layers, i))
      && Get(layers.Entry(i), f) == Get(FinalServers(loaded, plugins, packages, claudeDefaults)[name], f)
  {
    var loaded := Loaded(host, sources, piProjectNames);
    layers := FinalLayers(loaded, plugins, packages, claudeDefaults, name, LoadedLayers(host, sources, piProjectNames, name));
    i := SupplierExists(layers, f);
    SupplierGivesValue(layers, i, f);
    CredentialsKeepTheirUrlIff(layers, i, f);
    if HasUsableUrl(layers.result) {
      CredentialsStayWithTheirUrl(layers, i, f);
    }
  }
}
