/**
 `writeProjectServerDisabledOverride`: switching one server off or on in the project's own file, the last file the
 loader reads, without copying anything into it. To switch a server on, the writer looks at the other files itself.
 */
module DisabledOverride {
  import opened Options
  import opened ServerEntries
  import opened LayeredConfig

  const DISABLED := Field.Other("disabled")

  function Flag(e: Entry): Option<Value> { Get(e, DISABLED) }

  /** `isServerDisabled`. */
  predicate IsDisabled(e: Entry) {
    Field.Other("disabled") in e.fields && e.fields[Field.Other("disabled")] == Value.Flag(true)
  }

  /** What all files but the project's own entries give: the merges of the writer. */
  function WritersView(others: seq<Source>, project: Source): ServerMap {
    MergedMaps(Loaded(map[], others, {}), Entries(ImportedServers(project.imports)))
  }

  /** Everything the loader merges, from plugins and packages to all files. */
  datatype World = World(
    host: ServerMap, others: seq<Source>, piProjectNames: set<string>,
    plugins: ServerMap, packages: ServerMap, claudeDefaults: ServerMap)

  /** The final config with this project file. */
  function WithProject(w: World, project: Source): ServerMap {
    FinalServers(Loaded(w.host, w.others + [project], w.piProjectNames), w.plugins, w.packages, w.claudeDefaults)
  }

  // ----- the flag in merges -----

  function Later<T>(below: Option<T>, above: Option<T>): Option<T> { if above.Some? then above else below }

  /** No merge ever drops the flag: the last entry that has it decides. */
  lemma FlagOfMerge(base: ServerMap, next: ServerMap, name: string)
    ensures Flag(EntryOf(MergedMaps(base, next), name)) == Later(Flag(EntryOf(base, name)), Flag(EntryOf(next, name)))
  {
    if name in next {
      var existing, definition := EntryOf(base, name), next[name];
      MergedIsMerge(existing, definition);
      assert MergesField(existing, definition, Merged(existing, definition), DISABLED);
    }
  }

  lemma FlagOfFile(source: Source, piProjectNames: set<string>, name: string)
    ensures Flag(EntryOf(FileServers(source, piProjectNames), name)) ==
      Later(Flag(EntryOf(Entries(ImportedServers(source.imports)), name)),
            Flag(EntryOf(OwnServers(source, piProjectNames), name)))
  {
    FlagOfMerge(Entries(ImportedServers(source.imports)), OwnServers(source, piProjectNames), name);
  }

  function FinalFlag(w: World, loaded: Option<Value>, name: string): Option<Value> {
    Later(Flag(EntryOf(w.claudeDefaults, name)),
          Later(Flag(EntryOf(w.packages - w.plugins.Keys, name)), Later(Flag(EntryOf(w.plugins, name)), loaded)))
  }

  lemma FlagOfFinal(w: World, loaded: ServerMap, name: string)
    ensures Flag(EntryOf(FinalServers(loaded, w.plugins, w.packages, w.claudeDefaults), name)) ==
            FinalFlag(w, Flag(EntryOf(loaded, name)), name)
  {
    var withPlugins := MergedMaps(w.plugins, loaded);
    FlagOfMerge(w.plugins, loaded, name);
    FlagOfMerge(w.packages - w.plugins.Keys, withPlugins, name);
    FlagOfMerge(w.claudeDefaults, MergedMaps(w.packages - w.plugins.Keys, withPlugins), name);
  }

  /** The flag below the project's own entries, as the loader sees it. */
  function FlagBelow(w: World, project: Source, name: string): Option<Value> {
    FinalFlag(w, Later(Flag(EntryOf(Loaded(w.host, w.others, w.piProjectNames), name)),
                       Flag(EntryOf(Entries(ImportedServers(project.imports)), name))), name)
  }

  /** The project's own flag wins, and without one the flag below it does. */
  lemma ProjectFlagWins(w: World, project: Source, name: string)
    requires !project.isPiGlobal
    ensures Flag(EntryOf(WithProject(w, project), name)) == Later(FlagBelow(w, project, name), Flag(EntryOf(project.own, name)))
  {
    var loaded := Loaded(w.host, w.others, w.piProjectNames);
    var file := FileServers(project, w.piProjectNames);
    assert (w.others + [project])[..|w.others|] == w.others;
    FlagOfFile(project, w.piProjectNames, name);
    FlagOfMerge(loaded, file, name);
    FlagOfFinal(w, MergedMaps(loaded, file), name);
  }

  // ----- the writer -----

  /** The project file differs only in the flag of one server, whose entry goes when nothing is left of it. */
  ghost predicate SetsOnlyTheFlag(project: Source, written: Source, name: string, flag: Option<Value>) {
    && written == project.(own := written.own)
    && written.own - {name} == project.own - {name}
    && EntryOf(written.own, name).fields - {DISABLED} == EntryOf(project.own, name).fields - {DISABLED}
    && Flag(EntryOf(written.own, name)) == flag
    && (name in written.own && written.own[name].fields == map[] ==> written == project)
  }

  /** The project file with other fields for one server, or without the server. */
  function WithEntry(project: Source, name: string, next: map<Field, Value>): Source {
    project.(own := if next == map[] then project.own - {name}
                    else project.own[name := EntryOf(project.own, name).(fields := next)])
  }

  lemma WithEntrySetsOnlyTheFlag(project: Source, name: string, next: map<Field, Value>)
    requires next - {DISABLED} == EntryOf(project.own, name).fields - {DISABLED} && next != EntryOf(project.own, name).fields
    ensures SetsOnlyTheFlag(project, WithEntry(project, name, next), name, if DISABLED in next then Some(next[DISABLED]) else None)
    ensures WithEntry(project, name, next) != project
  {
    var written := WithEntry(project, name, next);
    assert EntryOf(written.own, name).fields == next;
  }

  /** The keys of an entry in the order in which its file lists them, which the code compares too. */
  ghost predicate IsOrderOf(order: seq<Field>, fields: map<Field, Value>) {
    && (forall f :: f in order <==> f in fields)
    && (forall i, j :: 0 <= i < j < |order| ==> order[i] != order[j])
  }

  function WithoutFlag(order: seq<Field>): (rest: seq<Field>)
    ensures forall f :: f in rest <==> f in order && f != DISABLED
    ensures |rest| <= |order|
  {
    if order == [] then []
    else if order[0] == DISABLED then WithoutFlag(order[1..])
    else [order[0]] + WithoutFlag(order[1..])
  }

  lemma NewFirst(first: Field, rest: seq<Field>)
    requires first !in rest && forall i, j :: 0 <= i < j < |rest| ==> rest[i] != rest[j]
    ensures forall i, j :: 0 <= i < j < |[first] + rest| ==> ([first] + rest)[i] != ([first] + rest)[j]
  {
    forall i, j | 0 <= i < j < |[first] + rest| ensures ([first] + rest)[i] != ([first] + rest)[j] {
      assert ([first] + rest)[j] == rest[j - 1];
      assert i > 0 ==> ([first] + rest)[i] == rest[i - 1];
    }
  }

  lemma {:induction false} WithoutFlagIsDistinct(order: seq<Field>)
    requires forall i, j :: 0 <= i < j < |order| ==> order[i] != order[j]
    ensures forall i, j :: 0 <= i < j < |WithoutFlag(order)| ==> WithoutFlag(order)[i] != WithoutFlag(order)[j]
    ensures DISABLED !in order ==> WithoutFlag(order) == order
  {
    if order != [] {
      WithoutFlagIsDistinct(order[1..]);
      if order[0] != DISABLED {
        NewFirst(order[0], WithoutFlag(order[1..]));
      }
    }
  }

  predicate FlagIsLast(order: seq<Field>) { order != [] && order[|order| - 1] == DISABLED }

  /** Taking the flag out and putting it last leaves an order alone only where it is last. */
  lemma {:induction false} FlagLast(order: seq<Field>)
    requires forall i, j :: 0 <= i < j < |order| ==> order[i] != order[j]
    requires DISABLED in order
    ensures WithoutFlag(order) + [DISABLED] == order <==> FlagIsLast(order)
  {
    var rest := order[1..];
    assert order == [order[0]] + rest;
    if order[0] == DISABLED {
      assert DISABLED !in rest;
      WithoutFlagIsDistinct(rest);
      if rest == [] {
        assert WithoutFlag(order) + [DISABLED] == order;
      } else {
        assert (rest + [DISABLED])[0] == rest[0] && order[|order| - 1] == rest[|rest| - 1];
      }
    } else {
      FlagLast(rest);
      var moved := WithoutFlag(rest) + [DISABLED];
      assert WithoutFlag(order) + [DISABLED] == [order[0]] + moved;
      assert ([order[0]] + moved)[1..] == moved;
    }
  }

  /** The order of the written entry. */
  function OrderAfter(order: seq<Field>, disabled: bool, seen: bool): seq<Field> {
    if disabled then if DISABLED in order then order else order + [DISABLED]
    else if seen then WithoutFlag(order) + [DISABLED]
    else WithoutFlag(order)
  }

  /** One key is listed somewhere before another. */
  ghost predicate IsBefore(order: seq<Field>, f: Field, g: Field) {
    order != [] && ((order[0] == f && g in order[1..]) || IsBefore(order[1..], f, g))
  }

  lemma {:induction false} WithoutFlagKeepsOrder(order: seq<Field>, f: Field, g: Field)
    requires f != DISABLED && g != DISABLED
    ensures IsBefore(WithoutFlag(order), f, g) <==> IsBefore(order, f, g)
  {
    if order != [] {
      WithoutFlagKeepsOrder(order[1..], f, g);
      assert order[0] != DISABLED ==> WithoutFlag(order)[1..] == WithoutFlag(order[1..]);
    }
  }

  lemma {:induction false} BeforeFlagAtEnd(order: seq<Field>, f: Field, g: Field)
    requires g != DISABLED
    ensures IsBefore(order + [DISABLED], f, g) <==> IsBefore(order, f, g)
  {
    if order != [] {
      BeforeFlagAtEnd(order[1..], f, g);
      assert (order + [DISABLED])[1..] == order[1..] + [DISABLED];
    }
  }

  /** The other keys stay in their order, and the flag is written in its place, at the end, or not at all. */
  lemma OtherKeysKeepTheirOrder(order: seq<Field>, disabled: bool, seen: bool, f: Field, g: Field)
    requires f != DISABLED && g != DISABLED
    ensures var after := OrderAfter(order, disabled, seen);
      && (IsBefore(after, f, g) <==> IsBefore(order, f, g))
      && (DISABLED in after <==> disabled || seen)
      && (disabled && DISABLED in order ==> after == order)
      && ((disabled && DISABLED !in order) || (!disabled && seen) ==> after[|after| - 1] == DISABLED)
  {
    WithoutFlagKeepsOrder(order, f, g);
    BeforeFlagAtEnd(order, f, g);
    BeforeFlagAtEnd(WithoutFlag(order), f, g);
  }

  /** Only the order changes where a server is switched on that already says so, and says something else last. */
  lemma OnlyOrderChanges(order: seq<Field>, fields: map<Field, Value>, disabled: bool, seen: bool, next: map<Field, Value>)
    requires IsOrderOf(order, fields)
    requires next == if disabled then fields[DISABLED := Value.Flag(true)]
                     else if seen then (fields - {DISABLED})[DISABLED := Value.Flag(false)] else fields - {DISABLED}
    ensures IsOrderOf(OrderAfter(order, disabled, seen), next)
    ensures next == fields ==>
      (OrderAfter(order, disabled, seen) != order <==> !disabled && seen && !FlagIsLast(order))
  {
    WithoutFlagIsDistinct(order);
    if DISABLED in order {
      assert DISABLED in fields;
      FlagLast(order);
    } else {
      assert next != fields || (!disabled && !seen);
    }
  }

  /**
   Only the flag of the one server is set. The file is written if and only if that changes an entry, or the place of
   a flag that is `false` already and must be so.
   */
  method WriteDisabledOverride(others: seq<Source>, project: Source, order: seq<Field>, name: string, disabled: bool)
    returns (written: Source, newOrder: seq<Field>, changed: bool)
    requires IsOrderOf(order, EntryOf(project.own, name).fields)
    ensures var seen := IsDisabled(EntryOf(WritersView(others, project), name));
      && SetsOnlyTheFlag(project, written, name,
           if disabled then Some(Value.Flag(true)) else if seen then Some(Value.Flag(false)) else None)
      && (changed <==> written != project || (!disabled && seen && !FlagIsLast(order)))
      && newOrder == OrderAfter(order, disabled, seen)
    ensures IsOrderOf(newOrder, EntryOf(written.own, name).fields)
  {
    var existing := EntryOf(project.own, name);
    var next := existing.fields;
    ghost var seen := IsDisabled(EntryOf(WritersView(others, project), name));
    if disabled {
      next := next[DISABLED := Value.Flag(true)];
      newOrder := if DISABLED in order then order else order + [DISABLED];
    } else {
      next, newOrder := next - {DISABLED}, WithoutFlag(order);
      var lower := LoadServers(map[], others, {});
      lower := MergeServerMaps(lower, Entries(ImportedServers(project.imports)));
      if IsDisabled(EntryOf(lower, name)) {
        next, newOrder := next[DISABLED := Value.Flag(false)], newOrder + [DISABLED];
      }
    }
    OnlyOrderChanges(order, existing.fields, disabled, seen, next);
    if next == existing.fields {
      return project, newOrder, newOrder != order;
    }
    WithEntrySetsOnlyTheFlag(project, name, next);
    return WithEntry(project, name, next), newOrder, true;
  }

  // ----- what the switch does to the config -----

  /**
   Switching off always works. Switching on works if and only if the writer saw the server disabled, or nothing
   below the project's own entries, plugins and packages among it, disables it.
   */
  lemma SwitchWorksIff(w: World, project: Source, written: Source, name: string, disabled: bool)
    requires !project.isPiGlobal
    requires var seen := IsDisabled(EntryOf(WritersView(w.others, project), name));
      SetsOnlyTheFlag(project, written, name,
        if disabled then Some(Value.Flag(true)) else if seen then Some(Value.Flag(false)) else None)
    ensures var now := IsDisabled(EntryOf(WithProject(w, written), name));
      if disabled then now
      else (!now <==> IsDisabled(EntryOf(WritersView(w.others, project), name)) ||
                      FlagBelow(w, project, name) != Some(Value.Flag(true)))
  {
    ProjectFlagWins(w, written, name);
  }

  /** Pi's own files have no imports, and their entries never say more of the flag than that it is on. */
  ghost predicate PiOnlyDisables(sources: seq<Source>, name: string) {
    forall k :: 0 <= k < |sources| && sources[k].isPiGlobal ==>
      sources[k].imports == [] && (Flag(EntryOf(sources[k].own, name)) == None || IsDisabled(EntryOf(sources[k].own, name)))
  }

  /** Although the writer reads a global Pi entry that the loader leaves out, it misses no file that disables. */
  lemma {:induction false} WriterMissesNoFile(w: World, sources: seq<Source>, name: string)
    requires !IsDisabled(EntryOf(w.host, name)) && PiOnlyDisables(sources, name)
    ensures IsDisabled(EntryOf(Loaded(w.host, sources, w.piProjectNames), name)) ==>
            IsDisabled(EntryOf(Loaded(map[], sources, {}), name))
  {
    if sources != [] {
      var last := |sources| - 1;
      WriterMissesNoFile(w, sources[..last], name);
      FlagOfFile(sources[last], w.piProjectNames, name);
      FlagOfFile(sources[last], {}, name);
      FlagOfMerge(Loaded(w.host, sources[..last], w.piProjectNames), FileServers(sources[last], w.piProjectNames), name);
      FlagOfMerge(Loaded(map[], sources[..last], {}), FileServers(sources[last], {}), name);
    }
  }

  /** The one flag is that the server is disabled, as far as the other one is. */
  predicate NoMoreDisabled(flag: Option<Value>, other: Option<Value>) {
    flag == Some(Value.Flag(true)) ==> other == Some(Value.Flag(true))
  }

  lemma OnlyFilesDisable(w: World, project: Source, name: string)
    requires PiOnlyDisables(w.others, name)
    requires !IsDisabled(EntryOf(w.host, name)) && !IsDisabled(EntryOf(w.plugins, name))
    requires !IsDisabled(EntryOf(w.packages, name)) && !IsDisabled(EntryOf(w.claudeDefaults, name))
    ensures NoMoreDisabled(FlagBelow(w, project, name), Flag(EntryOf(WritersView(w.others, project), name)))
  {
    var loaded, seen := Flag(EntryOf(Loaded(w.host, w.others, w.piProjectNames), name)), Flag(EntryOf(Loaded(map[], w.others, {}), name));
    var imported := Flag(EntryOf(Entries(ImportedServers(project.imports)), name));
    WriterMissesNoFile(w, w.others, name);
    FlagOfMerge(Loaded(map[], w.others, {}), Entries(ImportedServers(project.imports)), name);
    assert NoMoreDisabled(loaded, seen);
    assert NoMoreDisabled(Later(loaded, imported), Later(seen, imported));
    assert NoMoreDisabled(FinalFlag(w, Later(loaded, imported), name), Later(loaded, imported));
  }

  /** Where only config files disable the server, both switches always work. */
  lemma SwitchWorksOnFiles(w: World, project: Source, written: Source, name: string, disabled: bool)
    requires !project.isPiGlobal && PiOnlyDisables(w.others, name)
    requires !IsDisabled(EntryOf(w.host, name)) && !IsDisabled(EntryOf(w.plugins, name))
    requires !IsDisabled(EntryOf(w.packages, name)) && !IsDisabled(EntryOf(w.claudeDefaults, name))
    requires var seen := IsDisabled(EntryOf(WritersView(w.others, project), name));
      SetsOnlyTheFlag(project, written, name,
        if disabled then Some(Value.Flag(true)) else if seen then Some(Value.Flag(false)) else None)
    ensures IsDisabled(EntryOf(WithProject(w, written), name)) <==> disabled
  {
    SwitchWorksIff(w, project, written, name, disabled);
    OnlyFilesDisable(w, project, name);
  }

  /** A discovered host config that disables its server is not seen by the writer: switching it on changes nothing. */
  lemma HostServerStaysDisabled(written: Source, hosted: Entry, name: string)
    requires IsDisabled(hosted)
    requires var project := Source("p", false, [], map[]);
      var seen := IsDisabled(EntryOf(WritersView([], project), name));
      SetsOnlyTheFlag(project, written, name, if seen then Some(Value.Flag(false)) else None)
    ensures IsDisabled(EntryOf(WithProject(World(map[name := hosted], [], {}, map[], map[], map[]), written), name))
  {
    var w := World(map[name := hosted], [], {}, map[], map[], map[]);
    SwitchWorksIff(w, Source("p", false, [], map[]), written, name, false);
    FlagOfMerge(map[], map[], name);
  }
}
