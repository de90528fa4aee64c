/** `discoverContainedSkillFiles` of claude-plugin-loader.ts: a walk over directories whose links may form cycles. */
module SkillDiscovery {
  import opened Options

  datatype Kind = Symlink | Directory | File | Special

  datatype Entry = Entry(name: string, kind: Kind)

  /**
   The files as the walk sees them. A path without a real path, a directory without a listing and a target without
   a kind are those whose system call fails. `contained` says whether a real path is inside the skills root.
   */
  datatype FileSystem = FileSystem(
    realPath: map<string, string>, listing: map<string, seq<Entry>>, kind: map<string, Kind>,
    contained: string -> bool, join: (string, string) -> string)

  const SKILL_FILE := "SKILL.md"

  function ContainedReal(fs: FileSystem, path: string): Option<string> {
    if path in fs.realPath && fs.contained(fs.realPath[path]) then Some(fs.realPath[path]) else None
  }

  /** The path that an entry makes the walk visit. */
  function Subdirectory(fs: FileSystem, directory: string, e: Entry): Option<string> {
    var path := fs.join(directory, e.name);
    match e.kind
    case Symlink =>
      var target := ContainedReal(fs, path);
      if target.Some? && target.value in fs.kind && fs.kind[target.value].Directory? then target else None
    case Directory => Some(path)
    case _ => None
  }

  /** The skill file that an entry is or points to. */
  function SkillFile(fs: FileSystem, directory: string, e: Entry): Option<string> {
    var target := ContainedReal(fs, fs.join(directory, e.name));
    if e.name != SKILL_FILE then None
    else
      match e.kind
      case Symlink => if target.Some? && target.value in fs.kind && fs.kind[target.value].File? then target else None
      case File => target
      case _ => None
  }

  function Entries(fs: FileSystem, directory: string): seq<Entry> {
    if directory in fs.listing then fs.listing[directory] else []
  }

  // ----- what the walk should find -----

  /** An entry of one real directory leads to another, inside the root. */
  ghost predicate Edge(fs: FileSystem, from: string, to: string) {
    exists i :: 0 <= i < |Entries(fs, from)| && LeadsTo(fs, from, Entries(fs, from)[i], to)
  }

  predicate LeadsTo(fs: FileSystem, from: string, e: Entry, to: string) {
    var next := Subdirectory(fs, from, e);
    next.Some? && ContainedReal(fs, next.value) == Some(to)
  }

  /**
   An entry leads to the real directory of the path it stands for, if that lies inside the root: its own path for a
   directory, and for a link the real path that it points to, if that lies inside the root too and is a directory.
   */
  lemma LeadsToIff(fs: FileSystem, from: string, e: Entry, to: string)
    ensures LeadsTo(fs, from, e, to) <==>
      var path := fs.join(from, e.name);
      && fs.contained(to) && path in fs.realPath
      && (|| (e.kind == Directory && fs.realPath[path] == to)
          || (e.kind == Symlink && fs.contained(fs.realPath[path])
              && fs.realPath[path] in fs.kind && fs.kind[fs.realPath[path]] == Directory
              && fs.realPath[path] in fs.realPath && fs.realPath[fs.realPath[path]] == to))
  {}

  /** A skill file is a file named `SKILL.md`, or a link of that name to a file, whose real path lies inside the root. */
  lemma SkillFileIff(fs: FileSystem, directory: string, e: Entry, file: string)
    ensures SkillFile(fs, directory, e) == Some(file) <==>
      var path := fs.join(directory, e.name);
      && e.name == "SKILL.md" && path in fs.realPath && fs.realPath[path] == file && fs.contained(file)
      && (e.kind == File || (e.kind == Symlink && file in fs.kind && fs.kind[file] == File))
  {}

  ghost predicate IsWalk(fs: FileSystem, root: string, walk: seq<string>) {
    && walk != [] && ContainedReal(fs, root) == Some(walk[0])
    && forall i :: 0 < i < |walk| ==> Edge(fs, walk[i - 1], walk[i])
  }

  ghost predicate Reachable(fs: FileSystem, root: string, directory: string) {
    exists walk :: IsWalk(fs, root, walk) && walk[|walk| - 1] == directory
  }

  /** The skill files of one directory, in the order of its entries. */
  ghost function SkillFilesOf(fs: FileSystem, directory: string, entries: seq<Entry>): seq<string> {
    if entries == [] then []
    else
      var last := |entries| - 1;
      var file := SkillFile(fs, directory, entries[last]);
      SkillFilesOf(fs, directory, entries[..last]) + if file.Some? then [file.value] else []
  }

  lemma SkillFilesOfNext(fs: FileSystem, directory: string, entries: seq<Entry>, e: Entry)
    ensures SkillFilesOf(fs, directory, entries + [e]) ==
      SkillFilesOf(fs, directory, entries) + if SkillFile(fs, directory, e).Some? then [SkillFile(fs, directory, e).value] else []
  {
    assert (entries + [e])[..|entries|] == entries;
  }

  lemma SkillFilesOfEntry(fs: FileSystem, directory: string, e: Entry)
    ensures var file := SkillFile(fs, directory, e);
      SkillFilesOf(fs, directory, [e]) == if file.Some? then [file.value] else []
    ensures Subdirectory(fs, directory, e).Some? ==> SkillFile(fs, directory, e).None?
  {
    SkillFilesOfNext(fs, directory, [], e);
    assert [] + [e] == [e];
  }

  lemma SkillFilesOfPrefix(fs: FileSystem, directory: string, i: nat)
    requires i < |Entries(fs, directory)|
    ensures var entries := Entries(fs, directory);
      SkillFilesOf(fs, directory, entries[..i + 1]) ==
      SkillFilesOf(fs, directory, entries[..i]) + SkillFilesOf(fs, directory, [entries[i]])
  {
    var entries := Entries(fs, directory);
    SkillFilesOfNext(fs, directory, entries[..i], entries[i]);
    SkillFilesOfNext(fs, directory, [], entries[i]);
    assert entries[..i + 1] == entries[..i] + [entries[i]] && [] + [entries[i]] == [entries[i]];
  }

  ghost function SkillFilesAt(fs: FileSystem, directory: string): multiset<string> {
    multiset(SkillFilesOf(fs, directory, Entries(fs, directory)))
  }

  /** The sum of what each element gives. */
  ghost function Sum<T, U>(gives: T -> multiset<U>, elements: seq<T>): multiset<U> {
    if elements == [] then multiset{} else gives(elements[0]) + Sum(gives, elements[1..])
  }

  lemma {:induction false} SumConcat<T, U>(gives: T -> multiset<U>, a: seq<T>, b: seq<T>)
    ensures Sum(gives, a + b) == Sum(gives, a) + Sum(gives, b)
  {
    if a == [] {
      assert a + b == b;
    } else {
      SumConcat(gives, a[1..], b);
      assert (a + b)[1..] == a[1..] + b;
    }
  }

  ghost function SkillFilesIn(fs: FileSystem, directories: seq<string>): multiset<string> {
    Sum(SkillFilesGiver(fs), directories)
  }

  ghost function SkillFilesGiver(fs: FileSystem): string -> multiset<string> {
    d => SkillFilesAt(fs, d)
  }

  ghost predicate Distinct(s: seq<string>) {
    forall i, j :: 0 <= i < j < |s| ==> s[i] != s[j]
  }

  // ----- the walk -----

  lemma ReachNext(fs: FileSystem, root: string, from: string, to: string)
    requires Reachable(fs, root, from) && Edge(fs, from, to)
    ensures Reachable(fs, root, to)
  {
    var walk :| IsWalk(fs, root, walk) && walk[|walk| - 1] == from;
    assert IsWalk(fs, root, walk + [to]);
    assert (walk + [to])[|walk|] == to;
  }

  lemma EntryIsReachable(fs: FileSystem, root: string, from: string, i: nat, to: string)
    requires Reachable(fs, root, from) && i < |Entries(fs, from)| && LeadsTo(fs, from, Entries(fs, from)[i], to)
    ensures Reachable(fs, root, to)
  {
    assert Edge(fs, from, to);
    ReachNext(fs, root, from, to);
  }

  lemma {:induction false} ClosedContainsReachable(fs: FileSystem, root: string, visited: set<string>, walk: seq<string>)
    requires IsWalk(fs, root, walk) && walk[0] in visited
    requires forall a, b :: a in visited && Edge(fs, a, b) ==> b in visited
    ensures walk[|walk| - 1] in visited
  {
    if |walk| > 1 {
      var shorter := walk[..|walk| - 1];
      assert IsWalk(fs, root, shorter);
      ClosedContainsReachable(fs, root, visited, shorter);
      assert Edge(fs, walk[|walk| - 2], walk[|walk| - 1]);
    }
  }

  lemma SkillFilesOfSplit(fs: FileSystem, order: seq<string>, a: nat, b: nat)
    requires a <= b <= |order|
    ensures SkillFilesIn(fs, order[a..]) == SkillFilesIn(fs, order[a..b]) + SkillFilesIn(fs, order[b..])
  {
    assert order[a..] == order[a..b] + order[b..];
    SumConcat(SkillFilesGiver(fs), order[a..b], order[b..]);
  }

  lemma SkillFilesOfOne(fs: FileSystem, directory: string)
    ensures SkillFilesIn(fs, [directory]) == SkillFilesAt(fs, directory) && SkillFilesIn(fs, []) == multiset{}
  {
    assert [directory][1..] == [];
    assert Sum(SkillFilesGiver(fs), [directory]) == SkillFilesGiver(fs)(directory) + Sum(SkillFilesGiver(fs), []);
  }

  class SkillWalk {
    const fs: FileSystem
    const root: string
    var visited: set<string>
    var skillFiles: seq<string>
    /** The directories in the order in which they are listed. */
    ghost var order: seq<string>

    constructor (fs: FileSystem, root: string)
      ensures this.fs == fs && this.root == root && visited == {} && skillFiles == [] && order == []
    {
      this.fs, this.root := fs, root;
      visited, skillFiles, order := {}, [], [];
    }

    ghost predicate Valid()
      reads this
    {
      && (forall d :: d in visited <==> d in order)
      && Distinct(order) && visited <= fs.realPath.Values
      && forall d :: d in visited ==> Reachable(fs, root, d)
    }

    /** Everything visited since is finished: all its edges lead to visited directories. */
    ghost predicate Finished(before: set<string>)
      reads this
    {
      before <= visited && forall a, b :: a in visited && a !in before && Edge(fs, a, b) ==> b in visited
    }

    /** Since then, the walk has found exactly the skill files of the directories it has listed. */
    ghost predicate Found(files: seq<string>, listed: seq<string>)
      reads this
    {
      listed <= order && multiset(skillFiles) == multiset(files) + SkillFilesIn(fs, order[|listed|..])
    }

    method Visit(directory: string)
      requires Valid()
      requires ContainedReal(fs, directory).Some? ==> Reachable(fs, root, ContainedReal(fs, directory).value)
      modifies this
      ensures Valid() && Finished(old(visited)) && Found(old(skillFiles), old(order))
      ensures ContainedReal(fs, directory).Some? ==> ContainedReal(fs, directory).value in visited
      decreases fs.realPath.Values - visited, 0
    {
      var realDirectory := ContainedReal(fs, directory);
      if realDirectory.None? { return; }
      if realDirectory.value in visited { return; }
      visited := visited + {realDirectory.value};
      order := order + [realDirectory.value];
      VisitEntries(realDirectory.value);
      FoundListed(old(skillFiles), old(order), realDirectory.value);
    }

    /** The state while the entries of a directory are visited, of which `i` are done. */
    ghost predicate VisitedEntries(directory: string, i: nat)
      reads this
    {
      forall k, b :: 0 <= k < i && k < |Entries(fs, directory)| && LeadsTo(fs, directory, Entries(fs, directory)[k], b) ==>
        b in visited
    }

    /** Since then, the walk has found these files and those of the directories it has listed. */
    ghost predicate FoundWith(more: seq<string>, files: seq<string>, listed: seq<string>)
      reads this
    {
      listed <= order && multiset(skillFiles) == multiset(files) + multiset(more) + SkillFilesIn(fs, order[|listed|..])
    }

    lemma FoundThenFound(more: seq<string>, files: seq<string>, listed: seq<string>, found: seq<string>, file: seq<string>,
                         since: seq<string>)
      requires listed <= since <= order && FoundWith(file, found, since)
      requires multiset(found) == multiset(files) + multiset(more) + SkillFilesIn(fs, since[|listed|..])
      ensures FoundWith(more + file, files, listed)
    {
      SkillFilesOfSplit(fs, order, |listed|, |since|);
      assert order[|listed|..|since|] == since[|listed|..];
    }

    lemma FoundListed(files: seq<string>, listed: seq<string>, directory: string)
      requires FoundWith(SkillFilesOf(fs, directory, Entries(fs, directory)), files, listed + [directory])
      ensures Found(files, listed)
    {
      SkillFilesOfSplit(fs, order, |listed|, |listed| + 1);
      assert order[|listed|..|listed| + 1] == [directory];
      SkillFilesOfOne(fs, directory);
    }

    method VisitEntries(directory: string)
      requires Valid() && directory in visited
      modifies this
      ensures Valid() && Finished(old(visited))
      ensures forall b :: Edge(fs, directory, b) ==> b in visited
      ensures FoundWith(SkillFilesOf(fs, directory, Entries(fs, directory)), old(skillFiles), old(order))
      decreases fs.realPath.Values - visited, 2
    {
      var entries := Entries(fs, directory);
      SkillFilesOfOne(fs, directory);
      assert order[|order|..] == [];
      for i := 0 to |entries|
        invariant Valid() && Finished(old(visited)) && VisitedEntries(directory, i)
        invariant FoundWith(SkillFilesOf(fs, directory, entries[..i]), old(skillFiles), old(order))
      {
        ghost var found, listed := skillFiles, order;
        VisitEntry(directory, i);
        FoundThenFound(SkillFilesOf(fs, directory, entries[..i]), old(skillFiles), old(order), found,
                       SkillFilesOf(fs, directory, [entries[i]]), listed);
        SkillFilesOfPrefix(fs, directory, i);
      }
      assert entries[..|entries|] == entries;
    }

    method VisitEntry(directory: string, i: nat)
      requires Valid() && directory in visited && i < |Entries(fs, directory)| && VisitedEntries(directory, i)
      modifies this
      ensures Valid() && Finished(old(visited)) && VisitedEntries(directory, i + 1)
      ensures FoundWith(SkillFilesOf(fs, directory, [Entries(fs, directory)[i]]), old(skillFiles), old(order))
      decreases fs.realPath.Values - visited, 1, 1
    {
      var e := Entries(fs, directory)[i];
      var path := fs.join(directory, e.name);
      SkillFilesOfEntry(fs, directory, e);
      SkillFilesOfOne(fs, directory);
      assert order[|order|..] == [];
      match e.kind {
        case Symlink =>
          var target := ContainedReal(fs, path);
          if target.Some? && target.value in fs.kind {
            if fs.kind[target.value].Directory? {
              VisitSubdirectory(directory, i, target.value);
            } else if fs.kind[target.value].File? && e.name == SKILL_FILE {
              skillFiles := skillFiles + [target.value];
            }
          }
        case Directory =>
          VisitSubdirectory(directory, i, path);
        case File =>
          if e.name == SKILL_FILE {
            var realPath := ContainedReal(fs, path);
            if realPath.Some? { skillFiles := skillFiles + [realPath.value]; }
          }
        case Special =>
      }
      OneMoreVisited(directory, i);
    }

    method VisitSubdirectory(directory: string, i: nat, path: string)
      requires Valid() && directory in visited && i < |Entries(fs, directory)|
      requires Subdirectory(fs, directory, Entries(fs, directory)[i]) == Some(path)
      modifies this
      ensures Valid() && Finished(old(visited)) && Found(old(skillFiles), old(order))
      ensures ContainedReal(fs, path).Some? ==> ContainedReal(fs, path).value in visited
      decreases fs.realPath.Values - visited, 1, 0
    {
      if ContainedReal(fs, path).Some? {
        EntryIsReachable(fs, root, directory, i, ContainedReal(fs, path).value);
      }
      Visit(path);
    }

    lemma OneMoreVisited(directory: string, i: nat)
      requires VisitedEntries(directory, i) && i < |Entries(fs, directory)|
      requires forall b :: LeadsTo(fs, directory, Entries(fs, directory)[i], b) ==> b in visited
      ensures VisitedEntries(directory, i + 1)
    {}
  }

  /** A list of exactly the directories that can be reached, each once. */
  ghost predicate ListsReachable(fs: FileSystem, root: string, listed: seq<string>) {
    Distinct(listed) && forall d :: d in listed <==> Reachable(fs, root, d)
  }

  /**
   Whatever the links: the walk ends, lists each real directory once, lists exactly those that can be reached
   through directories inside the root, and returns exactly their skill files.
   */
  method DiscoverContainedSkillFiles(fs: FileSystem, root: string) returns (skillFiles: seq<string>)
    ensures exists listed :: ListsReachable(fs, root, listed) && multiset(skillFiles) == SkillFilesIn(fs, listed)
  {
    var walk := new SkillWalk(fs, root);
    if ContainedReal(fs, root).Some? {
      assert IsWalk(fs, root, [ContainedReal(fs, root).value]);
      assert [ContainedReal(fs, root).value][0] == ContainedReal(fs, root).value;
    }
    walk.Visit(root);
    skillFiles := walk.skillFiles;
    ghost var listed := walk.order;
    assert listed[0..] == listed;
    forall d | Reachable(fs, root, d) ensures d in listed {
      var path :| IsWalk(fs, root, path) && path[|path| - 1] == d;
      ClosedContainsReachable(fs, root, walk.visited, path);
    }
    assert ListsReachable(fs, root, listed);
  }
}
