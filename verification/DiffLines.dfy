/**
 The lines of a diff: each is a two-character mark ("  ", "+ " or "- ") and the text of one line.
 The two sides of a diff are the texts its lines stand for before and after.
 */
module DiffLines {

  predicate StartsWith(line: string, mark: char) { line != "" && line[0] == mark }

  predicate Kept(line: string) { StartsWith(line, ' ') }

  predicate Removed(line: string) { StartsWith(line, '-') }

  predicate Added(line: string) { StartsWith(line, '+') }

  predicate WellMarked(line: string) {
    |line| >= 2 && line[1] == ' ' && (Kept(line) || Removed(line) || Added(line))
  }

  ghost predicate AllWellMarked(lines: seq<string>) {
    forall k :: 0 <= k < |lines| ==> WellMarked(lines[k])
  }

  ghost predicate AllKept(lines: seq<string>) {
    forall k :: 0 <= k < |lines| ==> Kept(lines[k])
  }

  ghost predicate NoneKept(lines: seq<string>) {
    forall k :: 0 <= k < |lines| ==> !Kept(lines[k])
  }

  function TextOf(line: string): string {
    if |line| < 2 then "" else line[2..]
  }

  datatype Side = Before | After {
    /** Whether a line of a diff stands for a line on this side. */
    predicate Has(line: string) {
      match this
      case Before => !Added(line)
      case After => !Removed(line)
    }
  }

  /** The marks as they print, and what each says of the two sides. */
  lemma MarksAre(line: string)
    requires |line| >= 2
    ensures WellMarked(line) <==> line[..2] == "  " || line[..2] == "- " || line[..2] == "+ "
    ensures WellMarked(line) ==> (Before.Has(line) <==> line[..2] != "+ ") && (After.Has(line) <==> line[..2] != "- ")
    ensures TextOf(line) == line[2..]
  {
    assert line[..2] == [line[0], line[1]];
  }

  /** The texts that a diff has on one side. */
  function TextsOn(side: Side, lines: seq<string>): seq<string> {
    if lines == [] then []
    else if side.Has(lines[0]) then [TextOf(lines[0])] + TextsOn(side, lines[1..])
    else TextsOn(side, lines[1..])
  }

  function KeptCount(lines: seq<string>): nat {
    if lines == [] then 0 else (if Kept(lines[0]) then 1 else 0) + KeptCount(lines[1..])
  }

  lemma {:induction false} TextsOnConcat(side: Side, a: seq<string>, b: seq<string>)
    ensures TextsOn(side, a + b) == TextsOn(side, a) + TextsOn(side, b)
  {
    if a == [] {
      assert a + b == b;
    } else {
      TextsOnConcat(side, a[1..], b);
      assert (a + b)[1..] == a[1..] + b;
    }
  }

  lemma TextsOnFirst(side: Side, line: string, rest: seq<string>)
    ensures TextsOn(side, [line] + rest) ==
      if side.Has(line) then [TextOf(line)] + TextsOn(side, rest) else TextsOn(side, rest)
  {
    assert ([line] + rest)[1..] == rest;
  }

  lemma {:induction false} KeptCountConcat(a: seq<string>, b: seq<string>)
    ensures KeptCount(a + b) == KeptCount(a) + KeptCount(b)
  {
    if a == [] {
      assert a + b == b;
    } else {
      KeptCountConcat(a[1..], b);
      assert (a + b)[1..] == a[1..] + b;
    }
  }

  lemma {:induction false} KeptIsOnBothSides(lines: seq<string>)
    requires AllKept(lines)
    ensures TextsOn(Before, lines) == TextsOn(After, lines)
  {
    if lines != [] {
      KeptIsOnBothSides(lines[1..]);
    }
  }

  /** A kept line is on both sides, and every other line on exactly one. */
  lemma {:induction false} SidesCount(lines: seq<string>)
    requires AllWellMarked(lines)
    ensures |TextsOn(Before, lines)| + |TextsOn(After, lines)| == |lines| + KeptCount(lines)
  {
    if lines != [] {
      assert WellMarked(lines[0]);
      assert AllWellMarked(lines[1..]);
      SidesCount(lines[1..]);
    }
  }

  // ----- runs of changes, removals first -----

  /** How many lines at the start of the list are changes. */
  function RunLength(lines: seq<string>): (n: nat)
    ensures n <= |lines| && NoneKept(lines[..n])
    ensures n == |lines| || Kept(lines[n])
  {
    if lines == [] || Kept(lines[0]) then 0 else RunLength(lines[1..]) + 1
  }

  function Only(mark: char, lines: seq<string>): seq<string> {
    if lines == [] then []
    else if StartsWith(lines[0], mark) then [lines[0]] + Only(mark, lines[1..])
    else Only(mark, lines[1..])
  }

  lemma {:induction false} OnlyConcat(mark: char, a: seq<string>, b: seq<string>)
    ensures Only(mark, a + b) == Only(mark, a) + Only(mark, b)
  {
    if a == [] {
      assert a + b == b;
    } else {
      OnlyConcat(mark, a[1..], b);
      assert (a + b)[1..] == a[1..] + b;
    }
  }

  /** The lines of a diff with the removals of each run of changes moved before its additions. */
  ghost function Ordered(lines: seq<string>): seq<string>
    decreases |lines|
  {
    if lines == [] then []
    else if Kept(lines[0]) then [lines[0]] + Ordered(lines[1..])
    else
      var n := RunLength(lines);
      Only('-', lines[..n]) + Only('+', lines[..n]) + Ordered(lines[n..])
  }

  ghost predicate RemovalsFirst(lines: seq<string>) {
    forall k :: 0 < k < |lines| ==> !(Added(lines[k - 1]) && Removed(lines[k]))
  }

  /** What moving the removals of one run first keeps. */
  lemma {:induction false} OneRunOrdered(run: seq<string>)
    requires AllWellMarked(run) && NoneKept(run)
    ensures |Only('-', run)| + |Only('+', run)| == |run|
    ensures forall k :: 0 <= k < |Only('-', run)| ==> Removed(Only('-', run)[k]) && WellMarked(Only('-', run)[k])
    ensures forall k :: 0 <= k < |Only('+', run)| ==> Added(Only('+', run)[k]) && WellMarked(Only('+', run)[k])
    ensures TextsOn(Before, Only('-', run)) == TextsOn(Before, run) && TextsOn(Before, Only('+', run)) == []
    ensures TextsOn(After, Only('+', run)) == TextsOn(After, run) && TextsOn(After, Only('-', run)) == []
  {
    if run != [] {
      assert WellMarked(run[0]) && !Kept(run[0]);
      OneRunOrdered(run[1..]);
      TextsOnFirst(Before, run[0], Only('-', run[1..]));
      TextsOnFirst(After, run[0], Only('-', run[1..]));
      TextsOnFirst(Before, run[0], Only('+', run[1..]));
      TextsOnFirst(After, run[0], Only('+', run[1..]));
    }
  }

  lemma TextsOnThree(side: Side, a: seq<string>, b: seq<string>, c: seq<string>)
    ensures TextsOn(side, a + b + c) == TextsOn(side, a) + TextsOn(side, b) + TextsOn(side, c)
  {
    TextsOnConcat(side, a + b, c);
    TextsOnConcat(side, a, b);
  }

  lemma RemovalsBeforeAdditions(removals: seq<string>, additions: seq<string>, rest: seq<string>)
    requires forall k :: 0 <= k < |removals| ==> Removed(removals[k]) && WellMarked(removals[k])
    requires forall k :: 0 <= k < |additions| ==> Added(additions[k]) && WellMarked(additions[k])
    requires AllWellMarked(rest) && RemovalsFirst(rest)
    requires rest == [] || Kept(rest[0])
    ensures AllWellMarked(removals + additions + rest) && RemovalsFirst(removals + additions + rest)
    ensures NoneKept(removals + additions)
  {
    var all := removals + additions + rest;
    forall k | 0 <= k < |all| ensures WellMarked(all[k]) {}
    forall k | 0 < k < |all| ensures !(Added(all[k - 1]) && Removed(all[k])) {}
  }

  ghost predicate SameSides(a: seq<string>, b: seq<string>) {
    && TextsOn(Before, a) == TextsOn(Before, b)
    && TextsOn(After, a) == TextsOn(After, b)
  }

  ghost predicate SameKept(a: seq<string>, b: seq<string>) {
    && |a| == |b|
    && forall k :: 0 <= k < |a| ==> (Kept(a[k]) <==> Kept(b[k])) && (Kept(a[k]) ==> a[k] == b[k])
  }

  lemma OrderedRunSides(run: seq<string>, rest: seq<string>, restOrdered: seq<string>)
    requires AllWellMarked(run) && NoneKept(run) && SameSides(restOrdered, rest)
    ensures SameSides(Only('-', run) + Only('+', run) + restOrdered, run + rest)
  {
    OneRunOrdered(run);
    TextsOnThree(Before, Only('-', run), Only('+', run), restOrdered);
    TextsOnThree(After, Only('-', run), Only('+', run), restOrdered);
    TextsOnConcat(Before, run, rest);
    TextsOnConcat(After, run, rest);
  }

  lemma KeptAfterRun(run: seq<string>, changes: seq<string>, rest: seq<string>, restOrdered: seq<string>)
    requires |changes| == |run| && NoneKept(run) && NoneKept(changes) && SameKept(rest, restOrdered)
    ensures SameKept(run + rest, changes + restOrdered)
  {
    var a, b := run + rest, changes + restOrdered;
    forall k | 0 <= k < |a| ensures (Kept(a[k]) <==> Kept(b[k])) && (Kept(a[k]) ==> a[k] == b[k]) {
      if k < |run| {
        assert a[k] == run[k] && b[k] == changes[k];
      } else {
        assert a[k] == rest[k - |run|] && b[k] == restOrdered[k - |run|];
      }
    }
  }

  lemma OrderedRun(run: seq<string>, rest: seq<string>, restOrdered: seq<string>)
    requires AllWellMarked(run) && NoneKept(run)
    requires SameSides(restOrdered, rest) && SameKept(rest, restOrdered)
    requires AllWellMarked(restOrdered) && RemovalsFirst(restOrdered)
    requires rest == [] || Kept(rest[0])
    ensures var ordered := Only('-', run) + Only('+', run) + restOrdered;
      SameSides(ordered, run + rest) && SameKept(run + rest, ordered) && AllWellMarked(ordered) && RemovalsFirst(ordered)
  {
    OneRunOrdered(run);
    RemovalsBeforeAdditions(Only('-', run), Only('+', run), restOrdered);
    OrderedRunSides(run, rest, restOrdered);
    KeptAfterRun(run, Only('-', run) + Only('+', run), rest, restOrdered);
  }

  lemma OrderedKept(line: string, rest: seq<string>, restOrdered: seq<string>)
    requires Kept(line) && WellMarked(line)
    requires SameSides(restOrdered, rest) && SameKept(rest, restOrdered)
    requires AllWellMarked(restOrdered) && RemovalsFirst(restOrdered)
    ensures var ordered := [line] + restOrdered;
      SameSides(ordered, [line] + rest) && SameKept([line] + rest, ordered) && AllWellMarked(ordered) && RemovalsFirst(ordered)
  {
    TextsOnFirst(Before, line, restOrdered);
    TextsOnFirst(After, line, restOrdered);
    TextsOnFirst(Before, line, rest);
    TextsOnFirst(After, line, rest);
  }

  /** Ordering the runs keeps both sides and every unchanged line in place, and puts removals first. */
  lemma {:induction false} OrderedKeepsSides(lines: seq<string>)
    requires AllWellMarked(lines)
    ensures SameSides(Ordered(lines), lines) && SameKept(lines, Ordered(lines))
    ensures AllWellMarked(Ordered(lines)) && RemovalsFirst(Ordered(lines))
    decreases |lines|
  {
    if lines == [] {
    } else {
      var n := if Kept(lines[0]) then 1 else RunLength(lines);
      var first, rest := lines[..n], lines[n..];
      assert AllWellMarked(first) && AllWellMarked(rest);
      assert lines == first + rest;
      OrderedKeepsSides(rest);
      if Kept(lines[0]) {
        assert first == [lines[0]];
        OrderedKept(lines[0], rest, Ordered(rest));
      } else {
        OrderedRun(first, rest, Ordered(rest));
      }
    }
  }

  method PushOnly(ordered: seq<string>, mark: char, run: seq<string>) returns (pushed: seq<string>)
    ensures pushed == ordered + Only(mark, run)
  {
    pushed := ordered;
    for m := 0 to |run|
      invariant pushed + Only(mark, run[m..]) == ordered + Only(mark, run)
    {
      assert run[m..][1..] == run[m + 1..];
      if StartsWith(run[m], mark) { pushed := pushed + [run[m]]; }
    }
  }

  method TakeRun(lines: seq<string>, from: nat) returns (run: seq<string>, next: nat)
    requires from <= |lines|
    ensures next == from + RunLength(lines[from..]) && run == lines[from..next]
  {
    run, next := [], from;
    while next < |lines| && !Kept(lines[next])
      invariant from <= next <= |lines| && run == lines[from..next]
      invariant RunLength(lines[from..]) == next - from + RunLength(lines[next..])
    {
      assert lines[next..][1..] == lines[next + 1..];
      run, next := run + [lines[next]], next + 1;
    }
  }

  lemma Regroup(a: seq<string>, b: seq<string>, c: seq<string>, d: seq<string>)
    ensures a + (b + c + d) == a + b + c + d && a + (b + d) == a + b + d
  {}

  lemma OrderedNextKept(ordered: seq<string>, lines: seq<string>, k: nat)
    requires k < |lines| && Kept(lines[k])
    ensures ordered + Ordered(lines[k..]) == ordered + [lines[k]] + Ordered(lines[k + 1..])
  {
    assert lines[k..][1..] == lines[k + 1..];
    Regroup(ordered, [lines[k]], [], Ordered(lines[k + 1..]));
  }

  lemma OrderedNextRun(ordered: seq<string>, lines: seq<string>, k: nat, run: seq<string>, next: nat)
    requires k < |lines| && !Kept(lines[k])
    requires next == k + RunLength(lines[k..]) && run == lines[k..next]
    ensures ordered + Ordered(lines[k..]) == ordered + Only('-', run) + Only('+', run) + Ordered(lines[next..])
  {
    assert lines[k..][..|run|] == run && lines[k..][|run|..] == lines[next..];
    Regroup(ordered, Only('-', run), Only('+', run), Ordered(lines[next..]));
  }

  /** The first half of `contextHunks`. */
  method OrderRuns(lines: seq<string>) returns (ordered: seq<string>)
    ensures ordered == Ordered(lines)
  {
    ordered := [];
    var k := 0;
    assert lines[0..] == lines;
    while k < |lines|
      invariant 0 <= k <= |lines|
      invariant ordered + Ordered(lines[k..]) == Ordered(lines)
    {
      if Kept(lines[k]) {
        OrderedNextKept(ordered, lines, k);
        ordered, k := ordered + [lines[k]], k + 1;
      } else {
        var run, next := TakeRun(lines, k);
        OrderedNextRun(ordered, lines, k, run, next);
        k := next;
        ordered := PushOnly(ordered, '-', run);
        ordered := PushOnly(ordered, '+', run);
      }
    }
  }
}
