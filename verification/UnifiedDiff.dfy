/** `buildUnifiedDiff` and `contextHunks` of config.ts as they print, and what their output says to a reader. */
module UnifiedDiff {
  import opened Options
  import opened Lines
  import opened DiffLines
  import opened LongestCommonSubsequence
  import opened EditScript
  import opened Hunks

  const NO_CHANGES := "(no changes)"
  const ONLY_FINAL_NEWLINE := "(only the final newline differs)"
  const BEFORE_HEADER := "--- before"
  const AFTER_HEADER := "+++ after"

  /** The lines a diff is made of: with context, a final newline ends a line rather than starting a blank one. */
  function LinesOf(text: string, context: Option<nat>): (lines: seq<string>) {
    var lines := Split(text);
    if context.Some? && (text == "" || text[|text| - 1] == '\n') then lines[..|lines| - 1] else lines
  }

  /** What applying a diff with context to the lines of a text gives, when every part of the diff fits them. */
  function ApplyDiff(before: seq<string>, diff: string): Option<seq<string>> {
    var lines := Split(diff);
    if diff == NO_CHANGES then Some(before)
    else if |lines| < 2 || lines[0] != BEFORE_HEADER || lines[1] != AFTER_HEADER then None
    else if lines[2..] == [ONLY_FINAL_NEWLINE] then Some(before)
    else
      match ReadHunks(lines[2..])
      case None => None
      case Some(hunks) => ApplyHunks(before, 0, [], hunks)
  }

  // ----- printing -----

  /** How many of the first lines of a diff are on one side. */
  ghost function LinesBefore(side: Side, ordered: seq<string>, cursor: nat): nat
    requires cursor <= |ordered|
  {
    if cursor == 0 then 0
    else LinesBefore(side, ordered, cursor - 1) + if side.Has(ordered[cursor - 1]) then 1 else 0
  }

  lemma {:induction false} LinesBeforeAreTexts(side: Side, ordered: seq<string>, cursor: nat)
    requires cursor <= |ordered|
    ensures LinesBefore(side, ordered, cursor) == |TextsOn(side, ordered[..cursor])|
  {
    if cursor > 0 {
      LinesBeforeAreTexts(side, ordered, cursor - 1);
      assert ordered[..cursor] == ordered[..cursor - 1] + [ordered[cursor - 1]];
      TextsOnConcat(side, ordered[..cursor - 1], [ordered[cursor - 1]]);
    }
  }

  /** The line numbers of `ordered[cursor]` in the two texts. */
  ghost predicate CursorAt(ordered: seq<string>, cursor: nat, beforeLine: int, afterLine: int) {
    && cursor <= |ordered|
    && beforeLine == LinesBefore(Before, ordered, cursor) + 1
    && afterLine == LinesBefore(After, ordered, cursor) + 1
  }

  method MoveCursor(ordered: seq<string>, start: nat, from: nat, atBefore: nat, atAfter: nat)
    returns (beforeLine: nat, afterLine: nat)
    requires from <= start <= |ordered| && CursorAt(ordered, from, atBefore, atAfter)
    ensures CursorAt(ordered, start, beforeLine, afterLine)
  {
    beforeLine, afterLine := atBefore, atAfter;
    for cursor := from to start
      invariant CursorAt(ordered, cursor, beforeLine, afterLine)
    {
      if !Added(ordered[cursor]) { beforeLine := beforeLine + 1; }
      if !Removed(ordered[cursor]) { afterLine := afterLine + 1; }
    }
  }

  lemma RangesFit(lines: seq<string>, k: nat, context: nat)
    requires k <= |ChangedIn(lines)|
    ensures WithinLines(RangesFrom(|lines|, ChangedIn(lines), k, context), |lines|)
  {
    RangesAreNeighbourhoods(|lines|, ChangedIn(lines), k, context, 0);
  }

  method FindGroupEnd(changed: seq<nat>, k: nat, context: nat) returns (end: nat)
    requires k < |changed|
    ensures end == GroupEnd(changed, k, context)
  {
    end := k;
    while end + 1 < |changed| && changed[end + 1] - changed[end] - 1 <= 2 * context
      invariant k <= end < |changed|
      invariant GroupEnd(changed, k, context) == GroupEnd(changed, end, context)
    {
      end := end + 1;
    }
  }

  /** The header and the lines of one hunk, from the line numbers at its start. */
  method MakeHunk(ordered: seq<string>, start: nat, end: nat, beforeLine: nat, afterLine: nat)
    returns (hunk: Hunk)
    requires start <= end <= |ordered| && CursorAt(ordered, start, beforeLine, afterLine)
    ensures hunk == HunkOf(ordered, Range(start, end))
  {
    LinesBeforeAreTexts(Before, ordered, start);
    LinesBeforeAreTexts(After, ordered, start);
    var body := ordered[start..end];
    var beforeCount, afterCount := |TextsOn(Before, body)|, |TextsOn(After, body)|;
    hunk := Hunk(Header(if beforeCount == 0 then beforeLine - 1 else beforeLine, beforeCount,
                        if afterCount == 0 then afterLine - 1 else afterLine, afterCount), body);
  }

  lemma GroupBounds(length: nat, changed: seq<nat>, k: nat, context: nat)
    requires k < |changed| && Increasing(changed) && changed[|changed| - 1] < length
    ensures var end := GroupEnd(changed, k, context);
      && StartOf(changed[k], context) <= EndOf(changed[end], context, length) <= length
      && (end + 1 < |changed| ==> StartOf(changed[k], context) <= StartOf(changed[end + 1], context))
  {
    var end := GroupEnd(changed, k, context);
    assert k < end ==> changed[k] < changed[end];
    assert end + 1 < |changed| ==> changed[end] < changed[end + 1];
    assert end < |changed| - 1 ==> changed[end] < changed[|changed| - 1];
  }

  /** Where the groups of changes start, from the `k`th change on, and where the last of them ends. */
  ghost function GroupStarts(changed: seq<nat>, k: nat, context: nat): (starts: seq<nat>)
    requires k <= |changed|
    ensures starts != [] && starts[0] == k
    decreases |changed| - k
  {
    if k == |changed| then [k] else [k] + GroupStarts(changed, GroupEnd(changed, k, context) + 1, context)
  }

  /** Group number `m` ends before the next one starts, and its range of lines is number `m`. */
  ghost predicate IsGroup(length: nat, changed: seq<nat>, context: nat, starts: seq<nat>, ranges: seq<Range>, m: nat) {
    && m < |ranges| && m + 1 < |starts| && starts[m] < |changed|
    && starts[m + 1] == GroupEnd(changed, starts[m], context) + 1
    && ranges[m] == Range(StartOf(changed[starts[m]], context), EndOf(changed[starts[m + 1] - 1], context, length))
  }

  ghost predicate AreGroups(length: nat, changed: seq<nat>, context: nat, starts: seq<nat>, ranges: seq<Range>) {
    && |starts| == |ranges| + 1 && starts[|ranges|] == |changed|
    && forall m: nat :: m < |ranges| ==> IsGroup(length, changed, context, starts, ranges, m)
  }

  lemma LaterGroup(length: nat, changed: seq<nat>, context: nat, starts: seq<nat>, ranges: seq<Range>, m: nat,
                   start: nat, first: Range)
    requires IsGroup(length, changed, context, starts, ranges, m)
    ensures IsGroup(length, changed, context, [start] + starts, [first] + ranges, m + 1)
  {}

  lemma MoreGroups(length: nat, changed: seq<nat>, k: nat, context: nat, starts: seq<nat>, first: Range, ranges: seq<Range>)
    requires k < |changed| && AreGroups(length, changed, context, starts, ranges)
    requires starts[0] == GroupEnd(changed, k, context) + 1
    requires first == Range(StartOf(changed[k], context), EndOf(changed[starts[0] - 1], context, length))
    ensures AreGroups(length, changed, context, [k] + starts, [first] + ranges)
  {
    FirstGroup(length, changed, k, context, [k] + starts, [first] + ranges);
    forall m: nat | m < |ranges| + 1 ensures IsGroup(length, changed, context, [k] + starts, [first] + ranges, m) {
      if m > 0 {
        assert IsGroup(length, changed, context, starts, ranges, m - 1);
        LaterGroup(length, changed, context, starts, ranges, m - 1, k, first);
      }
    }
  }

  lemma {:induction false} GroupsOfRanges(length: nat, changed: seq<nat>, k: nat, context: nat)
    requires k <= |changed|
    ensures AreGroups(length, changed, context, GroupStarts(changed, k, context), RangesFrom(length, changed, k, context))
    decreases |changed| - k
  {
    if k < |changed| {
      var end := GroupEnd(changed, k, context);
      GroupsOfRanges(length, changed, end + 1, context);
      var first := Range(StartOf(changed[k], context), EndOf(changed[end], context, length));
      MoreGroups(length, changed, k, context,
                 GroupStarts(changed, end + 1, context), first, RangesFrom(length, changed, end + 1, context));
    }
  }

  lemma FirstGroup(length: nat, changed: seq<nat>, k: nat, context: nat, starts: seq<nat>, ranges: seq<Range>)
    requires k < |changed| && |ranges| >= 1 && |starts| >= 2 && starts[0] == k
    requires starts[1] == GroupEnd(changed, k, context) + 1
    requires ranges[0] == Range(StartOf(changed[k], context), EndOf(changed[GroupEnd(changed, k, context)], context, length))
    ensures IsGroup(length, changed, context, starts, ranges, 0)
  {}

  lemma {:induction false} PrintLast(hunks: seq<Hunk>, hunk: Hunk)
    ensures PrintHunks(hunks + [hunk]) == PrintHunks(hunks) + PrintHunk(hunk)
  {
    if hunks != [] {
      PrintLast(hunks[1..], hunk);
      assert (hunks + [hunk])[1..] == hunks[1..] + [hunk];
    }
  }

  lemma PrintOneMore(hunks: seq<Hunk>, m: nat)
    requires m < |hunks|
    ensures PrintHunks(hunks[..m + 1]) == PrintHunks(hunks[..m]) + PrintHunk(hunks[m])
  {
    PrintLast(hunks[..m], hunks[m]);
    assert hunks[..m + 1] == hunks[..m] + [hunks[m]];
  }

  ghost predicate IsHunk(lines: seq<string>, ranges: seq<Range>, hunks: seq<Hunk>, m: nat) {
    && m < |ranges| && m < |hunks| && ranges[m].start <= ranges[m].end <= |lines|
    && hunks[m] == HunkOf(lines, ranges[m])
  }

  ghost predicate AreHunks(lines: seq<string>, ranges: seq<Range>, hunks: seq<Hunk>) {
    |hunks| == |ranges| && forall m: nat :: m < |ranges| ==> IsHunk(lines, ranges, hunks, m)
  }

  /** The group of changes from `k` on: its last change, its hunk, and the line numbers at the hunk's start. */
  method NextHunk(ordered: seq<string>, changed: seq<nat>, k: nat, context: nat, cursor: nat, atBefore: nat, atAfter: nat)
    returns (end: nat, start: nat, beforeLine: nat, afterLine: nat, hunk: Hunk)
    requires changed == ChangedIn(ordered) && k < |changed| && cursor <= StartOf(changed[k], context)
    requires CursorAt(ordered, cursor, atBefore, atAfter)
    ensures end == GroupEnd(changed, k, context) && start == StartOf(changed[k], context)
    ensures start <= EndOf(changed[end], context, |ordered|) <= |ordered|
    ensures end + 1 < |changed| ==> start <= StartOf(changed[end + 1], context)
    ensures CursorAt(ordered, start, beforeLine, afterLine)
    ensures hunk == HunkOf(ordered, Range(start, EndOf(changed[end], context, |ordered|)))
  {
    GroupBounds(|ordered|, changed, k, context);
    start := StartOf(changed[k], context);
    end := FindGroupEnd(changed, k, context);
    beforeLine, afterLine := MoveCursor(ordered, start, cursor, atBefore, atAfter);
    hunk := MakeHunk(ordered, start, EndOf(changed[end], context, |ordered|), beforeLine, afterLine);
  }

  /** The same, for group number `m` of the groups of the diff. */
  method NextGroup(ordered: seq<string>, changed: seq<nat>, k: nat, context: nat, cursor: nat, atBefore: nat, atAfter: nat,
                   ghost starts: seq<nat>, ghost ranges: seq<Range>, ghost hunks: seq<Hunk>, ghost m: nat)
    returns (end: nat, start: nat, beforeLine: nat, afterLine: nat, hunk: Hunk)
    requires changed == ChangedIn(ordered) && k < |changed| && cursor <= StartOf(changed[k], context)
    requires CursorAt(ordered, cursor, atBefore, atAfter)
    requires AreGroups(|ordered|, changed, context, starts, ranges) && AreHunks(ordered, ranges, hunks)
    requires m < |starts| && k == starts[m]
    ensures m < |hunks| && hunk == hunks[m] && end + 1 == starts[m + 1] <= |changed|
    ensures end + 1 < |changed| ==> start <= StartOf(changed[end + 1], context)
    ensures CursorAt(ordered, start, beforeLine, afterLine)
  {
    assert IsGroup(|ordered|, changed, context, starts, ranges, m);
    assert IsHunk(ordered, ranges, hunks, m);
    end, start, beforeLine, afterLine, hunk := NextHunk(ordered, changed, k, context, cursor, atBefore, atAfter);
  }

  /** The loop over the groups of changes, which makes one hunk of each. */
  method MakeHunks(ordered: seq<string>, changed: seq<nat>, context: nat,
                   ghost starts: seq<nat>, ghost ranges: seq<Range>, ghost hunks: seq<Hunk>)
    returns (printed: seq<string>)
    requires changed == ChangedIn(ordered)
    requires AreGroups(|ordered|, changed, context, starts, ranges) && starts[0] == 0 && AreHunks(ordered, ranges, hunks)
    ensures printed == PrintHunks(hunks)
  {
    printed := [];
    var cursor, beforeLine, afterLine := 0, 1, 1;
    var k := 0;
    ghost var m := 0;
    while k < |changed|
      invariant 0 <= m < |starts| && k == starts[m] <= |changed|
      invariant 0 <= cursor && (k < |changed| ==> cursor <= StartOf(changed[k], context))
      invariant CursorAt(ordered, cursor, beforeLine, afterLine)
      invariant printed == PrintHunks(hunks[..m])
      decreases |starts| - m
    {
      var end, hunk;
      end, cursor, beforeLine, afterLine, hunk :=
        NextGroup(ordered, changed, k, context, cursor, beforeLine, afterLine, starts, ranges, hunks, m);
      PrintOneMore(hunks, m);
      printed := printed + PrintHunk(hunk);
      k, m := end + 1, m + 1;
    }
    assert m < |hunks| ==> IsGroup(|ordered|, changed, context, starts, ranges, m);
    assert hunks[..m] == hunks;
  }

  method ContextHunks(lines: seq<string>, context: nat) returns (printed: seq<string>)
    ensures WithinLines(HunkRanges(Ordered(lines), context), |Ordered(lines)|)
    ensures printed == PrintHunks(HunksOf(Ordered(lines), HunkRanges(Ordered(lines), context)))
  {
    var ordered := OrderRuns(lines);
    var changed := ChangedIn(ordered);
    ghost var ranges := HunkRanges(ordered, context);
    RangesFit(ordered, 0, context);
    GroupsOfRanges(|ordered|, changed, 0, context);
    printed := MakeHunks(ordered, changed, context, GroupStarts(changed, 0, context), ranges, HunksOf(ordered, ranges));
  }

  // ----- what the output says -----

  /** The hunks of a script with its removals first in each run. */
  ghost function ScriptHunks(script: seq<string>, context: nat): seq<Hunk> {
    RangesFit(Ordered(script), 0, context);
    HunksOf(Ordered(script), HunkRanges(Ordered(script), context))
  }

  /** The lines after the two file headers, for a diff with context. */
  ghost function HunkBody(script: seq<string>, context: nat): seq<string> {
    var hunks := ScriptHunks(script, context);
    if hunks == [] then [ONLY_FINAL_NEWLINE] else PrintHunks(hunks)
  }

  ghost function WithHeaders(body: seq<string>): string {
    Join([BEFORE_HEADER, AFTER_HEADER] + body)
  }

  lemma {:induction false} PrintNatOneLine(n: nat)
    ensures OneLine(PrintNat(n))
  {
    DigitIsDigit(n % 10);
    if n >= 10 { PrintNatOneLine(n / 10); }
  }

  lemma {:induction false} PrintNumbersOneLine(numbers: seq<nat>, marks: seq<string>)
    requires |numbers| == |marks| && AllOneLine(marks)
    ensures OneLine(PrintNumbers(numbers, marks))
  {
    if marks != [] {
      PrintNatOneLine(numbers[0]);
      PrintNumbersOneLine(numbers[1..], marks[1..]);
    }
  }

  lemma PrintHeaderOneLine(h: Header)
    ensures OneLine(PrintHeader(h)) && PrintHeader(h)[0] == '@'
  {
    PrintNumbersOneLine([h.oldStart, h.oldCount, h.newStart, h.newCount], MARKS);
  }

  lemma {:induction false} OnlyOneLine(mark: char, lines: seq<string>)
    requires AllOneLine(lines)
    ensures AllOneLine(Only(mark, lines))
  {
    if lines != [] {
      assert OneLine(lines[0]);
      OnlyOneLine(mark, lines[1..]);
    }
  }

  lemma {:induction false} OrderedOneLine(lines: seq<string>)
    requires AllOneLine(lines)
    ensures AllOneLine(Ordered(lines))
    decreases |lines|
  {
    if lines != [] {
      var n := if Kept(lines[0]) then 1 else RunLength(lines);
      assert OneLine(lines[0]);
      OnlyOneLine('-', lines[..n]);
      OnlyOneLine('+', lines[..n]);
      OrderedOneLine(lines[n..]);
    }
  }

  lemma {:induction false} PrintedOneLine(hunks: seq<Hunk>)
    requires forall m :: 0 <= m < |hunks| ==> AllOneLine(hunks[m].body)
    ensures AllOneLine(PrintHunks(hunks))
    ensures if hunks == [] then PrintHunks(hunks) == []
            else PrintHunks(hunks) != [] && PrintHunks(hunks) != [ONLY_FINAL_NEWLINE]
  {
    if hunks != [] {
      PrintHeaderOneLine(hunks[0].header);
      PrintedOneLine(hunks[1..]);
      assert PrintHunks(hunks)[0] == PrintHeader(hunks[0].header) && ONLY_FINAL_NEWLINE[0] == '(';
    }
  }

  lemma ReadHeaders(body: seq<string>)
    requires AllOneLine(body)
    ensures Split(WithHeaders(body)) == [BEFORE_HEADER, AFTER_HEADER] + body
    ensures WithHeaders(body) != NO_CHANGES
  {
    var lines := [BEFORE_HEADER, AFTER_HEADER] + body;
    assert AllOneLine(lines);
    SplitJoin(lines);
    assert WithHeaders(body)[0] == '-';
  }

  lemma ApplyBody(before: seq<string>, hunks: seq<Hunk>)
    requires hunks != [] && AllOneLine(PrintHunks(hunks)) && PrintHunks(hunks) != [ONLY_FINAL_NEWLINE]
    requires forall m :: 0 <= m < |hunks| ==> WellCounted(hunks[m])
    ensures ApplyDiff(before, WithHeaders(PrintHunks(hunks))) == ApplyHunks(before, 0, [], hunks)
  {
    var body := PrintHunks(hunks);
    ReadHeaders(body);
    assert ([BEFORE_HEADER, AFTER_HEADER] + body)[2..] == body;
    ReadPrintedHunks(hunks);
  }

  lemma ApplyNothing(before: seq<string>)
    ensures ApplyDiff(before, WithHeaders([ONLY_FINAL_NEWLINE])) == Some(before)
    ensures ApplyHunks(before, 0, [], []) == Some(before)
  {
    assert AllOneLine([ONLY_FINAL_NEWLINE]);
    ReadHeaders([ONLY_FINAL_NEWLINE]);
    assert [] + before[0..] == before;
  }

  lemma ScriptHunksApply(script: seq<string>, context: nat)
    requires AllWellMarked(script)
    ensures ApplyHunks(TextsOn(Before, script), 0, [], ScriptHunks(script, context)) == Some(TextsOn(After, script))
  {
    OrderedKeepsSides(script);
    HunksApply(Ordered(script), context);
  }

  lemma HunksAreWellMade(lines: seq<string>, ranges: seq<Range>)
    requires WithinLines(ranges, |lines|) && AllWellMarked(lines) && AllOneLine(lines)
    ensures forall m :: 0 <= m < |ranges| ==>
      WellCounted(HunksOf(lines, ranges)[m]) && AllOneLine(HunksOf(lines, ranges)[m].body)
  {}

  lemma ScriptHunksAreWellMade(script: seq<string>, context: nat)
    requires AllWellMarked(script) && AllOneLine(script)
    ensures var hunks := ScriptHunks(script, context);
      forall m :: 0 <= m < |hunks| ==> WellCounted(hunks[m]) && AllOneLine(hunks[m].body)
  {
    OrderedKeepsSides(script);
    OrderedOneLine(script);
    RangesFit(Ordered(script), 0, context);
    HunksAreWellMade(Ordered(script), HunkRanges(Ordered(script), context));
  }

  /** Printed with any context, a script turns its one side into its other side. */
  lemma HunkBodyApplies(script: seq<string>, context: nat)
    requires AllWellMarked(script) && AllOneLine(script)
    ensures ApplyDiff(TextsOn(Before, script), WithHeaders(HunkBody(script, context))) == Some(TextsOn(After, script))
  {
    var hunks := ScriptHunks(script, context);
    ScriptHunksApply(script, context);
    if hunks == [] {
      ApplyNothing(TextsOn(Before, script));
    } else {
      HunkBodyOneLine(script, context);
      ApplyBody(TextsOn(Before, script), hunks);
    }
  }

  lemma HunkBodyOneLine(script: seq<string>, context: nat)
    requires AllWellMarked(script) && AllOneLine(script)
    ensures var hunks := ScriptHunks(script, context);
      && (forall m :: 0 <= m < |hunks| ==> WellCounted(hunks[m]))
      && AllOneLine(PrintHunks(hunks)) && PrintHunks(hunks) != [ONLY_FINAL_NEWLINE]
      && (PrintHunks(hunks) == [] <==> hunks == [])
      && AllOneLine(HunkBody(script, context))
  {
    ScriptHunksAreWellMade(script, context);
    PrintedOneLine(ScriptHunks(script, context));
  }

  lemma LinesOfOneLine(text: string, context: Option<nat>)
    ensures AllOneLine(LinesOf(text, context))
  {
    SplitOneLine(text);
  }

  /**
   The body of a diff with context is the one line about the final newline exactly when the texts have the same
   lines, and two different texts have the same lines only when one is the other plus a final newline.
   */
  lemma OnlyFinalNewlineIsTrue(beforeText: string, afterText: string, context: nat)
    requires LinesOf(beforeText, Some(context)) == LinesOf(afterText, Some(context))
    ensures beforeText == afterText || beforeText == afterText + "\n" || afterText == beforeText + "\n"
  {
    LinesGiveText(beforeText);
    LinesGiveText(afterText);
  }

  lemma LinesGiveText(text: string)
    ensures var lines := LinesOf(text, Some(0));
      if text == "" then lines == [] else lines != [] && (text == Join(lines) || text == Join(lines) + "\n")
  {
    JoinSplit(text);
    if text != "" && text[|text| - 1] == '\n' {
      var shorter := text[..|text| - 1];
      assert text == shorter + "\n";
      SplitFinalNewline(shorter);
      JoinSplit(shorter);
    }
  }

  // ----- the lines of a text, without reference to how they are split -----

  /** These are the lines of the text as `diff -u` counts them: each ends with a newline, but for the last at most. */
  ghost predicate AreLines(lines: seq<string>, text: string) {
    AllOneLine(lines) &&
    if lines == [] then text == ""
    else text == Join(lines) + "\n" || (text == Join(lines) && lines[|lines| - 1] != "")
  }

  lemma LinesSplit(lines: seq<string>, text: string)
    requires AreLines(lines, text) && lines != []
    ensures Split(text) == if text == Join(lines) + "\n" then lines + [""] else lines
  {
    SplitJoin(lines);
    if text == Join(lines) + "\n" { SplitFinalNewline(Join(lines)); }
  }

  lemma {:induction false} LastOfSplit(text: string)
    ensures var last := Split(text)[|Split(text)| - 1];
      last == "" <==> text == "" || text[|text| - 1] == '\n'
  {
    if |text| > 1 {
      LastOfSplit(text[1..]);
    }
  }

  lemma EndedLinesAreThere(shorter: string, context: nat)
    ensures AreLines(LinesOf(shorter + "\n", Some(context)), shorter + "\n")
  {
    LinesOfOneLine(shorter + "\n", Some(context));
    SplitFinalNewline(shorter);
    JoinSplit(shorter);
    assert (Split(shorter) + [""])[..|Split(shorter)|] == Split(shorter);
  }

  lemma LinesAreThere(text: string, context: nat)
    ensures AreLines(LinesOf(text, Some(context)), text)
  {
    if text == "" {
      assert Split(text) == [""];
    } else if text[|text| - 1] == '\n' {
      EndedLinesAreThere(text[..|text| - 1], context);
      assert text == text[..|text| - 1] + "\n";
    } else {
      LinesOfOneLine(text, Some(context));
      LastOfSplit(text);
      JoinSplit(text);
    }
  }

  lemma LastOfText(lines: seq<string>, text: string)
    requires AreLines(lines, text) && lines != []
    ensures text != "" && (text[|text| - 1] == '\n' <==> text == Join(lines) + "\n")
  {
    LinesSplit(lines, text);
    LastOfSplit(text);
    assert Split("") == [""];
  }

  /** A text has lines, and no other ones. */
  lemma LinesAreUnique(lines: seq<string>, text: string, context: nat)
    requires AreLines(lines, text)
    ensures lines == LinesOf(text, Some(context))
  {
    if lines == [] {
      assert Split("") == [""];
    } else {
      LastOfText(lines, text);
      LinesSplit(lines, text);
      assert (lines + [""])[..|lines|] == lines;
    }
  }

  // ----- the whole diff -----

  /** The lines of the printed diff after its two headers. */
  ghost function BodyOf(diff: string): seq<string> {
    if |Split(diff)| >= 2 then Split(diff)[2..] else []
  }

  ghost predicate HasHeaders(diff: string) {
    |Split(diff)| >= 2 && Split(diff)[0] == "--- before" && Split(diff)[1] == "+++ after"
  }

  /** The hunks show exactly the lines of the script that are near enough to a change. */
  ghost predicate ShowsNeighbourhoods(body: seq<string>, script: seq<string>, ranges: seq<Range>, context: nat) {
    && Separated(ranges, 0, |script|) && WithinLines(ranges, |script|)
    && (forall p :: 0 <= p < |script| ==>
          (InHunk(p, ranges) <==> exists q :: 0 <= q < |script| && !Kept(script[q]) && Near(p, q, context)))
    && body == if ranges == [] then ["(only the final newline differs)"] else PrintHunks(HunksOf(script, ranges))
  }

  /** The first shortest script from one list of lines to the other, with the removals of each run put first. */
  ghost predicate IsOrderedScript(script: seq<string>, before: seq<string>, after: seq<string>) {
    && ShortestScript(script, before, after) && RemovalsFirst(script)
    && exists first :: FirstShortestScript(first, before, after) && SameKept(first, script)
  }

  ghost predicate ShowsChanges(diff: string, before: seq<string>, after: seq<string>, context: nat) {
    exists script, ranges :: IsOrderedScript(script, before, after) && ShowsNeighbourhoods(BodyOf(diff), script, ranges, context)
  }

  lemma OrderedIsShortest(script: seq<string>, before: seq<string>, after: seq<string>)
    requires ShortestScript(script, before, after)
    ensures ShortestScript(Ordered(script), before, after) && RemovalsFirst(Ordered(script)) && SameKept(script, Ordered(script))
  {
    OrderedKeepsSides(script);
    SidesCount(script);
    SidesCount(Ordered(script));
  }

  lemma HunkBodyShows(script: seq<string>, context: nat)
    ensures ShowsNeighbourhoods(HunkBody(script, context), Ordered(script), HunkRanges(Ordered(script), context), context)
  {
    HunksAreNeighbourhoods(Ordered(script), context);
    RangesFit(Ordered(script), 0, context);
  }

  /** Without a context, the printed lines are a shortest script whose two sides are the two texts. */
  ghost predicate IsPlainDiff(diff: string, beforeText: string, afterText: string) {
    && HasHeaders(diff)
    && Join(TextsOn(Before, BodyOf(diff))) == beforeText && Join(TextsOn(After, BodyOf(diff))) == afterText
    && FirstShortestScript(BodyOf(diff), Split(beforeText), Split(afterText))
  }

  /**
   With a context, they are the hunks around the changes of a shortest script between the lines of the two texts, and
   applying what is printed to the lines of the one text gives those of the other.
   */
  ghost predicate IsHunkDiff(diff: string, beforeText: string, afterText: string, context: nat) {
    && HasHeaders(diff) && TurnsInto(diff, beforeText, afterText)
    && forall before, after :: AreLines(before, beforeText) && AreLines(after, afterText) ==>
         ShowsChanges(diff, before, after, context)
  }

  ghost predicate TurnsInto(diff: string, beforeText: string, afterText: string) {
    forall before, after :: AreLines(before, beforeText) && AreLines(after, afterText) ==>
      ApplyDiff(before, diff) == Some(after)
  }

  lemma EqualTextsApply(text: string)
    ensures TurnsInto("(no changes)", text, text)
  {
    forall before, after | AreLines(before, text) && AreLines(after, text) ensures before == after {
      LinesAreUnique(before, text, 0);
      LinesAreUnique(after, text, 0);
    }
  }

  /** A shortest script, by way of the filled table. */
  method DiffScript(before: seq<string>, after: seq<string>) returns (lines: seq<string>)
    ensures FirstShortestScript(lines, before, after)
    ensures AllOneLine(before) && AllOneLine(after) ==> AllOneLine(lines)
  {
    var lcs := FillTable(before, after);
    lines := Walk(before, after, lcs);
  }

  lemma PlainDiffIsRight(beforeText: string, afterText: string, lines: seq<string>)
    requires FirstShortestScript(lines, LinesOf(beforeText, None), LinesOf(afterText, None)) && AllOneLine(lines)
    ensures lines != [] && WithHeaders(lines) != "(no changes)" && IsPlainDiff(WithHeaders(lines), beforeText, afterText)
  {
    assert TextsOn(Before, lines) != [];
    ReadHeaders(lines);
    assert ([BEFORE_HEADER, AFTER_HEADER] + lines)[2..] == lines;
    JoinSplit(beforeText);
    JoinSplit(afterText);
  }

  lemma HunkDiffIsPrinted(lines: seq<string>, context: nat)
    requires AllWellMarked(lines) && AllOneLine(lines)
    ensures var diff := WithHeaders(HunkBody(lines, context));
      diff != "(no changes)" && HasHeaders(diff) && BodyOf(diff) == HunkBody(lines, context)
  {
    var body := HunkBody(lines, context);
    HunkBodyOneLine(lines, context);
    ReadHeaders(body);
    assert ([BEFORE_HEADER, AFTER_HEADER] + body)[2..] == body;
  }

  lemma HunkDiffShows(before: seq<string>, after: seq<string>, context: nat, lines: seq<string>)
    requires FirstShortestScript(lines, before, after) && AllOneLine(lines)
    ensures var diff := WithHeaders(HunkBody(lines, context));
      ApplyDiff(before, diff) == Some(after) && ShowsChanges(diff, before, after, context)
  {
    HunkBodyApplies(lines, context);
    HunkDiffIsPrinted(lines, context);
    OrderedIsShortest(lines, before, after);
    HunkBodyShows(lines, context);
    assert IsOrderedScript(Ordered(lines), before, after);
  }

  lemma HunkDiffIsRight(beforeText: string, afterText: string, context: nat, lines: seq<string>)
    requires var before, after := LinesOf(beforeText, Some(context)), LinesOf(afterText, Some(context));
      FirstShortestScript(lines, before, after)
    requires AllOneLine(lines)
    ensures WithHeaders(HunkBody(lines, context)) != "(no changes)"
    ensures IsHunkDiff(WithHeaders(HunkBody(lines, context)), beforeText, afterText, context)
  {
    HunkDiffIsPrinted(lines, context);
    HunkDiffShows(LinesOf(beforeText, Some(context)), LinesOf(afterText, Some(context)), context, lines);
    forall before, after | AreLines(before, beforeText) && AreLines(after, afterText)
      ensures before == LinesOf(beforeText, Some(context)) && after == LinesOf(afterText, Some(context))
    {
      LinesAreUnique(before, beforeText, context);
      LinesAreUnique(after, afterText, context);
    }
  }

  method BuildUnifiedDiff(beforeText: string, afterText: string, context: Option<nat>) returns (diff: string)
    ensures diff == "(no changes)" <==> beforeText == afterText
    ensures beforeText != afterText && context.None? ==> IsPlainDiff(diff, beforeText, afterText)
    ensures beforeText != afterText && context.Some? ==> IsHunkDiff(diff, beforeText, afterText, context.value)
    ensures context.Some? ==> TurnsInto(diff, beforeText, afterText)
  {
    if beforeText == afterText {
      EqualTextsApply(beforeText);
      return NO_CHANGES;
    }
    var before, after := LinesOf(beforeText, context), LinesOf(afterText, context);
    LinesOfOneLine(beforeText, context);
    LinesOfOneLine(afterText, context);
    var lines := DiffScript(before, after);
    var body := lines;
    if context.Some? {
      body := ContextHunks(lines, context.value);
      HunkDiffIsRight(beforeText, afterText, context.value, lines);
    } else {
      PlainDiffIsRight(beforeText, afterText, lines);
    }
    if body == [] { body := [ONLY_FINAL_NEWLINE]; }
    diff := Join([BEFORE_HEADER, AFTER_HEADER] + body);
  }
}
