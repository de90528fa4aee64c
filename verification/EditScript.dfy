/** The greedy walk of `buildUnifiedDiff` over the filled table, and why its list of lines is a shortest one. */
module EditScript {
  import opened Lines
  import opened DiffLines
  import opened LongestCommonSubsequence

  /** A list of diff lines that turns one list of texts into the other. */
  ghost predicate IsScript(lines: seq<string>, before: seq<string>, after: seq<string>) {
    && AllWellMarked(lines)
    && TextsOn(Before, lines) == before
    && TextsOn(After, lines) == after
  }

  /** How many lines of a script are changes. */
  ghost function Changes(lines: seq<string>): int { |lines| - KeptCount(lines) }

  /** A script that makes as few changes as any script between the two lists. */
  ghost predicate ShortestScript(script: seq<string>, before: seq<string>, after: seq<string>) {
    && IsScript(script, before, after)
    && forall other :: IsScript(other, before, after) ==> Changes(script) <= Changes(other)
  }

  /** Where two scripts part, the first one keeps a line, or adds one that the other does not keep: `' ' < '+' < '-'`. */
  ghost predicate ComesFirst(script: seq<string>, other: seq<string>) {
    || script == other
    || (script != [] && other != [] && script[0] != "" && other[0] != "" && script[0][0] < other[0][0])
    || (script != [] && other != [] && script[0] == other[0] && ComesFirst(script[1..], other[1..]))
  }

  /** The shortest script that comes before every other one. */
  ghost predicate FirstShortestScript(script: seq<string>, before: seq<string>, after: seq<string>) {
    && ShortestScript(script, before, after)
    && forall other :: ShortestScript(other, before, after) ==> ComesFirst(script, other)
  }

  ghost function KeptTexts(lines: seq<string>): seq<string> {
    if lines == [] then []
    else if Kept(lines[0]) then [TextOf(lines[0])] + KeptTexts(lines[1..])
    else KeptTexts(lines[1..])
  }

  /** The unchanged lines of a script are a common subsequence of its two sides. */
  lemma {:induction false} KeptTextsAreCommon(lines: seq<string>)
    requires AllWellMarked(lines)
    ensures IsCommon(KeptTexts(lines), TextsOn(Before, lines), TextsOn(After, lines))
    ensures |KeptTexts(lines)| == KeptCount(lines)
  {
    if lines != [] {
      assert WellMarked(lines[0]) && AllWellMarked(lines[1..]);
      KeptTextsAreCommon(lines[1..]);
      forall side: Side | side.Has(lines[0])
        ensures IsSubsequence(KeptTexts(lines), TextsOn(side, lines))
      {
        assert TextsOn(side, lines)[1..] == TextsOn(side, lines[1..]);
        if Kept(lines[0]) {
          assert KeptTexts(lines)[1..] == KeptTexts(lines[1..]);
        }
        match side case Before => case After =>
      }
    }
  }

  /** No script keeps more lines, or makes fewer changes, than one that keeps `Lcs(before, after)` lines. */
  lemma NoScriptIsShorter(best: seq<string>, other: seq<string>, before: seq<string>, after: seq<string>)
    requires IsScript(best, before, after) && KeptCount(best) == Lcs(before, after)
    requires IsScript(other, before, after)
    ensures KeptCount(other) <= KeptCount(best) && Changes(best) <= Changes(other)
  {
    KeptTextsAreCommon(other);
    LcsIsUpperBound(KeptTexts(other), before, after);
    SidesCount(best);
    SidesCount(other);
  }

  lemma ShortestByCount(script: seq<string>, before: seq<string>, after: seq<string>)
    requires IsScript(script, before, after) && KeptCount(script) == Lcs(before, after)
    ensures ShortestScript(script, before, after)
    ensures forall other :: ShortestScript(other, before, after) ==> KeptCount(other) == Lcs(before, after)
  {
    forall other | IsScript(other, before, after)
      ensures Changes(script) <= Changes(other)
      ensures Changes(other) <= Changes(script) ==> KeptCount(other) == Lcs(before, after)
    {
      NoScriptIsShorter(script, other, before, after);
      SidesCount(script);
      SidesCount(other);
    }
  }

  lemma MarkedLine(mark: string, text: string)
    requires mark in {"  ", "- ", "+ "}
    ensures var line := mark + text;
      && WellMarked(line) && TextOf(line) == text && (OneLine(text) ==> OneLine(line))
      && (Kept(line) <==> mark == "  ") && (Removed(line) <==> mark == "- ") && (Added(line) <==> mark == "+ ")
  {
    assert mark[0] in {' ', '-', '+'};
  }

  /** One step of the walk: a marked line goes to the end of the script. */
  lemma PushLine(lines: seq<string>, before: seq<string>, after: seq<string>, mark: string, text: string)
    requires mark in {"  ", "- ", "+ "} && IsScript(lines, before, after)
    ensures IsScript(lines + [mark + text],
                     if mark == "+ " then before else before + [text],
                     if mark == "- " then after else after + [text])
    ensures KeptCount(lines + [mark + text]) == KeptCount(lines) + (if mark == "  " then 1 else 0)
    ensures AllOneLine(lines) && OneLine(text) ==> AllOneLine(lines + [mark + text])
  {
    MarkedLine(mark, text);
    TextsOnConcat(Before, lines, [mark + text]);
    TextsOnConcat(After, lines, [mark + text]);
    KeptCountConcat(lines, [mark + text]);
  }

  ghost predicate TableOf(lcs: array2<nat>, before: seq<string>, after: seq<string>)
    reads lcs
  {
    && lcs.Length0 == |before| + 1 && lcs.Length1 == |after| + 1
    && forall i, j :: 0 <= i <= |before| && 0 <= j <= |after| ==> IsLcsLength(lcs[i, j], before[i..], after[j..])
  }

  /** Such a table has the values of the recurrence, however it was filled. */
  lemma TableIsRecurrence(lcs: array2<nat>, before: seq<string>, after: seq<string>)
    requires TableOf(lcs, before, after)
    ensures forall i, j :: 0 <= i <= |before| && 0 <= j <= |after| ==> lcs[i, j] == Lcs(before[i..], after[j..])
  {
    forall i, j | 0 <= i <= |before| && 0 <= j <= |after| ensures lcs[i, j] == Lcs(before[i..], after[j..]) {
      LcsLengthIsUnique(lcs[i, j], before[i..], after[j..]);
    }
  }

  /** The walk's choice between two different lines. */
  ghost predicate AddsFirst(before: seq<string>, after: seq<string>, i: nat, j: nat)
    requires i < |before| && j < |after|
  {
    Lcs(before[i..], after[j + 1..]) >= Lcs(before[i + 1..], after[j..])
  }

  lemma SuffixStep(before: seq<string>, after: seq<string>, i: nat, j: nat)
    requires i <= |before| && j <= |after|
    ensures i < |before| && j < |after| && before[i] == after[j] ==>
      Lcs(before[i..], after[j..]) == Lcs(before[i + 1..], after[j + 1..]) + 1
    ensures j < |after| && (i == |before| || (before[i] != after[j] && AddsFirst(before, after, i, j))) ==>
      Lcs(before[i..], after[j..]) == Lcs(before[i..], after[j + 1..])
    ensures i < |before| && (j == |after| || (before[i] != after[j] && !AddsFirst(before, after, i, j))) ==>
      Lcs(before[i..], after[j..]) == Lcs(before[i + 1..], after[j..])
  {
    if i < |before| { assert before[i..][1..] == before[i + 1..]; }
    if j < |after| { assert after[j..][1..] == after[j + 1..]; }
  }

  /** The script that keeps a line as soon as it can, and adds before it removes where both lose nothing. */
  ghost function GreedyScript(before: seq<string>, after: seq<string>): seq<string>
    decreases |before| + |after|
  {
    if before != [] && after != [] && before[0] == after[0] then ["  " + before[0]] + GreedyScript(before[1..], after[1..])
    else if after != [] && (before == [] || Lcs(before, after[1..]) >= Lcs(before[1..], after)) then
      ["+ " + after[0]] + GreedyScript(before, after[1..])
    else if before != [] then ["- " + before[0]] + GreedyScript(before[1..], after)
    else []
  }

  /** The rest of a script that keeps as many lines as there can be keeps as many as there then can be. */
  lemma ScriptTail(script: seq<string>, before: seq<string>, after: seq<string>)
    requires IsScript(script, before, after) && script != []
    ensures var line := script[0];
      && (Added(line) || (before != [] && before[0] == TextOf(line)))
      && (Removed(line) || (after != [] && after[0] == TextOf(line)))
      && WellMarked(line)
      && IsScript(script[1..], if Added(line) then before else before[1..], if Removed(line) then after else after[1..])
      && KeptCount(script[1..]) <=
         Lcs(if Added(line) then before else before[1..], if Removed(line) then after else after[1..])
  {
    var line, rest := script[0], script[1..];
    assert WellMarked(line) && AllWellMarked(rest);
    KeptTextsAreCommon(rest);
    LcsIsUpperBound(KeptTexts(rest), TextsOn(Before, rest), TextsOn(After, rest));
  }

  lemma LineOfMark(line: string)
    requires WellMarked(line)
    ensures line == (if Kept(line) then "  " else if Added(line) then "+ " else "- ") + TextOf(line)
  {}

  /** It comes before every script that makes no more changes. */
  lemma {:induction false} GreedyComesFirst(other: seq<string>, before: seq<string>, after: seq<string>)
    requires IsScript(other, before, after) && KeptCount(other) == Lcs(before, after)
    ensures ComesFirst(GreedyScript(before, after), other)
    decreases |other|
  {
    if other != [] {
      var line := other[0];
      ScriptTail(other, before, after);
      LineOfMark(line);
      if Kept(line) {
        GreedyComesFirst(other[1..], before[1..], after[1..]);
      } else if before != [] && after != [] && before[0] == after[0] {
        assert GreedyScript(before, after)[0][0] == ' ';
      } else if Added(line) {
        GreedyComesFirst(other[1..], before, after[1..]);
      } else if after != [] && Lcs(before, after[1..]) >= Lcs(before[1..], after) {
        assert GreedyScript(before, after)[0][0] == '+';
      } else {
        GreedyComesFirst(other[1..], before[1..], after);
      }
    }
  }

  lemma GreedyIsFirst(script: seq<string>, before: seq<string>, after: seq<string>)
    requires IsScript(script, before, after) && KeptCount(script) == Lcs(before, after)
    requires script == GreedyScript(before, after)
    ensures FirstShortestScript(script, before, after)
  {
    ShortestByCount(script, before, after);
    forall other | ShortestScript(other, before, after) ensures ComesFirst(script, other) {
      GreedyComesFirst(other, before, after);
    }
  }

  lemma GreedyNext(lines: seq<string>, line: string, rest: seq<string>)
    ensures lines + ([line] + rest) == lines + [line] + rest
  {}

  lemma GreedyStep(before: seq<string>, after: seq<string>, i: nat, j: nat)
    requires i <= |before| && j <= |after|
    ensures var rest := GreedyScript(before[i..], after[j..]);
      if i < |before| && j < |after| && before[i] == after[j] then
        rest == ["  " + before[i]] + GreedyScript(before[i + 1..], after[j + 1..])
      else if j < |after| && (i == |before| || AddsFirst(before, after, i, j)) then
        rest == ["+ " + after[j]] + GreedyScript(before[i..], after[j + 1..])
      else if i < |before| then rest == ["- " + before[i]] + GreedyScript(before[i + 1..], after[j..])
      else rest == []
  {
    if i < |before| { assert before[i..][1..] == before[i + 1..]; }
    if j < |after| { assert after[j..][1..] == after[j + 1..]; }
  }

  /** What the walk knows at line `i` of one text and line `j` of the other. */
  ghost predicate Walked(lines: seq<string>, before: seq<string>, after: seq<string>, i: nat, j: nat)
    requires i <= |before| && j <= |after|
  {
    && IsScript(lines, before[..i], after[..j])
    && KeptCount(lines) + Lcs(before[i..], after[j..]) == Lcs(before, after)
    && lines + GreedyScript(before[i..], after[j..]) == GreedyScript(before, after)
    && (AllOneLine(before) && AllOneLine(after) ==> AllOneLine(lines))
  }

  lemma KeepStep(lines: seq<string>, before: seq<string>, after: seq<string>, i: nat, j: nat)
    requires i < |before| && j < |after| && before[i] == after[j] && Walked(lines, before, after, i, j)
    ensures Walked(lines + ["  " + before[i]], before, after, i + 1, j + 1)
  {
    SuffixStep(before, after, i, j);
    PushLine(lines, before[..i], after[..j], "  ", before[i]);
    GreedyStep(before, after, i, j);
    GreedyNext(lines, "  " + before[i], GreedyScript(before[i + 1..], after[j + 1..]));
    assert before[..i + 1] == before[..i] + [before[i]] && after[..j + 1] == after[..j] + [after[j]];
  }

  lemma AddStep(lines: seq<string>, before: seq<string>, after: seq<string>, i: nat, j: nat)
    requires i <= |before| && j < |after| && Walked(lines, before, after, i, j)
    requires i == |before| || (before[i] != after[j] && AddsFirst(before, after, i, j))
    ensures Walked(lines + ["+ " + after[j]], before, after, i, j + 1)
  {
    SuffixStep(before, after, i, j);
    PushLine(lines, before[..i], after[..j], "+ ", after[j]);
    GreedyStep(before, after, i, j);
    GreedyNext(lines, "+ " + after[j], GreedyScript(before[i..], after[j + 1..]));
    assert after[..j + 1] == after[..j] + [after[j]];
  }

  lemma RemoveStep(lines: seq<string>, before: seq<string>, after: seq<string>, i: nat, j: nat)
    requires i < |before| && j <= |after| && Walked(lines, before, after, i, j)
    requires j == |after| || (before[i] != after[j] && !AddsFirst(before, after, i, j))
    ensures Walked(lines + ["- " + before[i]], before, after, i + 1, j)
  {
    SuffixStep(before, after, i, j);
    PushLine(lines, before[..i], after[..j], "- ", before[i]);
    GreedyStep(before, after, i, j);
    GreedyNext(lines, "- " + before[i], GreedyScript(before[i + 1..], after[j..]));
    assert before[..i + 1] == before[..i] + [before[i]];
  }

  lemma WalkedAll(lines: seq<string>, before: seq<string>, after: seq<string>)
    requires Walked(lines, before, after, |before|, |after|)
    ensures IsScript(lines, before, after) && KeptCount(lines) == Lcs(before, after)
    ensures lines == GreedyScript(before, after)
    ensures AllOneLine(before) && AllOneLine(after) ==> AllOneLine(lines)
  {
    assert before[..|before|] == before && after[..|after|] == after;
    GreedyStep(before, after, |before|, |after|);
    SuffixStep(before, after, |before|, |after|);
  }

  /** The walk: a script with as many unchanged lines as the table's first entry says. */
  method Walk(before: seq<string>, after: seq<string>, lcs: array2<nat>) returns (lines: seq<string>)
    requires TableOf(lcs, before, after)
    ensures IsScript(lines, before, after)
    ensures KeptCount(lines) == lcs[0, 0] == Lcs(before, after)
    ensures FirstShortestScript(lines, before, after)
    ensures AllOneLine(before) && AllOneLine(after) ==> AllOneLine(lines)
  {
    lines := [];
    var rows, cols := |before|, |after|;
    var i, j := 0, 0;
    TableIsRecurrence(lcs, before, after);
    assert before[0..] == before && after[0..] == after;
    while i < rows || j < cols
      invariant 0 <= i <= rows && 0 <= j <= cols
      invariant Walked(lines, before, after, i, j)
      decreases rows - i + cols - j
    {
      if i < rows && j < cols && before[i] == after[j] {
        KeepStep(lines, before, after, i, j);
        lines := lines + ["  " + before[i]];
        i, j := i + 1, j + 1;
      } else if j < cols && (i == rows || lcs[i, j + 1] >= lcs[i + 1, j]) {
        AddStep(lines, before, after, i, j);
        lines := lines + ["+ " + after[j]];
        j := j + 1;
      } else if i < rows {
        RemoveStep(lines, before, after, i, j);
        lines := lines + ["- " + before[i]];
        i := i + 1;
      }
    }
    WalkedAll(lines, before, after);
    GreedyIsFirst(lines, before, after);
  }
}
