/**
 The second half of `contextHunks`: changed lines grouped into hunks, and the `@@ -a,b +c,d @@` headers of
 "Diff -u or -U Output Format" in IEEE Std 1003.1, against a reader that applies such hunks strictly.
 */
module Hunks {
  import opened Options
  import opened Lines
  import opened DiffLines

  /** The lines `start..end` of a diff. */
  datatype Range = Range(start: nat, end: nat)

  // ----- which lines are in a hunk -----

  /** The places of the changed lines, in order. */
  function ChangedIn(lines: seq<string>): (changed: seq<nat>)
    ensures forall m :: 0 <= m < |changed| ==> changed[m] < |lines|
    ensures Increasing(changed)
  {
    if lines == [] then []
    else
      var last := |lines| - 1;
      var rest := ChangedIn(lines[..last]);
      if Kept(lines[last]) then rest else rest + [last]
  }

  lemma {:induction false} ChangedInIsExact(lines: seq<string>, p: nat)
    requires p < |lines|
    ensures p in ChangedIn(lines) <==> !Kept(lines[p])
  {
    var last := |lines| - 1;
    if p < last {
      ChangedInIsExact(lines[..last], p);
    }
  }

  ghost predicate Increasing(changed: seq<nat>) {
    forall m, n :: 0 <= m < n < |changed| ==> changed[m] < changed[n]
  }

  /** The last change of the group that change `k` is in: a gap of at most two contexts does not end a group. */
  ghost function GroupEnd(changed: seq<nat>, k: nat, context: nat): (end: nat)
    requires k < |changed|
    ensures k <= end < |changed|
    ensures end + 1 < |changed| ==> changed[end + 1] - changed[end] - 1 > 2 * context
    decreases |changed| - k
  {
    if k + 1 < |changed| && changed[k + 1] - changed[k] - 1 <= 2 * context
    then GroupEnd(changed, k + 1, context) else k
  }

  function StartOf(changed: nat, context: nat): nat {
    if changed >= context then changed - context else 0
  }

  function EndOf(changed: nat, context: nat, length: nat): nat {
    if changed + context + 1 < length then changed + context + 1 else length
  }

  /** The hunks of the changes from `k` on. */
  ghost function RangesFrom(length: nat, changed: seq<nat>, k: nat, context: nat): seq<Range>
    requires k <= |changed|
    decreases |changed| - k
  {
    if k == |changed| then []
    else
      var end := GroupEnd(changed, k, context);
      [Range(StartOf(changed[k], context), EndOf(changed[end], context, length))] +
      RangesFrom(length, changed, end + 1, context)
  }

  ghost function HunkRanges(lines: seq<string>, context: nat): seq<Range> {
    RangesFrom(|lines|, ChangedIn(lines), 0, context)
  }

  /** Hunks in order, with at least one line between two of them. */
  ghost predicate Separated(ranges: seq<Range>, from: nat, length: nat) {
    && (forall m :: 0 <= m < |ranges| ==> from <= ranges[m].start < ranges[m].end <= length)
    && (forall m, n :: 0 <= m < n < |ranges| ==> ranges[m].end < ranges[n].start)
  }

  ghost predicate InRange(p: nat, r: Range) { r.start <= p < r.end }

  ghost predicate InHunk(p: nat, ranges: seq<Range>) {
    exists m :: 0 <= m < |ranges| && InRange(p, ranges[m])
  }

  ghost predicate NearChange(p: nat, changed: seq<nat>, from: nat, context: nat) {
    exists m :: from <= m < |changed| && Near(p, changed[m], context)
  }

  ghost predicate Near(p: nat, q: nat, context: nat) { p - q <= context && q - p <= context }

  /** No line between two changes of one group is further than a context from all of its changes. */
  lemma {:induction false} SteadyGaps(changed: seq<nat>, k: nat, context: nat, p: nat) returns (m: nat)
    requires k < |changed| && Increasing(changed)
    requires changed[k] - context <= p <= changed[GroupEnd(changed, k, context)] + context
    ensures k <= m <= GroupEnd(changed, k, context) && Near(p, changed[m], context)
    decreases |changed| - k
  {
    if p <= changed[k] + context {
      m := k;
    } else {
      m := SteadyGaps(changed, k + 1, context, p);
    }
  }

  lemma GroupIsNeighbourhood(length: nat, changed: seq<nat>, k: nat, context: nat, p: nat)
    requires k < |changed| && Increasing(changed) && changed[GroupEnd(changed, k, context)] < length && p < length
    ensures var end := GroupEnd(changed, k, context);
      InRange(p, Range(StartOf(changed[k], context), EndOf(changed[end], context, length))) <==>
      exists m :: k <= m <= end && Near(p, changed[m], context)
  {
    var end := GroupEnd(changed, k, context);
    assert changed[k] <= changed[end];
    if InRange(p, Range(StartOf(changed[k], context), EndOf(changed[end], context, length))) {
      var m := SteadyGaps(changed, k, context, p);
    }
    if m :| k <= m <= end && Near(p, changed[m], context) {
      assert changed[k] <= changed[m] <= changed[end];
    }
  }

  lemma InFirstOrRest(p: nat, first: Range, rest: seq<Range>)
    ensures InHunk(p, [first] + rest) <==> InRange(p, first) || InHunk(p, rest)
  {
    var ranges := [first] + rest;
    if InRange(p, first) { assert InRange(p, ranges[0]); }
    if m :| 0 <= m < |rest| && InRange(p, rest[m]) { assert InRange(p, ranges[m + 1]); }
  }

  lemma NearGroupOrRest(p: nat, changed: seq<nat>, k: nat, end: nat, context: nat)
    requires k <= end < |changed|
    ensures NearChange(p, changed, k, context) <==>
      (exists m :: k <= m <= end && Near(p, changed[m], context)) || NearChange(p, changed, end + 1, context)
  {}

  lemma {:induction false} RangesAreNeighbourhoods(length: nat, changed: seq<nat>, k: nat, context: nat, from: nat)
    requires k <= |changed| && Increasing(changed)
    requires forall m :: 0 <= m < |changed| ==> changed[m] < length
    requires k < |changed| ==> from <= StartOf(changed[k], context)
    ensures Separated(RangesFrom(length, changed, k, context), from, length)
    ensures forall p :: 0 <= p < length ==>
      (InHunk(p, RangesFrom(length, changed, k, context)) <==> NearChange(p, changed, k, context))
    decreases |changed| - k
  {
    if k < |changed| {
      var end := GroupEnd(changed, k, context);
      var first := Range(StartOf(changed[k], context), EndOf(changed[end], context, length));
      var rest := RangesFrom(length, changed, end + 1, context);
      assert changed[k] <= changed[end];
      RangesAreNeighbourhoods(length, changed, end + 1, context, first.end + 1);
      forall p | 0 <= p < length
        ensures InHunk(p, [first] + rest) <==> NearChange(p, changed, k, context)
      {
        GroupIsNeighbourhood(length, changed, k, context, p);
        InFirstOrRest(p, first, rest);
        NearGroupOrRest(p, changed, k, end, context);
      }
      assert Separated([first] + rest, from, length);
    }
  }

  /**
   A line is in a hunk if and only if a changed line is within `context` lines of it, and hunks never overlap
   or touch. So every changed line is in exactly one hunk, and the hunks are as few and as small as they can be.
   */
  lemma HunksAreNeighbourhoods(lines: seq<string>, context: nat)
    ensures Separated(HunkRanges(lines, context), 0, |lines|)
    ensures forall p :: 0 <= p < |lines| ==>
      (InHunk(p, HunkRanges(lines, context)) <==>
       exists q :: 0 <= q < |lines| && !Kept(lines[q]) && Near(p, q, context))
  {
    var changed := ChangedIn(lines);
    RangesAreNeighbourhoods(|lines|, changed, 0, context, 0);
    forall p | 0 <= p < |lines|
      ensures NearChange(p, changed, 0, context) <==>
        exists q :: 0 <= q < |lines| && !Kept(lines[q]) && Near(p, q, context)
    {
      if q :| 0 <= q < |lines| && !Kept(lines[q]) && Near(p, q, context) {
        ChangedInIsExact(lines, q);
        var m :| 0 <= m < |changed| && changed[m] == q;
      }
      if m :| 0 <= m < |changed| && Near(p, changed[m], context) {
        ChangedInIsExact(lines, changed[m]);
      }
    }
  }

  // ----- hunks -----

  datatype Header = Header(oldStart: nat, oldCount: nat, newStart: nat, newCount: nat)

  datatype Hunk = Hunk(header: Header, body: seq<string>)

  /** A line range as unified diffs number it: an empty one is named by the line before it. */
  function FirstLine(linesBefore: nat, count: nat): nat {
    if count == 0 then linesBefore else linesBefore + 1
  }

  ghost function HunkOf(lines: seq<string>, r: Range): Hunk
    requires r.start <= r.end <= |lines|
  {
    var body := lines[r.start..r.end];
    var oldCount, newCount := |TextsOn(Before, body)|, |TextsOn(After, body)|;
    Hunk(Header(FirstLine(|TextsOn(Before, lines[..r.start])|, oldCount), oldCount,
                FirstLine(|TextsOn(After, lines[..r.start])|, newCount), newCount), body)
  }

  ghost predicate WithinLines(ranges: seq<Range>, length: nat) {
    forall m :: 0 <= m < |ranges| ==> ranges[m].start <= ranges[m].end <= length
  }

  ghost function HunksOf(lines: seq<string>, ranges: seq<Range>): (hunks: seq<Hunk>)
    requires WithinLines(ranges, |lines|)
    ensures |hunks| == |ranges|
    ensures forall m :: 0 <= m < |ranges| ==> hunks[m] == HunkOf(lines, ranges[m])
  {
    if ranges == [] then [] else [HunkOf(lines, ranges[0])] + HunksOf(lines, ranges[1..])
  }

  // ----- printing and reading hunks -----

  /** What follows each number of a header. */
  const MARKS := [",", " +", ",", " @@"]

  function PrintHeader(h: Header): string {
    "@@ -" + PrintNumbers([h.oldStart, h.oldCount, h.newStart, h.newCount], MARKS)
  }

  function PrintNumbers(numbers: seq<nat>, marks: seq<string>): string
    requires |numbers| == |marks|
  {
    if marks == [] then ""
    else PrintNat(numbers[0]) + marks[0] + PrintNumbers(numbers[1..], marks[1..])
  }

  function PrintHunk(hunk: Hunk): seq<string> { [PrintHeader(hunk.header)] + hunk.body }

  function PrintHunks(hunks: seq<Hunk>): seq<string> {
    if hunks == [] then [] else PrintHunk(hunks[0]) + PrintHunks(hunks[1..])
  }

  function ReadHeader(line: string): Option<Header> {
    match Expect(line, "@@ -")
    case None => None
    case Some(text) =>
      match ReadNumbers(text, MARKS)
      case None => None
      case Some(n) => Some(Header(n[0], n[1], n[2], n[3]))
  }

  function ReadNumbers(text: string, marks: seq<string>): (numbers: Option<seq<nat>>)
    ensures numbers.Some? ==> |numbers.value| == |marks|
    decreases |marks|
  {
    if marks == [] then if text == "" then Some([]) else None
    else
      match ReadNat(text, marks[0])
      case None => None
      case Some((n, after)) =>
        match ReadNumbers(after, marks[1..])
        case None => None
        case Some(rest) => Some([n] + rest)
  }

  /** How many lines the body of a hunk takes that has this many lines on each side. */
  function BodyLength(lines: seq<string>, oldCount: nat, newCount: nat): (n: Option<nat>)
    ensures n.Some? ==> n.value <= |lines|
  {
    if oldCount == 0 && newCount == 0 then Some(0)
    else if lines == [] || !WellMarked(lines[0]) then None
    else
      var fromOld, fromNew := if Added(lines[0]) then 0 else 1, if Removed(lines[0]) then 0 else 1;
      if fromOld > oldCount || fromNew > newCount then None
      else
        match BodyLength(lines[1..], oldCount - fromOld, newCount - fromNew)
        case None => None
        case Some(n) => Some(n + 1)
  }

  /** The hunks that a list of lines prints: the counts of a header say where its body ends. */
  function ReadHunks(lines: seq<string>): Option<seq<Hunk>>
    decreases |lines|
  {
    if lines == [] then Some([])
    else
      match ReadHeader(lines[0])
      case None => None
      case Some(h) =>
        match BodyLength(lines[1..], h.oldCount, h.newCount)
        case None => None
        case Some(n) =>
          match ReadHunks(lines[1..][n..])
          case None => None
          case Some(rest) => Some([Hunk(h, lines[1..][..n])] + rest)
  }

  lemma {:induction false} ReadPrintedNumbers(numbers: seq<nat>, marks: seq<string>)
    requires |numbers| == |marks|
    requires forall m :: 0 <= m < |marks| ==> marks[m] != "" && !IsDigit(marks[m][0])
    ensures ReadNumbers(PrintNumbers(numbers, marks), marks) == Some(numbers)
  {
    if marks != [] {
      ReadNatPrinted(numbers[0], marks[0], PrintNumbers(numbers[1..], marks[1..]));
      ReadPrintedNumbers(numbers[1..], marks[1..]);
      assert [numbers[0]] + numbers[1..] == numbers;
    }
  }

  /** A header as the standard writes it. */
  lemma HeaderLooks(h: Header)
    ensures PrintHeader(h) ==
      "@@ -" + PrintNat(h.oldStart) + "," + PrintNat(h.oldCount) + " +" + PrintNat(h.newStart) + "," + PrintNat(h.newCount) + " @@"
  {
    var numbers := [h.oldStart, h.oldCount, h.newStart, h.newCount];
    assert PrintNumbers(numbers[3..], MARKS[3..]) == PrintNat(h.newCount) + " @@";
    assert PrintNumbers(numbers[2..], MARKS[2..]) == PrintNat(h.newStart) + "," + PrintNumbers(numbers[3..], MARKS[3..]);
    assert PrintNumbers(numbers[1..], MARKS[1..]) == PrintNat(h.oldCount) + " +" + PrintNumbers(numbers[2..], MARKS[2..]);
    assert PrintNumbers(numbers, MARKS) == PrintNat(h.oldStart) + "," + PrintNumbers(numbers[1..], MARKS[1..]);
  }

  lemma ReadPrintedHeader(h: Header)
    ensures ReadHeader(PrintHeader(h)) == Some(h)
  {
    var numbers := [h.oldStart, h.oldCount, h.newStart, h.newCount];
    ReadPrintedNumbers(numbers, MARKS);
    assert ("@@ -" + PrintNumbers(numbers, MARKS))[4..] == PrintNumbers(numbers, MARKS);
  }

  lemma {:induction false} BodyIsRead(body: seq<string>, rest: seq<string>)
    requires AllWellMarked(body)
    ensures BodyLength(body + rest, |TextsOn(Before, body)|, |TextsOn(After, body)|) == Some(|body|)
  {
    if body != [] {
      assert WellMarked(body[0]) && AllWellMarked(body[1..]);
      BodyIsRead(body[1..], rest);
      assert (body + rest)[1..] == body[1..] + rest;
    }
  }

  ghost predicate WellCounted(hunk: Hunk) {
    && AllWellMarked(hunk.body)
    && hunk.header.oldCount == |TextsOn(Before, hunk.body)|
    && hunk.header.newCount == |TextsOn(After, hunk.body)|
  }

  lemma HeaderThenBody(header: string, body: seq<string>, rest: seq<string>)
    ensures var lines := ([header] + body) + rest;
      lines[0] == header && lines[1..] == body + rest && lines[1..][..|body|] == body && lines[1..][|body|..] == rest
  {}

  lemma ReadPrintedHunk(hunk: Hunk, rest: seq<string>)
    requires WellCounted(hunk)
    ensures ReadHunks(PrintHunk(hunk) + rest) ==
      match ReadHunks(rest) case None => None case Some(hunks) => Some([hunk] + hunks)
  {
    ReadPrintedHeader(hunk.header);
    HeaderThenBody(PrintHeader(hunk.header), hunk.body, rest);
    BodyIsRead(hunk.body, rest);
  }

  /** Reading what is printed for any hunks whose headers count their bodies gives the same hunks. */
  lemma {:induction false} ReadPrintedHunks(hunks: seq<Hunk>)
    requires forall m :: 0 <= m < |hunks| ==> WellCounted(hunks[m])
    ensures ReadHunks(PrintHunks(hunks)) == Some(hunks)
  {
    if hunks != [] {
      ReadPrintedHunks(hunks[1..]);
      ReadPrintedHunk(hunks[0], PrintHunks(hunks[1..]));
      assert [hunks[0]] + hunks[1..] == hunks;
    }
  }

  // ----- applying hunks -----

  /**
   Applies the hunks to the lines of a text, of which `read` lines are read and gave `written`. Every number in
   a header must agree with the place the reader is at, and every line a hunk keeps or removes must be there.
   */
  function ApplyHunks(before: seq<string>, read: nat, written: seq<string>, hunks: seq<Hunk>): Option<seq<string>>
    requires read <= |before|
    decreases |hunks|
  {
    if hunks == [] then Some(written + before[read..])
    else
      var Hunk(h, body) := hunks[0];
      var at := if h.oldCount == 0 then h.oldStart else h.oldStart - 1;
      if !(read <= at && at + h.oldCount <= |before|) then None
      else if before[at..at + h.oldCount] != TextsOn(Before, body) then None
      else if h.newCount != |TextsOn(After, body)| then None
      else if |written| + at - read != (if h.newCount == 0 then h.newStart else h.newStart - 1) then None
      else ApplyHunks(before, at + h.oldCount, written + before[read..at] + TextsOn(After, body), hunks[1..])
  }

  lemma SplitSide(side: Side, lines: seq<string>, a: nat, b: nat)
    requires a <= b <= |lines|
    ensures TextsOn(side, lines[..b]) == TextsOn(side, lines[..a]) + TextsOn(side, lines[a..b])
    ensures TextsOn(side, lines) == TextsOn(side, lines[..b]) + TextsOn(side, lines[b..])
  {
    TextsOnConcat(side, lines[..a], lines[a..b]);
    TextsOnConcat(side, lines[..b], lines[b..]);
    assert lines[..b] == lines[..a] + lines[a..b] && lines == lines[..b] + lines[b..];
  }

  /** Where a hunk stands in the two sides of a diff whose lines since `from` are unchanged. */
  lemma HunkPlace(lines: seq<string>, from: nat, r: Range)
    requires from <= r.start <= r.end <= |lines| && AllKept(lines[from..r.start])
    ensures var before, body := TextsOn(Before, lines), lines[r.start..r.end];
      var read, at := |TextsOn(Before, lines[..from])|, |TextsOn(Before, lines[..r.start])|;
      && read <= at && at + |TextsOn(Before, body)| == |TextsOn(Before, lines[..r.end])| <= |before|
      && before[at..at + |TextsOn(Before, body)|] == TextsOn(Before, body)
      && TextsOn(After, lines[..from]) + before[read..at] == TextsOn(After, lines[..r.start])
      && TextsOn(After, lines[..r.start]) + TextsOn(After, body) == TextsOn(After, lines[..r.end])
      && |TextsOn(After, lines[..r.start])| == |TextsOn(After, lines[..from])| + at - read
  {
    SplitSide(Before, lines, from, r.start);
    SplitSide(After, lines, from, r.start);
    SplitSide(Before, lines, r.start, r.end);
    SplitSide(After, lines, r.start, r.end);
    KeptIsOnBothSides(lines[from..r.start]);
    var before := TextsOn(Before, lines);
    var read, at := |TextsOn(Before, lines[..from])|, |TextsOn(Before, lines[..r.start])|;
    assert before[read..at] == TextsOn(Before, lines[from..r.start]);
  }

  /** The lines between two hunks, and after the last, are unchanged. */
  ghost predicate KeptOutside(lines: seq<string>, ranges: seq<Range>, from: nat) {
    forall p :: from <= p < |lines| && !Kept(lines[p]) ==> InHunk(p, ranges)
  }

  lemma KeptUpToFirst(lines: seq<string>, from: nat, ranges: seq<Range>)
    requires from <= |lines| && Separated(ranges, from, |lines|) && KeptOutside(lines, ranges, from)
    ensures ranges == [] ==> AllKept(lines[from..])
    ensures ranges != [] ==>
      AllKept(lines[from..ranges[0].start]) && Separated(ranges[1..], ranges[0].end, |lines|) &&
      KeptOutside(lines, ranges[1..], ranges[0].end)
  {
    if ranges == [] {
      forall k | 0 <= k < |lines| - from ensures Kept(lines[from..][k]) {
        assert !InHunk(from + k, ranges);
      }
    } else {
      var r, rest := ranges[0], ranges[1..];
      forall k | 0 <= k < r.start - from ensures Kept(lines[from..r.start][k]) {
        assert !InHunk(from + k, ranges);
      }
      forall p | r.end <= p < |lines| && !Kept(lines[p]) ensures InHunk(p, rest) {
        var m :| 0 <= m < |ranges| && InRange(p, ranges[m]);
        assert InRange(p, rest[m - 1]);
      }
    }
  }

  lemma ApplyOneHunk(lines: seq<string>, from: nat, r: Range, rest: seq<Hunk>)
    requires from <= r.start <= r.end <= |lines| && AllKept(lines[from..r.start])
    requires |TextsOn(Before, lines[..from])| <= |TextsOn(Before, lines)|
    requires |TextsOn(Before, lines[..r.end])| <= |TextsOn(Before, lines)|
    ensures
      ApplyHunks(TextsOn(Before, lines), |TextsOn(Before, lines[..from])|, TextsOn(After, lines[..from]), [HunkOf(lines, r)] + rest) ==
      ApplyHunks(TextsOn(Before, lines), |TextsOn(Before, lines[..r.end])|, TextsOn(After, lines[..r.end]), rest)
  {
    HunkPlace(lines, from, r);
    assert ([HunkOf(lines, r)] + rest)[1..] == rest;
  }

  lemma ApplyLast(lines: seq<string>, from: nat)
    requires from <= |lines| && AllKept(lines[from..])
    ensures |TextsOn(Before, lines[..from])| <= |TextsOn(Before, lines)|
    ensures ApplyHunks(TextsOn(Before, lines), |TextsOn(Before, lines[..from])|, TextsOn(After, lines[..from]), []) ==
      Some(TextsOn(After, lines))
  {
    SplitSide(Before, lines, 0, from);
    SplitSide(After, lines, 0, from);
    KeptIsOnBothSides(lines[from..]);
    assert TextsOn(Before, lines)[|TextsOn(Before, lines[..from])|..] == TextsOn(Before, lines[from..]);
  }

  lemma {:induction false} ApplyFrom(lines: seq<string>, from: nat, ranges: seq<Range>)
    requires from <= |lines| && Separated(ranges, from, |lines|) && KeptOutside(lines, ranges, from)
    ensures |TextsOn(Before, lines[..from])| <= |TextsOn(Before, lines)|
    ensures ApplyHunks(TextsOn(Before, lines), |TextsOn(Before, lines[..from])|, TextsOn(After, lines[..from]),
                       HunksOf(lines, ranges)) == Some(TextsOn(After, lines))
    decreases |ranges|
  {
    KeptUpToFirst(lines, from, ranges);
    if ranges == [] {
      ApplyLast(lines, from);
    } else {
      SplitSide(Before, lines, 0, from);
      ApplyFrom(lines, ranges[0].end, ranges[1..]);
      ApplyOneHunk(lines, from, ranges[0], HunksOf(lines, ranges[1..]));
    }
  }

  /** Applying the hunks of a diff to one side of it gives the other side. */
  lemma HunksApply(lines: seq<string>, context: nat)
    ensures WithinLines(HunkRanges(lines, context), |lines|)
    ensures ApplyHunks(TextsOn(Before, lines), 0, [], HunksOf(lines, HunkRanges(lines, context))) ==
            Some(TextsOn(After, lines))
  {
    var ranges := HunkRanges(lines, context);
    HunksAreNeighbourhoods(lines, context);
    forall p | 0 <= p < |lines| && !Kept(lines[p]) ensures InHunk(p, ranges) {
      assert Near(p, p, context);
    }
    ApplyFrom(lines, 0, ranges);
  }
}
