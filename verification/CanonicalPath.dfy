/**
 `canonicalPath` of executor-accounts.ts: the loop that reads a tool expression member by member. A quoted member is
 a JSON string, section 7 of RFC 8259. Texts are sequences of UTF-16 code units, as in JavaScript.
 */
module CanonicalPath {
  import opened Options

  type Unit = u: int | 0 <= u < 0x1_0000
  type Text = seq<Unit>

  const DOT: Unit := 0x2E
  const OPEN: Unit := 0x5B
  const CLOSE: Unit := 0x5D
  const QUOTE: Unit := 0x22
  const BACKSLASH: Unit := 0x5C
  const LOWER_U: Unit := 0x75
  /** The text `tools`. */
  const TOOLS: Text := [0x74, 0x6F, 0x6F, 0x6C, 0x73]

  // ----- the grammar of a member -----

  /** A character of a JSON string as it is written: itself, a short escape, or four hexadecimal digits. */
  datatype JsonChar = Raw(u: Unit) | Escape(letter: Unit) | Unicode(a: Unit, b: Unit, c: Unit, d: Unit)

  datatype Member = Ident(name: Text) | Quoted(chars: seq<JsonChar>)

  predicate IsIdentStart(u: Unit) {
    0x41 <= u <= 0x5A || 0x61 <= u <= 0x7A || u == 0x5F || u == 0x24
  }

  predicate IsIdentPart(u: Unit) { IsIdentStart(u) || 0x30 <= u <= 0x39 }

  predicate IsHex(u: Unit) { 0x30 <= u <= 0x39 || 0x41 <= u <= 0x46 || 0x61 <= u <= 0x66 }

  /** One of `"`, `\`, `/`, `b`, `f`, `n`, `r`, `t`. */
  predicate IsShortEscape(u: Unit) {
    u == QUOTE || u == BACKSLASH || u == 0x2F || u == 0x62 || u == 0x66 || u == 0x6E || u == 0x72 || u == 0x74
  }

  predicate IsIdentifier(name: Text) {
    name != [] && IsIdentStart(name[0]) && forall k :: 0 <= k < |name| ==> IsIdentPart(name[k])
  }

  /** The member expression takes any character but `"` and `\` as it is, also those that JSON does not. */
  predicate IsMemberChar(c: JsonChar) {
    match c
    case Raw(u) => u != QUOTE && u != BACKSLASH
    case Escape(letter) => IsShortEscape(letter)
    case Unicode(a, b, c, d) => IsHex(a) && IsHex(b) && IsHex(c) && IsHex(d)
  }

  predicate IsMember(m: Member) {
    match m
    case Ident(name) => IsIdentifier(name)
    case Quoted(chars) => forall k :: 0 <= k < |chars| ==> IsMemberChar(chars[k])
  }

  // ----- printing -----

  function PrintChar(c: JsonChar): Text {
    match c
    case Raw(u) => [u]
    case Escape(letter) => [BACKSLASH, letter]
    case Unicode(a, b, c, d) => [BACKSLASH, LOWER_U, a, b, c, d]
  }

  function PrintChars(chars: seq<JsonChar>): Text {
    if chars == [] then [] else PrintChar(chars[0]) + PrintChars(chars[1..])
  }

  function PrintMember(m: Member): Text {
    match m
    case Ident(name) => [DOT] + name
    case Quoted(chars) => [OPEN, QUOTE] + (PrintChars(chars) + [QUOTE, CLOSE])
  }

  function PrintMembers(members: seq<Member>): Text {
    if members == [] then [] else PrintMember(members[0]) + PrintMembers(members[1..])
  }

  // ----- what a member means -----

  function HexValue(u: Unit): (n: int)
    requires IsHex(u)
    ensures 0 <= n < 16
  {
    if u <= 0x39 then u - 0x30 else if u <= 0x46 then u - 0x37 else u - 0x57
  }

  /** `JSON.parse` of one character: control characters must be escaped. */
  function CharValue(c: JsonChar): Option<Unit>
    requires IsMemberChar(c)
  {
    match c
    case Raw(u) => if u < 0x20 then None else Some(u)
    case Escape(letter) =>
      Some(if letter == 0x62 then 0x08 else if letter == 0x66 then 0x0C else if letter == 0x6E then 0x0A
           else if letter == 0x72 then 0x0D else if letter == 0x74 then 0x09 else letter)
    case Unicode(a, b, c, d) => Some(HexValue(a) * 0x1000 + HexValue(b) * 0x100 + HexValue(c) * 0x10 + HexValue(d))
  }

  function CharsValue(chars: seq<JsonChar>): Option<Text>
    requires forall k :: 0 <= k < |chars| ==> IsMemberChar(chars[k])
  {
    if chars == [] then Some([])
    else
      var first, rest := CharValue(chars[0]), CharsValue(chars[1..]);
      if first.Some? && rest.Some? then Some([first.value] + rest.value) else None
  }

  /** The segment a member stands for, or `None` where `JSON.parse` throws. */
  function Segment(m: Member): Option<Text>
    requires IsMember(m)
  {
    match m
    case Ident(name) => Some(name)
    case Quoted(chars) => CharsValue(chars)
  }

  // ----- scanning one member: the regular expression -----

  function IdentLength(text: Text): (n: nat)
    ensures n <= |text| && forall k :: 0 <= k < n ==> IsIdentPart(text[k])
    ensures n < |text| ==> !IsIdentPart(text[n])
  {
    if text == [] || !IsIdentPart(text[0]) then 0 else IdentLength(text[1..]) + 1
  }

  /** The characters up to the closing quote, and the text after it. */
  function ScanChars(text: Text): (r: Option<(seq<JsonChar>, Text)>)
    decreases |text|
  {
    if text == [] then None
    else if text[0] == QUOTE then Some(([], text[1..]))
    else
      match ScanChar(text)
      case None => None
      case Some((c, n)) =>
        match ScanChars(text[n..])
        case None => None
        case Some((rest, after)) => Some(([c] + rest, after))
  }

  function ScanChar(text: Text): (r: Option<(JsonChar, nat)>)
    requires text != [] && text[0] != QUOTE
    ensures r.Some? ==> 0 < r.value.1 <= |text| && IsMemberChar(r.value.0) && PrintChar(r.value.0) == text[..r.value.1]
  {
    if text[0] != BACKSLASH then Some((Raw(text[0]), 1))
    else if |text| >= 2 && IsShortEscape(text[1]) then Some((Escape(text[1]), 2))
    else if |text| >= 6 && text[1] == LOWER_U && IsHex(text[2]) && IsHex(text[3]) && IsHex(text[4]) && IsHex(text[5])
    then Some((Unicode(text[2], text[3], text[4], text[5]), 6))
    else None
  }

  /** The member at the start of a text, and the text after it. */
  function ScanMember(text: Text): (r: Option<(Member, Text)>) {
    if |text| >= 2 && text[0] == DOT && IsIdentStart(text[1]) then
      var n := IdentLength(text[1..]);
      Some((Ident(text[1..][..n]), text[1..][n..]))
    else if |text| >= 2 && text[0] == OPEN && text[1] == QUOTE then
      match ScanChars(text[2..])
      case None => None
      case Some((chars, after)) => if after != [] && after[0] == CLOSE then Some((Quoted(chars), after[1..])) else None
    else None
  }

  lemma Assoc(a: Text, b: Text, c: Text)
    ensures (a + b) + c == a + (b + c)
  {}

  lemma PrintOneMore(c: JsonChar, rest: seq<JsonChar>)
    ensures PrintChars([c] + rest) == PrintChar(c) + PrintChars(rest)
  {
    assert ([c] + rest)[1..] == rest;
  }

  lemma ScanPrintedChar(c: JsonChar, more: Text)
    requires IsMemberChar(c)
    ensures var text := PrintChar(c) + more;
      && text != [] && text[0] != QUOTE && ScanChar(text) == Some((c, |PrintChar(c)|)) && text[|PrintChar(c)|..] == more
  {}

  lemma {:induction false} ScanPrintedChars(chars: seq<JsonChar>, after: Text)
    requires forall k :: 0 <= k < |chars| ==> IsMemberChar(chars[k])
    ensures ScanChars(PrintChars(chars) + ([QUOTE] + after)) == Some((chars, after))
  {
    if chars == [] {
      assert PrintChars(chars) + ([QUOTE] + after) == [QUOTE] + after;
    } else {
      var more := PrintChars(chars[1..]) + ([QUOTE] + after);
      assert IsMemberChar(chars[0]);
      Assoc(PrintChar(chars[0]), PrintChars(chars[1..]), [QUOTE] + after);
      ScanPrintedChar(chars[0], more);
      ScanPrintedChars(chars[1..], after);
      assert [chars[0]] + chars[1..] == chars;
    }
  }

  lemma PrintCharBefore(c: JsonChar, rest: seq<JsonChar>, after: Text, text: Text, n: nat)
    requires n <= |text| && PrintChar(c) == text[..n] && text[n..] == PrintChars(rest) + ([QUOTE] + after)
    ensures text == PrintChars([c] + rest) + ([QUOTE] + after)
  {
    PrintOneMore(c, rest);
    Assoc(PrintChar(c), PrintChars(rest), [QUOTE] + after);
    assert text == text[..n] + text[n..];
  }

  lemma {:induction false} PrintScannedChars(text: Text)
    requires ScanChars(text).Some?
    ensures var (chars, after) := ScanChars(text).value;
      && (forall k :: 0 <= k < |chars| ==> IsMemberChar(chars[k]))
      && text == PrintChars(chars) + ([QUOTE] + after)
    decreases |text|
  {
    if text[0] == QUOTE {
      assert text == [] + ([QUOTE] + text[1..]);
    } else {
      var (c, n) := ScanChar(text).value;
      PrintScannedChars(text[n..]);
      var (rest, after) := ScanChars(text[n..]).value;
      PrintCharBefore(c, rest, after, text, n);
    }
  }

  lemma {:induction false} IdentLengthOf(name: Text, after: Text)
    requires forall k :: 0 <= k < |name| ==> IsIdentPart(name[k])
    requires after == [] || !IsIdentPart(after[0])
    ensures IdentLength(name + after) == |name|
  {
    if name != [] {
      assert (name + after)[1..] == name[1..] + after;
      IdentLengthOf(name[1..], after);
    } else {
      assert name + after == after;
    }
  }

  lemma ScanPrintedIdent(name: Text, after: Text)
    requires IsIdentifier(name) && (after == [] || !IsIdentPart(after[0]))
    ensures ScanMember([DOT] + name + after) == Some((Ident(name), after))
  {
    var text := [DOT] + name + after;
    IdentLengthOf(name, after);
    assert text[1..] == name + after && text[1] == name[0];
    assert (name + after)[..|name|] == name && (name + after)[|name|..] == after;
  }

  lemma QuotedText(printed: Text, after: Text)
    ensures ([OPEN, QUOTE] + (printed + [QUOTE, CLOSE])) + after == [OPEN, QUOTE] + (printed + ([QUOTE] + ([CLOSE] + after)))
  {}

  lemma ScanPrintedQuoted(chars: seq<JsonChar>, after: Text)
    requires forall k :: 0 <= k < |chars| ==> IsMemberChar(chars[k])
    ensures ScanMember(PrintMember(Quoted(chars)) + after) == Some((Quoted(chars), after))
  {
    var inner := PrintChars(chars) + ([QUOTE] + ([CLOSE] + after));
    QuotedText(PrintChars(chars), after);
    ScanPrintedChars(chars, [CLOSE] + after);
    assert ([OPEN, QUOTE] + inner)[2..] == inner;
    assert ([CLOSE] + after)[1..] == after;
  }

  /** A printed member, before anything a member can be followed by, is scanned as itself. */
  lemma ScanPrintedMember(m: Member, after: Text)
    requires IsMember(m)
    requires m.Ident? ==> after == [] || !IsIdentPart(after[0])
    ensures ScanMember(PrintMember(m) + after) == Some((m, after))
  {
    match m
    case Ident(name) => ScanPrintedIdent(name, after);
    case Quoted(chars) => ScanPrintedQuoted(chars, after);
  }

  lemma PrintScannedIdent(text: Text)
    requires |text| >= 2 && text[0] == DOT && IsIdentStart(text[1])
    ensures var n := IdentLength(text[1..]);
      IsIdentifier(text[1..][..n]) && text == [DOT] + text[1..][..n] + text[1..][n..]
  {}

  lemma PrintScannedQuoted(text: Text)
    requires ScanMember(text).Some? && text[0] != DOT
    ensures var (m, after) := ScanMember(text).value;
      IsMember(m) && text == PrintMember(m) + after && |after| < |text|
  {
    PrintScannedChars(text[2..]);
    var (chars, rest) := ScanChars(text[2..]).value;
    QuotedText(PrintChars(chars), rest[1..]);
    assert rest == [CLOSE] + rest[1..];
    assert text == [OPEN, QUOTE] + text[2..];
  }

  /** Only a printed member is scanned. */
  lemma PrintScannedMember(text: Text)
    requires ScanMember(text).Some?
    ensures var (m, after) := ScanMember(text).value;
      IsMember(m) && text == PrintMember(m) + after && |after| < |text|
  {
    if text[0] == DOT {
      PrintScannedIdent(text);
    } else {
      PrintScannedQuoted(text);
    }
  }

  // ----- the loop -----

  /** How reading the members ends: with their segments, at a text that is no member, or with an exception. */
  datatype Reading = Segments(segments: seq<Text>) | NoMember | Throws

  function ReadMembers(text: Text): Reading
    decreases |text|
  {
    if text == [] then Segments([])
    else
      match ScanMember(text)
      case None => NoMember
      case Some((m, after)) =>
        PrintScannedMember(text);
        if Segment(m).None? then Throws
        else
          match ReadMembers(after)
          case Segments(rest) => Segments([Segment(m).value] + rest)
          case other => other
  }

  function JoinDots(segments: seq<Text>): Text {
    if segments == [] then []
    else if |segments| == 1 then segments[0]
    else segments[0] + [DOT] + JoinDots(segments[1..])
  }

  /** JavaScript's white space and line terminators. */
  predicate IsSpace(u: Unit) {
    0x09 <= u <= 0x0D || u == 0x20 || u == 0xA0 || u == 0x1680 || 0x2000 <= u <= 0x200A || u == 0x2028 || u == 0x2029 ||
    u == 0x202F || u == 0x205F || u == 0x3000 || u == 0xFEFF
  }

  function Trim(text: Text): (trimmed: Text)
    decreases |text|
  {
    if text == [] then text
    else if IsSpace(text[0]) then Trim(text[1..])
    else if IsSpace(text[|text| - 1]) then Trim(text[..|text| - 1])
    else text
  }

  /** The text is `tools`, or starts with `tools.` or `tools[`. */
  predicate IsToolExpression(text: Text) {
    TOOLS <= text && (|text| == |TOOLS| || text[|TOOLS|] == DOT || text[|TOOLS|] == OPEN)
  }

  datatype Result = Path(path: Text) | Exception

  function Canonical(path: Text): Result {
    var trimmed := Trim(path);
    if !IsToolExpression(trimmed) then Path(trimmed)
    else
      match ReadMembers(trimmed[|TOOLS|..])
      case Segments(segments) => Path(JoinDots(segments))
      case NoMember => Path(trimmed)
      case Throws => Exception
  }

  method CanonicalPath(path: Text) returns (r: Result)
    ensures r == Canonical(path)
  {
    var trimmed := Trim(path);
    if !IsToolExpression(trimmed) { return Path(trimmed); }
    var segments: seq<Text> := [];
    var rest := trimmed[|TOOLS|..];
    ghost var all := rest;
    while rest != []
      invariant ReadMembers(all) ==
        match ReadMembers(rest)
        case Segments(more) => Segments(segments + more)
        case other => other
      decreases |rest|
    {
      var member := ScanMember(rest);
      if member.None? { return Path(trimmed); }
      PrintScannedMember(rest);
      var (m, after) := member.value;
      var segment := Segment(m);
      if segment.None? { return Exception; }
      ghost var before := segments;
      segments := segments + [segment.value];
      assert forall more: seq<Text> :: before + ([segment.value] + more) == segments + more;
      rest := after;
    }
    assert segments + [] == segments;
    return Path(JoinDots(segments));
  }

  // ----- printing and reading undo each other -----

  ghost predicate AreMembers(members: seq<Member>) {
    forall k :: 0 <= k < |members| ==> IsMember(members[k])
  }

  ghost predicate HaveSegments(members: seq<Member>, segments: seq<Text>)
    requires AreMembers(members)
  {
    |members| == |segments| && forall k :: 0 <= k < |members| ==> Segment(members[k]) == Some(segments[k])
  }

  lemma {:induction false} ReadPrintedMembers(members: seq<Member>, segments: seq<Text>)
    requires AreMembers(members) && HaveSegments(members, segments)
    ensures ReadMembers(PrintMembers(members)) == Segments(segments)
  {
    if members != [] {
      ReadFirst(members[0], PrintMembers(members[1..]));
      ReadPrintedMembers(members[1..], segments[1..]);
      assert [segments[0]] + segments[1..] == segments;
    }
  }

  /** A text is read to its end only if it is a list of printed members. */
  lemma {:induction false} PrintReadMembers(text: Text) returns (members: seq<Member>)
    requires ReadMembers(text).Segments?
    ensures AreMembers(members) && HaveSegments(members, ReadMembers(text).segments) && PrintMembers(members) == text
    decreases |text|
  {
    if text == [] {
      members := [];
    } else {
      PrintScannedMember(text);
      var (m, after) := ScanMember(text).value;
      var rest := PrintReadMembers(after);
      members := [m] + rest;
      assert members[1..] == rest;
    }
  }

  lemma {:induction false} LastPrintedUnit(members: seq<Member>)
    requires AreMembers(members) && members != []
    ensures PrintMembers(members) != [] && !IsSpace(PrintMembers(members)[|PrintMembers(members)| - 1])
    ensures PrintMembers(members)[0] == DOT || PrintMembers(members)[0] == OPEN
  {
    assert IsMember(members[0]);
    if |members| > 1 {
      LastPrintedUnit(members[1..]);
    }
  }

  /** A printed expression has no space to trim, and is one. */
  lemma PrintedExpression(members: seq<Member>)
    requires AreMembers(members)
    ensures var text := TOOLS + PrintMembers(members);
      Trim(text) == text && IsToolExpression(text) && text[|TOOLS|..] == PrintMembers(members)
  {
    var text := TOOLS + PrintMembers(members);
    if members != [] {
      LastPrintedUnit(members);
    }
    assert Trim(text) == text;
    assert text[|TOOLS|..] == PrintMembers(members);
  }

  /** For any members and any way to spell them: the path of the expression is their segments joined by dots. */
  lemma PrintedExpressionIsItsSegments(members: seq<Member>, segments: seq<Text>)
    requires AreMembers(members) && HaveSegments(members, segments)
    ensures Canonical(TOOLS + PrintMembers(members)) == Path(JoinDots(segments))
  {
    PrintedExpression(members);
    ReadPrintedMembers(members, segments);
  }

  // ----- every segment can be written -----

  function HexDigit(n: int): Unit
    requires 0 <= n < 16
  {
    if n < 10 then 0x30 + n else 0x57 + n
  }

  /** One unit of a segment as `JSON.stringify` writes it, but for its short escapes of control characters. */
  function QuoteUnit(u: Unit): JsonChar {
    if u == QUOTE || u == BACKSLASH then Escape(u)
    else if u < 0x20 then Unicode(0x30, 0x30, HexDigit(u / 16), HexDigit(u % 16))
    else Raw(u)
  }

  function QuoteText(text: Text): seq<JsonChar> {
    if text == [] then [] else [QuoteUnit(text[0])] + QuoteText(text[1..])
  }

  lemma {:induction false} QuotedTextIsItself(text: Text)
    ensures IsMember(Quoted(QuoteText(text))) && Segment(Quoted(QuoteText(text))) == Some(text)
  {
    if text != [] {
      QuotedTextIsItself(text[1..]);
      var chars := QuoteText(text);
      assert IsMemberChar(chars[0]) && chars[1..] == QuoteText(text[1..]);
      assert forall k :: 0 < k < |chars| ==> chars[k] == QuoteText(text[1..])[k - 1];
      assert CharValue(chars[0]) == Some(text[0]);
      assert [text[0]] + text[1..] == text;
    }
  }

  /** Segments as members: an identifier may be dotted, and everything else is quoted. */
  function AsMembers(segments: seq<Text>, dotted: set<Text>): (members: seq<Member>) {
    if segments == [] then []
    else
      [if segments[0] in dotted && IsIdentifier(segments[0]) then Ident(segments[0]) else Quoted(QuoteText(segments[0]))] +
      AsMembers(segments[1..], dotted)
  }

  lemma {:induction false} AsMembersHaveSegments(segments: seq<Text>, dotted: set<Text>)
    ensures var members := AsMembers(segments, dotted);
      |members| == |segments| && AreMembers(members) && HaveSegments(members, segments)
  {
    if segments != [] {
      QuotedTextIsItself(segments[0]);
      AsMembersHaveSegments(segments[1..], dotted);
      var members, rest := AsMembers(segments, dotted), AsMembers(segments[1..], dotted);
      assert members[1..] == rest;
      assert forall k :: 0 < k < |members| ==> members[k] == rest[k - 1];
    }
  }

  /** Any segments whatever, written as an expression and read back, are the segments joined by dots. */
  lemma AnySegmentsComeBack(segments: seq<Text>, dotted: set<Text>)
    ensures Canonical(TOOLS + PrintMembers(AsMembers(segments, dotted))) == Path(JoinDots(segments))
  {
    AsMembersHaveSegments(segments, dotted);
    PrintedExpressionIsItsSegments(AsMembers(segments, dotted), segments);
  }

  /** A quoted member with a raw control character, which the member expression takes and `JSON.parse` refuses. */
  predicate HasRawControl(m: Member) {
    m.Quoted? && exists k :: 0 <= k < |m.chars| && m.chars[k].Raw? && m.chars[k].u < 0x20
  }

  lemma {:induction false} NoSegmentIffRawControl(chars: seq<JsonChar>)
    requires forall k :: 0 <= k < |chars| ==> IsMemberChar(chars[k])
    ensures CharsValue(chars).None? <==> HasRawControl(Quoted(chars))
  {
    if chars != [] {
      NoSegmentIffRawControl(chars[1..]);
      assert forall k :: 0 < k < |chars| ==> chars[k] == chars[1..][k - 1];
      assert CharValue(chars[0]).None? <==> chars[0].Raw? && chars[0].u < 0x20;
      if k :| 0 <= k < |chars[1..]| && chars[1..][k].Raw? && chars[1..][k].u < 0x20 {
        assert chars[k + 1].Raw? && chars[k + 1].u < 0x20;
      }
    }
  }

  /** A text whose first member with a raw control character comes before anything that is no member. */
  ghost predicate MeetsRawControl(text: Text) {
    exists members, bad, after :: SplitsAt(text, members, bad, after)
  }

  ghost predicate SplitsAt(text: Text, members: seq<Member>, bad: Member, after: Text) {
    && AreMembers(members) && (forall k :: 0 <= k < |members| ==> Segment(members[k]).Some?)
    && IsMember(bad) && HasRawControl(bad) && text == PrintMembers(members) + (PrintMember(bad) + after)
  }

  lemma ReadFirst(m: Member, rest: Text)
    requires IsMember(m) && (rest == [] || rest[0] == DOT || rest[0] == OPEN || m.Quoted?)
    ensures ReadMembers(PrintMember(m) + rest) ==
      if Segment(m).None? then Throws
      else match ReadMembers(rest) case Segments(more) => Segments([Segment(m).value] + more) case other => other
  {
    ScanPrintedMember(m, rest);
    assert PrintMember(m) + rest != [];
  }

  lemma FirstPrintedUnit(members: seq<Member>, bad: Member, after: Text)
    requires bad.Quoted?
    ensures var text := PrintMembers(members) + (PrintMember(bad) + after);
      text != [] && (text[0] == DOT || text[0] == OPEN)
  {}

  lemma {:induction false} RawControlThrows(members: seq<Member>, bad: Member, after: Text)
    requires AreMembers(members) && (forall k :: 0 <= k < |members| ==> Segment(members[k]).Some?)
    requires IsMember(bad) && HasRawControl(bad)
    ensures ReadMembers(PrintMembers(members) + (PrintMember(bad) + after)).Throws?
  {
    NoSegmentIffRawControl(bad.chars);
    if members == [] {
      ReadFirst(bad, after);
      assert PrintMembers([]) + (PrintMember(bad) + after) == PrintMember(bad) + after;
    } else {
      RawControlThrows(members[1..], bad, after);
      FirstPrintedUnit(members[1..], bad, after);
      Assoc(PrintMember(members[0]), PrintMembers(members[1..]), PrintMember(bad) + after);
      ReadFirst(members[0], PrintMembers(members[1..]) + (PrintMember(bad) + after));
    }
  }

  /** Such an expression: `tools` and one quoted member with the character 1 as it is. */
  lemma RawControlDoesThrow()
    ensures Canonical(TOOLS + PrintMembers([Quoted([Raw(1)])])) == Exception
  {
    OneRawControlThrows(Quoted([Raw(1)]));
    assert [Raw(1)][0].u < 0x20;
  }

  lemma OneRawControlThrows(bad: Member)
    requires IsMember(bad) && bad.Quoted? && |bad.chars| == 1 && bad.chars[0].Raw? && bad.chars[0].u < 0x20
    ensures Canonical(TOOLS + PrintMembers([bad])) == Exception
  {
    PrintedExpression([bad]);
    RawControlThrows([], bad, []);
    assert PrintMembers([]) + (PrintMember(bad) + []) == PrintMembers([bad]);
  }

  lemma PrintMembersNext(m: Member, rest: seq<Member>, after: Text)
    ensures PrintMembers([m] + rest) + after == PrintMember(m) + (PrintMembers(rest) + after)
  {
    assert ([m] + rest)[1..] == rest;
    Assoc(PrintMember(m), PrintMembers(rest), after);
  }

  lemma {:induction false} ThrowingMeetsRawControl(text: Text) returns (members: seq<Member>, bad: Member, after: Text)
    requires ReadMembers(text).Throws?
    ensures SplitsAt(text, members, bad, after)
    decreases |text|
  {
    PrintScannedMember(text);
    var (m, next) := ScanMember(text).value;
    if Segment(m).None? {
      NoSegmentIffRawControl(m.chars);
      members, bad, after := [], m, next;
      assert PrintMembers([]) + (PrintMember(m) + next) == PrintMember(m) + next;
    } else {
      var rest;
      rest, bad, after := ThrowingMeetsRawControl(next);
      members := [m] + rest;
      PrintMembersNext(m, rest, PrintMember(bad) + after);
    }
  }

  /** The function throws, where it means to return, exactly on an expression that meets a raw control character. */
  lemma ThrowsExactlyOnRawControls(path: Text)
    ensures Canonical(path) == Exception <==>
      IsToolExpression(Trim(path)) && MeetsRawControl(Trim(path)[|TOOLS|..])
  {
    var trimmed := Trim(path);
    if IsToolExpression(trimmed) {
      var text := trimmed[|TOOLS|..];
      if ReadMembers(text).Throws? {
        var members, bad, after := ThrowingMeetsRawControl(text);
      }
      if MeetsRawControl(text) {
        var members, bad, after :| SplitsAt(text, members, bad, after);
        RawControlThrows(members, bad, after);
      }
    }
  }

  // ----- every other text, and the parts the reading is made of -----

  /** The expression is spelled by members that all have a segment. */
  ghost predicate IsSpelledBy(text: Text, members: seq<Member>) {
    AreMembers(members) && PrintMembers(members) == text && forall k :: 0 <= k < |members| ==> Segment(members[k]).Some?
  }

  lemma SpelledIsRead(text: Text, members: seq<Member>)
    requires IsSpelledBy(text, members)
    ensures ReadMembers(text).Segments?
  {
    ReadPrintedMembers(members, seq(|members|, k requires 0 <= k < |members| => Segment(members[k]).value));
  }

  /** A text that is no expression of members to its end is only trimmed, unless it meets a raw control character. */
  lemma OtherTextsAreTrimmed(path: Text)
    ensures var text := Trim(path);
      if !IsToolExpression(text) then Canonical(path) == Path(text)
      else if MeetsRawControl(text[5..]) then Canonical(path) == Exception
      else if !exists members :: IsSpelledBy(text[5..], members) then Canonical(path) == Path(text)
      else exists members, segments ::
        IsSpelledBy(text[5..], members) && HaveSegments(members, segments) && Canonical(path) == Path(JoinDots(segments))
  {
    var text := Trim(path);
    ThrowsExactlyOnRawControls(path);
    if IsToolExpression(text) {
      forall members | IsSpelledBy(text[5..], members) ensures ReadMembers(text[5..]).Segments? {
        SpelledIsRead(text[5..], members);
      }
      if ReadMembers(text[5..]).Segments? {
        var members := PrintReadMembers(text[5..]);
        assert IsSpelledBy(text[5..], members);
      }
    }
  }

  /** Trimming takes spaces from both ends, and all of them. */
  lemma {:induction false} TrimTakesSpaces(text: Text) returns (a: nat, b: nat)
    ensures a <= b <= |text| && Trim(text) == text[a..b]
    ensures forall k :: 0 <= k < a || b <= k < |text| ==> IsSpace(text[k])
    ensures a < b ==> !IsSpace(text[a]) && !IsSpace(text[b - 1])
    decreases |text|
  {
    a, b := 0, |text|;
    if text != [] && IsSpace(text[0]) {
      a, b := TrimTakesSpaces(text[1..]);
      a, b := a + 1, b + 1;
    } else if text != [] && IsSpace(text[|text| - 1]) {
      a, b := TrimTakesSpaces(text[..|text| - 1]);
    }
  }

  /** The segments of a path: the texts between its dots. */
  function SplitDots(text: Text): (segments: seq<Text>)
    ensures segments != []
  {
    if text == [] then [[]]
    else
      var rest := SplitDots(text[1..]);
      if text[0] == 0x2E then [[]] + rest else [[text[0]] + rest[0]] + rest[1..]
  }

  lemma {:induction false} SplitFirstDot(segment: Text, rest: Text)
    requires 0x2E !in segment
    ensures SplitDots(segment) == [segment]
    ensures SplitDots(segment + [0x2E] + rest) == [segment] + SplitDots(rest)
  {
    if segment != [] {
      SplitFirstDot(segment[1..], rest);
      assert [segment[0]] + segment[1..] == segment;
      assert (segment + [0x2E] + rest)[1..] == segment[1..] + [0x2E] + rest;
      assert ([segment[1..]] + SplitDots(rest))[1..] == SplitDots(rest);
    } else {
      assert segment + [0x2E] + rest == [0x2E] + rest;
    }
  }

  /** Segments without a dot are the parts between the dots of the path, the first of which names the app. */
  lemma {:induction false} DotsTellSegmentsApart(segments: seq<Text>)
    requires segments != [] && forall k :: 0 <= k < |segments| ==> 0x2E !in segments[k]
    ensures SplitDots(JoinDots(segments)) == segments
  {
    SplitFirstDot(segments[0], if |segments| > 1 then JoinDots(segments[1..]) else []);
    if |segments| > 1 {
      DotsTellSegmentsApart(segments[1..]);
      assert [segments[0]] + segments[1..] == segments;
    }
  }

  /** What each escape of a JSON string stands for. */
  lemma EscapesMean()
    ensures CharValue(Escape(0x22)) == Some(0x22) && CharValue(Escape(0x5C)) == Some(0x5C)
    ensures CharValue(Escape(0x2F)) == Some(0x2F) && CharValue(Escape(0x62)) == Some(8)
    ensures CharValue(Escape(0x66)) == Some(12) && CharValue(Escape(0x6E)) == Some(10)
    ensures CharValue(Escape(0x72)) == Some(13) && CharValue(Escape(0x74)) == Some(9)
  {}

  lemma HexDigitsMean(a: Unit, b: Unit, c: Unit, d: Unit)
    requires IsHex(a) && IsHex(b) && IsHex(c) && IsHex(d)
    ensures HexValue(a) == if IsBetween(a, '0', '9') then a - 48 else if IsBetween(a, 'A', 'F') then 10 + a - 65 else 10 + a - 97
    ensures CharValue(Unicode(a, b, c, d)) == Some(4096 * HexValue(a) + 256 * HexValue(b) + 16 * HexValue(c) + HexValue(d))
  {}

  predicate IsBetween(u: Unit, a: char, b: char) { a as int <= u <= b as int }

  /** The characters that the grammar and the trimming go by, as characters. */
  lemma CharactersAre(u: Unit)
    ensures TOOLS == ['t' as int, 'o' as int, 'o' as int, 'l' as int, 's' as int]
    ensures DOT == '.' as int && OPEN == '[' as int && CLOSE == ']' as int && QUOTE == '"' as int
    ensures BACKSLASH == '\\' as int && LOWER_U == 'u' as int
    ensures IsIdentStart(u) <==> IsBetween(u, 'A', 'Z') || IsBetween(u, 'a', 'z') || u == '_' as int || u == '$' as int
    ensures IsIdentPart(u) <==> IsIdentStart(u) || IsBetween(u, '0', '9')
    ensures IsHex(u) <==> IsBetween(u, '0', '9') || IsBetween(u, 'A', 'F') || IsBetween(u, 'a', 'f')
    ensures IsShortEscape(u) <==>
      u in {'"' as int, '\\' as int, '/' as int, 'b' as int, 'f' as int, 'n' as int, 'r' as int, 't' as int}
    ensures IsSpace(u) <==>
      u in {0x09, 0x0A, 0x0B, 0x0C, 0x0D, 0x20, 0xA0, 0x1680, 0x2000, 0x2001, 0x2002, 0x2003, 0x2004, 0x2005, 0x2006,
            0x2007, 0x2008, 0x2009, 0x200A, 0x2028, 0x2029, 0x202F, 0x205F, 0x3000, 0xFEFF}
  {}
}
