/** Texts as lists of lines, and decimal numbers as text: what the diff printer writes and a patch reader reads. */
module Lines {
  import opened Options

  // ----- lines -----

  /** `text.split("\n")`: a text always has at least one line, and a final newline starts a blank one. */
  function Split(text: string): (lines: seq<string>)
    ensures |lines| > 0
  {
    if text == "" then [""]
    else
      var rest := Split(text[1..]);
      if text[0] == '\n' then [""] + rest else [[text[0]] + rest[0]] + rest[1..]
  }

  /** `lines.join("\n")`. */
  function Join(lines: seq<string>): string {
    if lines == [] then ""
    else if |lines| == 1 then lines[0]
    else lines[0] + "\n" + Join(lines[1..])
  }

  lemma {:induction false} JoinSplit(text: string)
    ensures Join(Split(text)) == text
  {
    if text != "" {
      JoinSplit(text[1..]);
      var rest := Split(text[1..]);
      if text[0] == '\n' {
        assert ([""] + rest)[1..] == rest;
        assert text == "\n" + text[1..];
      } else {
        assert ([[text[0]] + rest[0]] + rest[1..])[1..] == rest[1..];
        assert text == [text[0]] + text[1..];
        if |rest| > 1 {
          assert [text[0]] + (rest[0] + "\n" + Join(rest[1..])) == ([text[0]] + rest[0]) + "\n" + Join(rest[1..]);
        }
      }
    }
  }

  ghost predicate OneLine(line: string) { '\n' !in line }

  ghost predicate AllOneLine(lines: seq<string>) {
    forall k :: 0 <= k < |lines| ==> OneLine(lines[k])
  }

  lemma {:induction false} SplitOneLine(text: string)
    ensures AllOneLine(Split(text))
  {
    if text != "" {
      SplitOneLine(text[1..]);
    }
  }

  lemma {:induction false} SplitPrefix(line: string, rest: string)
    requires OneLine(line)
    ensures Split(line + "\n" + rest) == [line] + Split(rest)
    ensures Split(line) == [line]
  {
    if line == "" {
      assert (line + "\n" + rest)[1..] == rest;
    } else {
      SplitPrefix(line[1..], rest);
      assert (line + "\n" + rest)[1..] == line[1..] + "\n" + rest;
      assert line == [line[0]] + line[1..];
    }
  }

  lemma {:induction false} SplitJoin(lines: seq<string>)
    requires |lines| > 0 && AllOneLine(lines)
    ensures Split(Join(lines)) == lines
  {
    if |lines| == 1 {
      SplitPrefix(lines[0], "");
    } else {
      SplitJoin(lines[1..]);
      SplitPrefix(lines[0], Join(lines[1..]));
    }
  }

  /** A final newline is one more, blank line. */
  lemma {:induction false} SplitFinalNewline(text: string)
    ensures Split(text + "\n") == Split(text) + [""]
  {
    if text == "" {
      assert text + "\n" == "\n";
      assert Split("\n") == [""] + Split("\n"[1..]);
    } else {
      SplitFinalNewline(text[1..]);
      assert (text + "\n")[1..] == text[1..] + "\n";
      var rest := Split(text[1..]);
      assert (rest + [""])[1..] == rest[1..] + [""];
    }
  }

  // ----- decimal numbers -----

  const DIGITS := "0123456789"

  function PrintNat(n: nat): (digits: string)
    ensures |digits| > 0
  {
    if n < 10 then [DIGITS[n]] else PrintNat(n / 10) + [DIGITS[n % 10]]
  }

  predicate IsDigit(c: char) { '0' <= c <= '9' }

  /** The number at the start of a text, and the text after its digits. */
  function ReadDigits(read: nat, text: string): (nat, string)
    decreases |text|
  {
    if text != "" && IsDigit(text[0])
    then ReadDigits(10 * read + (text[0] as int - '0' as int), text[1..])
    else (read, text)
  }

  lemma DigitIsDigit(d: nat)
    requires d < 10
    ensures IsDigit(DIGITS[d]) && DIGITS[d] as int - '0' as int == d
  {
    assert DIGITS == ['0', '1', '2', '3', '4', '5', '6', '7', '8', '9'];
  }

  lemma {:induction false} ReadPrinted(n: nat, text: string)
    ensures ReadDigits(0, PrintNat(n) + text) == ReadDigits(n, text)
  {
    DigitIsDigit(n % 10);
    if n < 10 {
      assert (PrintNat(n) + text)[1..] == text;
    } else {
      var last := [DIGITS[n % 10]];
      assert PrintNat(n) + text == PrintNat(n / 10) + (last + text);
      ReadPrinted(n / 10, last + text);
      assert (last + text)[1..] == text;
    }
  }

  /** A number that the given mark ends. */
  function ReadNat(text: string, mark: string): Option<(nat, string)> {
    var (n, rest) := ReadDigits(0, text);
    match Expect(rest, mark)
    case Some(after) => if |rest| < |text| then Some((n, after)) else None
    case None => None
  }

  /** The rest of a text that starts with the mark. */
  function Expect(text: string, mark: string): Option<string> {
    if mark <= text then Some(text[|mark|..]) else None
  }

  lemma ReadNatPrinted(n: nat, mark: string, text: string)
    requires mark != "" && !IsDigit(mark[0])
    ensures ReadNat(PrintNat(n) + mark + text, mark) == Some((n, text))
  {
    assert PrintNat(n) + mark + text == PrintNat(n) + (mark + text);
    ReadPrinted(n, mark + text);
    assert (mark + text)[0] == mark[0];
    assert ReadDigits(n, mark + text) == (n, mark + text);
    assert (mark + text)[|mark|..] == text;
  }
}
