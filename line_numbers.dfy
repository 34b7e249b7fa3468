/**
 * `WithLineNumbers` of the OpenCL compiler: the source of a program is
 * reprinted with every line prefixed by its number, right-aligned in a field
 * of five, and ": ".  Lines are those `std::getline(in, line, '\n')` reads:
 * the text between newlines, where a last piece without a newline counts
 * only when it is not empty.
 */
module LineNumbers {

  /** The index of the first newline of `s`, or `|s|` when there is none. */
  function NewlineIndex(s: string): (i: nat)
    ensures i <= |s|
    ensures forall j :: 0 <= j < i ==> s[j] != '\n'
    ensures i < |s| ==> s[i] == '\n'
    decreases |s|
  {
    if s == [] || s[0] == '\n' then 0 else 1 + NewlineIndex(s[1..])
  }

  /** `line` holds no newline character. */
  predicate NoNewline(line: string) {
    forall j :: 0 <= j < |line| ==> line[j] != '\n'
  }

  /** The lines successive calls of `std::getline(in, line, '\n')` extract from `s`, in order. */
  function Lines(s: string): (ls: seq<string>)
    ensures forall k :: 0 <= k < |ls| ==> NoNewline(ls[k])
    ensures s == [] <==> ls == []
    decreases |s|
  {
    if s == [] then []
    else
      var i := NewlineIndex(s);
      if i == |s| then [s] else [s[..i]] + Lines(s[i + 1..])
  }

  /** Every line followed by a newline, concatenated. */
  function Join(ls: seq<string>): string {
    if ls == [] then [] else ls[0] + "\n" + Join(ls[1..])
  }

  /** `s` with a newline added at the end unless it is empty or already ends with one. */
  function Terminated(s: string): string {
    if s == [] || s[|s| - 1] == '\n' then s else s + "\n"
  }

  /** The character of a decimal digit. */
  function DigitChar(d: nat): char
    requires d < 10
  {
    (d + '0' as int) as char
  }

  /** The decimal digits of `n`, as a `size_t` is printed: no sign, no leading zero. */
  function Decimal(n: nat): (s: string)
    ensures 1 <= |s|
    ensures forall k :: 0 <= k < |s| ==> '0' <= s[k] <= '9'
    ensures s[0] == '0' ==> n == 0
    decreases n
  {
    if n < 10 then [DigitChar(n)] else Decimal(n / 10) + [DigitChar(n % 10)]
  }

  /** The number a string of decimal digits stands for. */
  function ParseDecimal(s: string): nat
    requires forall k :: 0 <= k < |s| ==> '0' <= s[k] <= '9'
  {
    if s == [] then 0 else 10 * ParseDecimal(s[..|s| - 1]) + (s[|s| - 1] as int - '0' as int)
  }

  /** `count` spaces. */
  function Spaces(count: nat): string {
    seq(count, _ => ' ')
  }

  /** `std::setw(5) << n`: the digits of `n` right-aligned in a field of five, filled with spaces. */
  function Pad5(n: nat): string {
    var digits := Decimal(n);
    (if |digits| < 5 then Spaces(5 - |digits|) else []) + digits
  }

  /** The leading spaces of `s` removed. */
  function TrimLeft(s: string): string {
    if s != [] && s[0] == ' ' then TrimLeft(s[1..]) else s
  }

  /** An input line labelled with its number: the padded number, ": ", then the line. */
  function Labelled(number: nat, line: string): string {
    Pad5(number) + ": " + line
  }

  /** One output line: the labelled line and a newline. */
  function NumberedLine(number: nat, line: string): string {
    Labelled(number, line) + "\n"
  }

  /** The output for `ls`, numbered from `first` on. */
  function NumberedFrom(ls: seq<string>, first: nat): string
    decreases |ls|
  {
    if ls == [] then [] else NumberedLine(first, ls[0]) + NumberedFrom(ls[1..], first + 1)
  }

  /** `WithLineNumbers`: every line `getline` reads from `src`, numbered from 1 on. */
  method WithLineNumbers(src: string) returns (out: string)
    ensures out == NumberedFrom(Lines(src), 1)
  {
    out := [];
    var lineNum := 1;
    var pos := 0;
    while pos < |src|
      invariant 0 <= pos <= |src|
      invariant out + NumberedFrom(Lines(src[pos..]), lineNum) == NumberedFrom(Lines(src), 1)
      decreases |src| - pos
    {
      var end := GetLine(src, pos);
      var next := if end < |src| then end + 1 else end;
      LinesStep(src, pos, end);
      NumberedFromCons(src[pos..end], Lines(src[next..]), lineNum);
      var numbered := NumberedLine(lineNum, src[pos..end]);
      AppendAssociates(out, numbered, NumberedFrom(Lines(src[next..]), lineNum + 1));
      out := out + numbered;
      lineNum := lineNum + 1;
      pos := next;
    }
    assert src[pos..] == [];
  }

  /** Appending two strings one after the other is appending their concatenation. */
  lemma AppendAssociates(a: string, b: string, c: string)
    ensures a + b + c == a + (b + c)
  {
  }

  /** `std::getline` from position `pos`: the line read ends at the first newline from `pos` on, or at the end. */
  method GetLine(src: string, pos: nat) returns (end: nat)
    requires pos <= |src|
    ensures pos <= end <= |src|
    ensures forall j :: pos <= j < end ==> src[j] != '\n'
    ensures end < |src| ==> src[end] == '\n'
  {
    end := pos;
    while end < |src| && src[end] != '\n'
      invariant pos <= end <= |src|
      invariant forall j :: pos <= j < end ==> src[j] != '\n'
    {
      end := end + 1;
    }
  }

  /** One call of `getline` at `pos` reads up to the newline at `end`, or to the end of `src`. */
  lemma LinesStep(src: string, pos: nat, end: nat)
    requires pos < |src| && pos <= end <= |src|
    requires forall j :: pos <= j < end ==> src[j] != '\n'
    requires end < |src| ==> src[end] == '\n'
    ensures Lines(src[pos..]) == [src[pos..end]] + Lines(src[if end < |src| then end + 1 else end..])
  {
    var rest := src[pos..];
    NewlineIndexIs(rest, end - pos);
    assert rest[..end - pos] == src[pos..end];
    if end < |src| {
      assert rest[end - pos + 1..] == src[end + 1..];
    } else {
      assert rest == src[pos..end];
      assert src[end..] == [];
    }
  }

  /** The output for a line followed by more lines. */
  lemma NumberedFromCons(line: string, rest: seq<string>, first: nat)
    ensures NumberedFrom([line] + rest, first) == NumberedLine(first, line) + NumberedFrom(rest, first + 1)
  {
    assert ([line] + rest)[1..] == rest;
  }

  /** The first-newline index is determined by the characters before it and at it. */
  lemma NewlineIndexIs(s: string, i: nat)
    requires i <= |s|
    requires forall j :: 0 <= j < i ==> s[j] != '\n'
    requires i < |s| ==> s[i] == '\n'
    ensures NewlineIndex(s) == i
  {
  }

  /** A line without a newline, followed by one, is the first line `getline` reads. */
  lemma LinesCons(line: string, rest: string)
    requires NoNewline(line)
    ensures Lines(line + "\n" + rest) == [line] + Lines(rest)
  {
    var s := line + "\n" + rest;
    NewlineIndexIs(s, |line|);
    assert s[..|line|] == line;
    assert s[|line| + 1..] == rest;
  }

  /** The padded number holds no newline. */
  lemma Pad5HasNoNewline(n: nat)
    ensures NoNewline(Pad5(n))
  {
    var digits := Decimal(n);
    var pad := if |digits| < 5 then Spaces(5 - |digits|) else [];
    assert Pad5(n) == pad + digits;
    forall k | 0 <= k < |Pad5(n)|
      ensures Pad5(n)[k] != '\n'
    {
      if k >= |pad| {
        assert Pad5(n)[k] == digits[k - |pad|];
      }
    }
  }

  /** Reading the digits back gives the number. */
  lemma {:induction false} DecimalRoundTrip(n: nat)
    ensures ParseDecimal(Decimal(n)) == n
    decreases n
  {
    if n >= 10 {
      DecimalRoundTrip(n / 10);
      var s := Decimal(n);
      assert s[..|s| - 1] == Decimal(n / 10);
    }
  }

  /** Leading spaces added in front of text that does not start with a space are removed again. */
  lemma {:induction false} TrimLeftSpaces(count: nat, s: string)
    requires s == [] || s[0] != ' '
    ensures TrimLeft(Spaces(count) + s) == s
    decreases count
  {
    if count > 0 {
      assert (Spaces(count) + s)[1..] == Spaces(count - 1) + s;
      TrimLeftSpaces(count - 1, s);
    }
  }

  /** The field is five wide while the number has at most five digits, and reads back as the number. */
  lemma Pad5RoundTrip(n: nat)
    ensures n < 100000 ==> |Pad5(n)| == 5
    ensures |Pad5(n)| >= 5
    ensures var t := TrimLeft(Pad5(n));
            (forall k :: 0 <= k < |t| ==> '0' <= t[k] <= '9') && ParseDecimal(t) == n
  {
    var digits := Decimal(n);
    DecimalLength(n);
    if |digits| < 5 {
      TrimLeftSpaces(5 - |digits|, digits);
    } else {
      TrimLeftSpaces(0, digits);
      assert Spaces(0) + digits == digits;
    }
    DecimalRoundTrip(n);
  }

  /** Numbers below 100000 have at most five digits. */
  lemma {:induction false} DecimalLength(n: nat)
    ensures n < 100000 ==> |Decimal(n)| <= 5
    ensures n < 10000 ==> |Decimal(n)| <= 4
    ensures n < 1000 ==> |Decimal(n)| <= 3
    ensures n < 100 ==> |Decimal(n)| <= 2
    decreases n
  {
    if n >= 10 {
      DecimalLength(n / 10);
    }
  }

  /** The input lines labelled with consecutive numbers from `first`. */
  function LabelledFrom(ls: seq<string>, first: nat): (out: seq<string>)
    ensures |out| == |ls|
    decreases |ls|
  {
    if ls == [] then [] else [Labelled(first, ls[0])] + LabelledFrom(ls[1..], first + 1)
  }

  /** The output, read back line by line, is the input lines labelled from `first`. */
  lemma {:induction false} NumberedLinesAre(ls: seq<string>, first: nat)
    requires forall k :: 0 <= k < |ls| ==> NoNewline(ls[k])
    ensures Lines(NumberedFrom(ls, first)) == LabelledFrom(ls, first)
    decreases |ls|
  {
    if ls != [] {
      NumberedHead(ls, first);
      NumberedLinesAre(ls[1..], first + 1);
    }
  }

  /** The k-th labelled line is the k-th input line labelled with `first + k`. */
  lemma {:induction false} LabelledAt(ls: seq<string>, first: nat, k: nat)
    requires k < |ls|
    ensures LabelledFrom(ls, first)[k] == Labelled(first + k, ls[k])
    decreases k
  {
    if k == 0 {
      assert LabelledFrom(ls, first)[0] == Labelled(first, ls[0]);
    } else {
      var tail, next, j := ls[1..], first + 1, k - 1;
      LabelledAt(tail, next, j);
      assert LabelledFrom(ls, first)[k] == LabelledFrom(tail, next)[j];
      LabelledSame(next + j, first + k, tail[j], ls[k]);
    }
  }

  /** Equal numbers and equal lines give equal labelled lines. */
  lemma LabelledSame(n1: nat, n2: nat, line1: string, line2: string)
    requires n1 == n2 && line1 == line2
    ensures Labelled(n1, line1) == Labelled(n2, line2)
  {
  }

  /**
   * The output, read back line by line, has one line per input line: the k-th
   * is the number `first + k`, padded, then ": " and the k-th input line.
   */
  lemma NumberedLinesRoundTrip(ls: seq<string>, first: nat)
    requires forall k :: 0 <= k < |ls| ==> NoNewline(ls[k])
    ensures var out := Lines(NumberedFrom(ls, first));
            |out| == |ls| && forall k :: 0 <= k < |ls| ==> out[k] == Labelled(first + k, ls[k])
  {
    NumberedLinesAre(ls, first);
    forall k | 0 <= k < |ls|
      ensures LabelledFrom(ls, first)[k] == Labelled(first + k, ls[k])
    {
      LabelledAt(ls, first, k);
    }
  }

  /** The first output line, read back, is the padded number, ": " and the first input line. */
  lemma NumberedHead(ls: seq<string>, first: nat)
    requires ls != [] && NoNewline(ls[0])
    ensures Lines(NumberedFrom(ls, first)) == [Labelled(first, ls[0])] + Lines(NumberedFrom(ls[1..], first + 1))
  {
    var head := Labelled(first, ls[0]);
    Pad5HasNoNewline(first);
    assert NoNewline(head);
    var tail := NumberedFrom(ls[1..], first + 1);
    assert NumberedFrom(ls, first) == head + "\n" + tail;
    LinesCons(head, tail);
  }

  /** The output is empty or ends with a newline. */
  lemma {:induction false} NumberedEndsWithNewline(ls: seq<string>, first: nat)
    ensures var text := NumberedFrom(ls, first); text == [] || text[|text| - 1] == '\n'
    decreases |ls|
  {
    if ls != [] {
      var tail := NumberedFrom(ls[1..], first + 1);
      NumberedEndsWithNewline(ls[1..], first + 1);
      if tail == [] {
        assert NumberedFrom(ls, first) == Labelled(first, ls[0]) + "\n";
      } else {
        assert NumberedFrom(ls, first) == NumberedLine(first, ls[0]) + tail;
      }
    }
  }

  /** Joining a line in front of more lines. */
  lemma JoinCons(line: string, ls: seq<string>)
    ensures Join([line] + ls) == line + "\n" + Join(ls)
  {
    assert ([line] + ls)[1..] == ls;
  }

  /** Terminating text that already holds a newline only looks at what follows it. */
  lemma TerminatedAfterNewline(line: string, rest: string)
    ensures Terminated(line + "\n" + rest) == line + "\n" + Terminated(rest)
  {
    var s := line + "\n" + rest;
    if rest != [] {
      assert s[|s| - 1] == rest[|rest| - 1];
      if rest[|rest| - 1] != '\n' {
        assert s + "\n" == line + "\n" + (rest + "\n");
      }
    }
  }

  /** Joining the lines `getline` reads gives the input back, with a newline added if the last was missing. */
  lemma {:induction false} JoinLines(s: string)
    ensures Join(Lines(s)) == Terminated(s)
    decreases |s|
  {
    if s != [] {
      var i := NewlineIndex(s);
      if i < |s| {
        var line, rest := s[..i], s[i + 1..];
        assert s == line + "\n" + rest;
        assert Lines(s) == [line] + Lines(rest);
        JoinLines(rest);
        JoinCons(line, Lines(rest));
        TerminatedAfterNewline(line, rest);
      } else {
        assert Lines(s) == [s];
        JoinCons(s, []);
      }
    }
  }

  /**
   * What `WithLineNumbers(src)` prints: exactly one numbered line per line of
   * `src`, numbered 1, 2, ... in order; empty input gives empty output.
   */
  lemma WithLineNumbersLayout(src: string)
    ensures var out := Lines(NumberedFrom(Lines(src), 1));
            |out| == |Lines(src)| &&
            forall k :: 0 <= k < |out| ==> out[k] == Labelled(k + 1, Lines(src)[k])
    ensures src == [] ==> NumberedFrom(Lines(src), 1) == []
    ensures var text := NumberedFrom(Lines(src), 1); text == [] || text[|text| - 1] == '\n'
  {
    NumberedLinesRoundTrip(Lines(src), 1);
    NumberedEndsWithNewline(Lines(src), 1);
    var out := Lines(NumberedFrom(Lines(src), 1));
    forall k | 0 <= k < |out|
      ensures out[k] == Labelled(k + 1, Lines(src)[k])
    {
      assert 1 + k == k + 1;
    }
  }
}
