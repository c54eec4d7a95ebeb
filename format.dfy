/** The pieces of `fmt.Sprintf` the alert templates use: `%d` on an integer and
    the concatenation of rendered lines. */
module Format {

  predicate IsDigit(c: char) {
    '0' <= c <= '9'
  }

  predicate AllDigits(s: string) {
    forall i :: 0 <= i < |s| ==> IsDigit(s[i])
  }

  /** A digit string as `%d` writes a non-negative number: at least one digit,
      and no leading zero unless the number is zero itself. */
  predicate Canonical(s: string) {
    |s| > 0 && AllDigits(s) && (s[0] == '0' ==> s == "0")
  }

  function DigitChar(d: int): (c: char)
    requires 0 <= d < 10
    ensures IsDigit(c) && c as int - '0' as int == d
  {
    ('0' as int + d) as char
  }

  /** The canonical base-ten digits of `n`. */
  function NatDigits(n: nat): (s: string)
    ensures Canonical(s)
    ensures n < 10 <==> |s| == 1
    decreases n
  {
    if n < 10 then [DigitChar(n)] else NatDigits(n / 10) + [DigitChar(n % 10)]
  }

  /** `%d`: a minus sign before the digits of a negative number. */
  function Decimal(n: int): (s: string)
    ensures n >= 0 ==> Canonical(s)
    ensures n < 0 ==> |s| > 1 && s[0] == '-' && Canonical(s[1..]) && s[1..] != "0"
  {
    if n < 0 then "-" + NatDigits(-n) else NatDigits(n)
  }

  /** The number a digit string denotes (the reading direction of `%d`). */
  function DigitsValue(s: string): nat
    requires AllDigits(s)
  {
    if s == [] then 0 else 10 * DigitsValue(s[..|s| - 1]) + (s[|s| - 1] as int - '0' as int)
  }

  /** The number a string written by `%d` denotes. */
  function DecimalValue(s: string): int
    requires |s| > 0
    requires s[0] == '-' ==> AllDigits(s[1..])
    requires s[0] != '-' ==> AllDigits(s)
  {
    if s[0] == '-' then 0 - DigitsValue(s[1..]) as int else DigitsValue(s)
  }

  lemma {:induction false} NatDigitsRoundTrip(n: nat)
    ensures DigitsValue(NatDigits(n)) == n
    decreases n
  {
    if n >= 10 {
      var s := NatDigits(n);
      assert s[..|s| - 1] == NatDigits(n / 10);
      NatDigitsRoundTrip(n / 10);
    }
  }

  /** Reading back what `%d` wrote gives the number again; so distinct numbers
      render as distinct strings. */
  lemma DecimalRoundTrip(n: int)
    ensures DecimalValue(Decimal(n)) == n
  {
    var s := Decimal(n);
    if n < 0 {
      var d := NatDigits(-n);
      assert s == "-" + d;
      assert s[1..] == d;
      NatDigitsRoundTrip(-n);
    } else {
      assert s == NatDigits(n);
      assert s[0] != '-';
      NatDigitsRoundTrip(n);
    }
  }

  lemma DecimalInjective(m: int, n: int)
    ensures Decimal(m) == Decimal(n) <==> m == n
  {
    if Decimal(m) == Decimal(n) {
      DecimalRoundTrip(m);
      DecimalRoundTrip(n);
    }
  }

  /** The lines joined in order, as a loop of `msg += line` builds them. */
  function Concat(lines: seq<string>): string
  {
    if lines == [] then "" else Concat(lines[..|lines| - 1]) + lines[|lines| - 1]
  }

  lemma {:induction false} ConcatAppend(a: seq<string>, b: seq<string>)
    ensures Concat(a + b) == Concat(a) + Concat(b)
    decreases |b|
  {
    if b == [] {
      assert a + b == a;
    } else {
      var b' := b[..|b| - 1];
      assert (a + b)[..|a + b| - 1] == a + b';
      ConcatAppend(a, b');
    }
  }

  /** Line `i` sits in the concatenation right after the lines before it. */
  lemma ConcatAt(lines: seq<string>, i: int)
    requires 0 <= i < |lines|
    ensures |Concat(lines[..i + 1])| == |Concat(lines[..i])| + |lines[i]|
    ensures |Concat(lines[..i + 1])| <= |Concat(lines)|
    ensures Concat(lines)[|Concat(lines[..i])|..|Concat(lines[..i + 1])|] == lines[i]
  {
    assert lines[..i + 1][..i] == lines[..i];
    assert lines == lines[..i + 1] + lines[i + 1..];
    ConcatAppend(lines[..i + 1], lines[i + 1..]);
  }

  lemma AppendAssoc(a: string, b: string, c: string)
    ensures (a + b) + c == a + (b + c)
  {
  }

  lemma SliceAfterPrefix(a: string, b: string, i: nat, j: nat)
    requires i <= j <= |b|
    ensures (a + b)[|a| + i..|a| + j] == b[i..j]
  {
  }

  lemma ConcatStep(lines: seq<string>, i: nat)
    requires i < |lines|
    ensures Concat(lines[..i + 1]) == Concat(lines[..i]) + lines[i]
  {
    assert lines[..i + 1][..i] == lines[..i];
  }

  lemma ConcatSingle(line: string)
    ensures Concat([line]) == line
  {
    assert [line][..0] == [];
  }

  /** A message made of a header line and body lines: nothing at all when
      there are no lines, otherwise the header followed by the lines in order. */
  function Rendered(header: string, lines: seq<string>): string {
    if lines == [] then "" else header + Concat(lines)
  }

  /** Where line `i` starts in `Rendered(header, lines)`. */
  function Offset(header: string, lines: seq<string>, i: nat): nat
    requires i <= |lines|
  {
    |header| + |Concat(lines[..i])|
  }

  lemma RenderedSingle(header: string, line: string)
    ensures Rendered(header, [line]) == header + line
  {
    ConcatSingle(line);
  }

  lemma RenderedEmptyIff(header: string, lines: seq<string>)
    requires header != []
    ensures Rendered(header, lines) == "" <==> lines == []
  {
  }

  lemma RenderedStartsWithHeader(header: string, lines: seq<string>)
    requires lines != []
    ensures header <= Rendered(header, lines)
  {
  }

  /** The header and the lines tile the message: line `i` occupies
      [Offset(i), Offset(i + 1)), the first line starts right after the header
      and the last one ends where the message ends. */
  lemma RenderedLineAt(header: string, lines: seq<string>, i: nat)
    requires i < |lines|
    ensures Offset(header, lines, 0) == |header|
    ensures Offset(header, lines, |lines|) == |Rendered(header, lines)|
    ensures Offset(header, lines, i + 1) == Offset(header, lines, i) + |lines[i]|
    ensures Offset(header, lines, i + 1) <= Offset(header, lines, |lines|)
    ensures Rendered(header, lines)[Offset(header, lines, i)..Offset(header, lines, i + 1)] == lines[i]
  {
    assert lines[..0] == [];
    assert lines[..|lines|] == lines;
    ConcatAt(lines, i);
    SliceAfterPrefix(header, Concat(lines), |Concat(lines[..i])|, |Concat(lines[..i + 1])|);
  }

  /** Where each of nine pieces sits in their concatenation. */
  lemma SlicesOf9(x0: string, x1: string, x2: string, x3: string, x4: string, x5: string, x6: string, x7: string, x8: string)
    ensures var r := x0 + x1 + x2 + x3 + x4 + x5 + x6 + x7 + x8;
      var o1 := |x0|; var o2 := o1 + |x1|; var o3 := o2 + |x2|; var o4 := o3 + |x3|;
      var o5 := o4 + |x4|; var o6 := o5 + |x5|; var o7 := o6 + |x6|; var o8 := o7 + |x7|;
      && |r| == o8 + |x8|
      && r[..o1] == x0 && r[o1..o2] == x1 && r[o2..o3] == x2 && r[o3..o4] == x3
      && r[o4..o5] == x4 && r[o5..o6] == x5 && r[o6..o7] == x6 && r[o7..o8] == x7 && r[o8..] == x8
  {
  }

  /** Where each of eleven pieces sits in their concatenation. */
  lemma SlicesOf11(x0: string, x1: string, x2: string, x3: string, x4: string, x5: string, x6: string, x7: string, x8: string, x9: string, x10: string)
    ensures var r := x0 + x1 + x2 + x3 + x4 + x5 + x6 + x7 + x8 + x9 + x10;
      var o1 := |x0|; var o2 := o1 + |x1|; var o3 := o2 + |x2|; var o4 := o3 + |x3|; var o5 := o4 + |x4|;
      var o6 := o5 + |x5|; var o7 := o6 + |x6|; var o8 := o7 + |x7|; var o9 := o8 + |x8|; var o10 := o9 + |x9|;
      && |r| == o10 + |x10|
      && r[..o1] == x0 && r[o1..o2] == x1 && r[o2..o3] == x2 && r[o3..o4] == x3 && r[o4..o5] == x4
      && r[o5..o6] == x5 && r[o6..o7] == x6 && r[o7..o8] == x7 && r[o8..o9] == x8 && r[o9..o10] == x9 && r[o10..] == x10
  {
  }
}
