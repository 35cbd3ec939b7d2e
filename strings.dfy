/**
 * String building blocks shared by the two renderers: runs of spaces,
 * joining and splitting lines, decimal and lower-case hexadecimal numerals,
 * double quotes and the basename of a path.
 */
module Strings {

  /** The digit of value `d`: '0' to '9', then lower-case 'a' to 'f'. */
  function DigitChar(d: nat): (c: char)
    requires d < 16
    ensures IsLowerHexDigit(c) && DigitValue(c) == d
    ensures c == '0' <==> d == 0
  {
    if d < 10 then ('0' as int + d) as char else ('a' as int + d - 10) as char
  }

  predicate IsLowerHexDigit(c: char) {
    '0' <= c <= '9' || 'a' <= c <= 'f'
  }

  /** `c` is a digit of a numeral in `base`. */
  predicate IsDigit(c: char, base: nat) {
    IsLowerHexDigit(c) && DigitValue(c) < base
  }

  /** A run of `n` blanks. */
  function Spaces(n: nat): (r: string)
    ensures |r| == n
    ensures forall k :: 0 <= k < n ==> r[k] == ' '
  {
    if n == 0 then "" else Spaces(n - 1) + " "
  }

  /** `s` between double quotes, with no escaping. */
  function Quote(s: string): (r: string)
    ensures |r| == |s| + 2 && r[0] == '"' && r[|r| - 1] == '"'
  {
    "\"" + s + "\""
  }

  predicate StartsWith(s: string, prefix: string) {
    |prefix| <= |s| && s[..|prefix|] == prefix
  }

  // ---------------------------------------------------------------- numerals

  /** The numeral of `n` in `base`, most significant digit first, no leading zeros. */
  function Digits(n: nat, base: nat): (r: string)
    requires 2 <= base <= 16
    ensures 1 <= |r|
    ensures forall k :: 0 <= k < |r| ==> IsDigit(r[k], base)
    ensures r[0] == '0' <==> n == 0
    decreases n
  {
    if n < base then [DigitChar(n)]
    else
      DivModFacts(n, base);
      Digits(n / base, base) + [DigitChar(n % base)]
  }

  /** The value of one digit character (0 for any other character). */
  function DigitValue(c: char): nat {
    if '0' <= c <= '9' then c as int - '0' as int
    else if 'a' <= c <= 'f' then c as int - 'a' as int + 10
    else 0
  }

  /** Reads a numeral in `base`, most significant digit first. */
  function ParseDigits(s: string, base: nat): nat {
    if |s| == 0 then 0
    else ParseDigits(s[..|s| - 1], base) * base + DigitValue(s[|s| - 1])
  }

  lemma DigitValueOfDigit(d: nat)
    requires d < 16
    ensures DigitValue(DigitChar(d)) == d
  {
  }

  lemma DivModFacts(n: nat, base: nat)
    requires 2 <= base <= 16 && n >= base
    ensures n == (n / base) * base + n % base
    ensures 0 <= n % base < base
    ensures 1 <= n / base < n
  {
  }

  /** Reading back a numeral gives the number that was written. */
  lemma {:induction false} DigitsRoundTrip(n: nat, base: nat)
    requires 2 <= base <= 16
    ensures ParseDigits(Digits(n, base), base) == n
    decreases n
  {
    var s := Digits(n, base);
    if n < base {
      DigitValueOfDigit(n);
      assert s[..0] == "";
    } else {
      var q, d := n / base, n % base;
      DivModFacts(n, base);
      var front := Digits(q, base);
      assert s == front + [DigitChar(d)];
      assert s[..|s| - 1] == front;
      DigitsRoundTrip(q, base);
      DigitValueOfDigit(d);
      assert ParseDigits(s, base) == ParseDigits(front, base) * base + DigitValue(DigitChar(d));
    }
  }

  /** Decimal numeral, as used for line numbers and declaration lines. */
  function Decimal(n: nat): string {
    Digits(n, 10)
  }

  /** Lower-case hexadecimal numeral, as used for format offsets. */
  function Hex(n: nat): string {
    Digits(n, 16)
  }

  /** A format offset as it is rendered: `0x` and lower-case hex digits. */
  function HexOffset(n: nat): (r: string)
    ensures StartsWith(r, "0x")
    ensures |r| > 2 && (r[2] == '0' <==> n == 0)
    ensures forall k :: 2 <= k < |r| ==> IsLowerHexDigit(r[k])
    ensures ParseDigits(r[2..], 16) == n
  {
    var h := Hex(n);
    DigitsRoundTrip(n, 16);
    assert ("0x" + h)[2..] == h;
    "0x" + h
  }

  // ------------------------------------------------------------------ lines

  /** The lines separated by single newlines, with no trailing newline. */
  function JoinLines(lines: seq<string>): string {
    if |lines| == 0 then ""
    else if |lines| == 1 then lines[0]
    else lines[0] + "\n" + JoinLines(lines[1..])
  }

  /** Cuts `s` at every newline; the reference reading of a rendered fragment. */
  function SplitLines(s: string): (r: seq<string>)
    ensures |r| >= 1
    decreases |s|
  {
    if |s| == 0 then [""]
    else
      var rest := SplitLines(s[1..]);
      if s[0] == '\n' then [""] + rest
      else [[s[0]] + rest[0]] + rest[1..]
  }

  predicate NoNewline(s: string) {
    '\n' !in s
  }

  lemma {:induction false} SplitLineWithoutNewline(a: string)
    requires NoNewline(a)
    ensures SplitLines(a) == [a]
    decreases |a|
  {
    if |a| > 0 {
      SplitLineWithoutNewline(a[1..]);
      assert [a[0]] + a[1..] == a;
    }
  }

  lemma {:induction false} SplitAtFirstNewline(a: string, b: string)
    requires NoNewline(a)
    ensures SplitLines(a + "\n" + b) == [a] + SplitLines(b)
    decreases |a|
  {
    var s := a + "\n" + b;
    if |a| == 0 {
      assert s == "\n" + b;
      assert s[1..] == b;
    } else {
      assert s[1..] == a[1..] + "\n" + b;
      SplitAtFirstNewline(a[1..], b);
      assert [a[0]] + a[1..] == a;
    }
  }

  /** Splitting a joined fragment gives back its lines, when no line holds a newline. */
  lemma {:induction false} SplitJoinRoundTrip(lines: seq<string>)
    requires |lines| >= 1
    requires forall k :: 0 <= k < |lines| ==> NoNewline(lines[k])
    ensures SplitLines(JoinLines(lines)) == lines
    decreases |lines|
  {
    if |lines| == 1 {
      SplitLineWithoutNewline(lines[0]);
    } else {
      SplitAtFirstNewline(lines[0], JoinLines(lines[1..]));
      SplitJoinRoundTrip(lines[1..]);
      assert [lines[0]] + lines[1..] == lines;
    }
  }

  /** Appending a line to a non-empty fragment adds a newline and that line. */
  lemma {:induction false} JoinLinesAppend(lines: seq<string>, last: string)
    requires |lines| >= 1
    ensures JoinLines(lines + [last]) == JoinLines(lines) + "\n" + last
    decreases |lines|
  {
    if |lines| > 1 {
      assert (lines + [last])[1..] == lines[1..] + [last];
      JoinLinesAppend(lines[1..], last);
    }
  }

  /** A fragment starts with its first line. */
  lemma {:induction false} JoinLinesStartsWithFirst(lines: seq<string>)
    requires |lines| >= 1
    ensures StartsWith(JoinLines(lines), lines[0])
  {
    if |lines| > 1 {
      assert JoinLines(lines) == lines[0] + ("\n" + JoinLines(lines[1..]));
    }
  }

  // ------------------------------------------------------------------ paths

  /** The last component of a path: what follows its final '/'. */
  function Basename(path: string): (r: string)
    ensures |r| <= |path| && r == path[|path| - |r|..]
    ensures '/' !in r
    ensures |r| < |path| ==> path[|path| - |r| - 1] == '/'
    decreases |path|
  {
    if |path| == 0 then ""
    else if path[|path| - 1] == '/' then ""
    else
      var front := path[..|path| - 1];
      var b := Basename(front);
      assert path[|path| - |b| - 1..] == front[|front| - |b|..] + [path[|path| - 1]];
      b + [path[|path| - 1]]
  }
}
