/** The string helpers the client relies on: `strings.Join`, its inverse
    `strings.Split`, and the decimal formatting done by `fmt.Sprintf`. */
module Text {
  import opened Wrappers

  /** Go's `strings.Join`: the parts separated by `sep`, "" for no parts. */
  function Join(parts: seq<string>, sep: char): string
  {
    if |parts| == 0 then ""
    else if |parts| == 1 then parts[0]
    else parts[0] + [sep] + Join(parts[1..], sep)
  }

  /** Index of the first `c` in `s`, or `|s|` when there is none. */
  function IndexOf(s: string, c: char): (i: nat)
    ensures i <= |s|
    ensures i < |s| ==> s[i] == c
    ensures forall j :: 0 <= j < i ==> s[j] != c
  {
    if |s| == 0 then 0
    else if s[0] == c then 0
    else 1 + IndexOf(s[1..], c)
  }

  /** Go's `strings.Split` on a one-character separator: never empty,
      `Split("", sep) == [""]`. */
  function Split(s: string, sep: char): (r: seq<string>)
    ensures |r| >= 1
    decreases |s|
  {
    var i := IndexOf(s, sep);
    if i == |s| then [s] else [s[..i]] + Split(s[i + 1..], sep)
  }

  /** No part contains the separator, so joining loses nothing. */
  predicate Separable(parts: seq<string>, sep: char)
  {
    forall i :: 0 <= i < |parts| ==> sep !in parts[i]
  }

  lemma IndexOfJoined(a: string, sep: char, b: string)
    requires sep !in a
    ensures IndexOf(a + [sep] + b, sep) == |a|
  {
    var s := a + [sep] + b;
    var i := IndexOf(s, sep);
    assert s[|a|] == sep;
  }

  /** Splitting a joined list of separator-free parts gives the parts back:
      a comma-joined parameter value can be decoded by the receiver. */
  lemma {:induction false} SplitJoin(parts: seq<string>, sep: char)
    requires |parts| > 0
    requires Separable(parts, sep)
    ensures Split(Join(parts, sep), sep) == parts
    decreases |parts|
  {
    if |parts| == 1 {
      assert Join(parts, sep) == parts[0];
      assert sep !in parts[0];
    } else {
      var rest := Join(parts[1..], sep);
      var s := parts[0] + [sep] + rest;
      assert Join(parts, sep) == s;
      IndexOfJoined(parts[0], sep, rest);
      assert s[..|parts[0]|] == parts[0];
      assert s[|parts[0]| + 1..] == rest;
      SplitJoin(parts[1..], sep);
      assert Split(s, sep) == [parts[0]] + parts[1..];
    }
  }

  /** The ASCII digit for `d`. */
  function DigitChar(d: nat): char
    requires d < 10
  {
    ['0', '1', '2', '3', '4', '5', '6', '7', '8', '9'][d]
  }

  predicate IsDigit(c: char)
  {
    '0' <= c <= '9'
  }

  /** The value of an ASCII digit. */
  function DigitValue(c: char): nat
    requires IsDigit(c)
  {
    (c as int - '0' as int) as nat
  }

  /** `fmt.Sprintf("%d", n)` for a non-negative `n`. */
  function NatToString(n: nat): (s: string)
    ensures |s| > 0
    ensures forall i :: 0 <= i < |s| ==> IsDigit(s[i])
  {
    if n < 10 then [DigitChar(n)] else NatToString(n / 10) + [DigitChar(n % 10)]
  }

  /** The number a string of decimal digits denotes (the receiver's parse). */
  function ParseDigits(s: string): nat
    requires forall i :: 0 <= i < |s| ==> IsDigit(s[i])
  {
    if |s| == 0 then 0
    else 10 * ParseDigits(s[..|s| - 1]) + DigitValue(s[|s| - 1])
  }

  lemma DigitRoundTrip(d: nat)
    requires d < 10
    ensures IsDigit(DigitChar(d)) && DigitValue(DigitChar(d)) == d
  {
  }

  /** Formatting a number and parsing the digits back gives the number. */
  lemma {:induction false} ParseFormat(n: nat)
    ensures ParseDigits(NatToString(n)) == n
  {
    DigitRoundTrip(n % 10);
    if n >= 10 {
      var s := NatToString(n);
      assert s[..|s| - 1] == NatToString(n / 10);
      ParseFormat(n / 10);
    }
  }

  /** `x` rounded to hundredths, as `%.2f` rounds the exact value of a
      float: to the nearest, and on an exact tie to the even neighbour. */
  function Cents(x: real): (c: nat)
    requires x >= 0.0
    ensures (c as real) - 0.5 <= 100.0 * x <= (c as real) + 0.5
  {
    var scaled := 100.0 * x;
    var whole := scaled.Floor;
    var frac := scaled - whole as real;
    if frac > 0.5 || (frac == 0.5 && whole % 2 == 1) then whole + 1 else whole
  }

  /** `fmt.Sprintf("%.2f", x)` for a non-negative `x`. */
  function FormatFixed2(x: real): (s: string)
    requires x >= 0.0
  {
    FormatCents(Cents(x))
  }

  /** A count of hundredths written as whole part, '.', two digits. */
  function FormatCents(c: nat): string
  {
    NatToString(c / 100) + "." + [DigitChar(c % 100 / 10), DigitChar(c % 10)]
  }

  /** Reads back what `FormatFixed2` wrote: whole part, '.', two digits. */
  function ParseFixed2(s: string): (c: Option<nat>)
  {
    if |s| < 4 || s[|s| - 3] != '.' then None
    else if !(forall i :: 0 <= i < |s| && i != |s| - 3 ==> IsDigit(s[i])) then None
    else
      var whole := s[..|s| - 3];
      assert forall i :: 0 <= i < |whole| ==> IsDigit(whole[i]) by {
        forall i | 0 <= i < |whole| ensures IsDigit(whole[i]) {
          assert whole[i] == s[i];
        }
      }
      Some(100 * ParseDigits(whole) + 10 * DigitValue(s[|s| - 2]) + DigitValue(s[|s| - 1]))
  }

  /** The two-decimal text names exactly the rounded hundredths. */
  lemma FormatFixed2RoundTrip(x: real)
    requires x >= 0.0
    ensures ParseFixed2(FormatFixed2(x)) == Some(Cents(x))
  {
    FormatCentsRoundTrip(Cents(x));
  }

  lemma FormatCentsRoundTrip(c: nat)
    ensures ParseFixed2(FormatCents(c)) == Some(c)
  {
    var w := NatToString(c / 100);
    DigitRoundTrip(c % 100 / 10);
    DigitRoundTrip(c % 10);
    assert FormatCents(c) == w + ['.', DigitChar(c % 100 / 10), DigitChar(c % 10)];
    ParseFixed2Parts(w, c % 100 / 10, c % 10);
    ParseFormat(c / 100);
  }

  /** A digit string, '.', and two digits parse to the hundredths they spell. */
  lemma ParseFixed2Parts(w: string, a: nat, b: nat)
    requires |w| > 0 && forall i :: 0 <= i < |w| ==> IsDigit(w[i])
    requires a < 10 && b < 10
    ensures ParseFixed2(w + ['.', DigitChar(a), DigitChar(b)]) == Some(100 * ParseDigits(w) + 10 * a + b)
  {
    var s := w + ['.', DigitChar(a), DigitChar(b)];
    DigitRoundTrip(a);
    DigitRoundTrip(b);
    assert s[..|s| - 3] == w;
  }
}
