/**
 String helpers the application relies on: lower-casing, the last occurrence of a
 separator (`str.rsplit(sep, 1)`), decimal rendering of ids (`str(n)`) and the
 shape of a `uuid4().hex` value.
 */
module Text {
  import opened Base

  /** `str.lower()` on one character; only the ASCII letters are modelled. */
  function LowerChar(c: char): char
  {
    if 'A' <= c <= 'Z' then (c as int + 32) as char else c
  }

  /** `str.lower()`, character by character. */
  function Lower(s: string): string
  {
    seq(|s|, i requires 0 <= i < |s| => LowerChar(s[i]))
  }

  /** Lower-casing is idempotent. */
  lemma LowerIdempotent(s: string)
    ensures Lower(Lower(s)) == Lower(s)
  {
    var l := Lower(s);
    assert forall i :: 0 <= i < |l| ==> Lower(l)[i] == l[i];
  }

  /** Lower-casing commutes with taking a suffix. */
  lemma LowerSuffix(s: string, k: nat)
    requires k <= |s|
    ensures Lower(s)[k..] == Lower(s[k..])
  {
  }

  /** Index of the last occurrence of `c` in `s`, if any. */
  function LastIndex(s: string, c: char): (r: Option<nat>)
    ensures r.None? <==> c !in s
    ensures r.Some? ==> r.value < |s| && s[r.value] == c && c !in s[r.value + 1..]
  {
    if |s| == 0 then None
    else if s[|s| - 1] == c then Some(|s| - 1)
    else
      assert s == s[..|s| - 1] + [s[|s| - 1]];
      LastIndex(s[..|s| - 1], c)
  }

  /** An index holding `c` with no `c` after it is the one `LastIndex` finds. */
  lemma LastIndexUnique(s: string, c: char, k: nat)
    requires k < |s| && s[k] == c && c !in s[k + 1..]
    ensures LastIndex(s, c) == Some(k)
  {
  }

  /** `s.rsplit(sep, 1)[1]`: the text after the last separator (an IndexError without one). */
  function AfterLast(s: string, sep: char): (r: Option<string>)
    ensures r.None? <==> sep !in s
    ensures r.Some? ==> sep !in r.value && |r.value| < |s|
    ensures r.Some? ==> exists k :: 0 <= k < |s| && s[k] == sep && r.value == s[k + 1..]
  {
    match LastIndex(s, sep)
    case None => None
    case Some(k) => Some(s[k + 1..])
  }

  /** `s.rsplit(sep, 1)[0]`: the text before the last separator, or all of `s` without one. */
  function BeforeLast(s: string, sep: char): (r: string)
    ensures sep !in s ==> r == s
    ensures sep in s ==> |r| < |s| && r + [sep] + AfterLast(s, sep).value == s
  {
    match LastIndex(s, sep)
    case None => s
    case Some(k) =>
      assert s == s[..k] + [sep] + s[k + 1..];
      s[..k]
  }

  function Digit(d: nat): (c: char)
    requires d < 10
    ensures '0' <= c <= '9'
  {
    ('0' as int + d) as char
  }

  function DigitValue(c: char): nat
  {
    if '0' <= c <= '9' then c as int - '0' as int else 0
  }

  predicate IsDecimal(s: string)
  {
    forall i :: 0 <= i < |s| ==> '0' <= s[i] <= '9'
  }

  /** `str(n)` for a non-negative id. */
  function DecimalString(n: nat): (r: string)
    ensures |r| > 0
    ensures IsDecimal(r)
  {
    if n < 10 then [Digit(n)] else DecimalString(n / 10) + [Digit(n % 10)]
  }

  /** Reads a string of decimal digits back as a number. */
  function ParseDecimal(s: string): nat
  {
    if |s| == 0 then 0 else ParseDecimal(s[..|s| - 1]) * 10 + DigitValue(s[|s| - 1])
  }

  /** Rendering an id and reading it back gives the id. */
  lemma {:induction false} DecimalRoundTrip(n: nat)
    ensures ParseDecimal(DecimalString(n)) == n
  {
    if n >= 10 {
      DecimalRoundTrip(n / 10);
      var s := DecimalString(n);
      assert s[..|s| - 1] == DecimalString(n / 10);
    }
  }

  /** Distinct ids render as distinct strings. */
  lemma DecimalInjective(m: nat, n: nat)
    requires m != n
    ensures DecimalString(m) != DecimalString(n)
  {
    DecimalRoundTrip(m);
    DecimalRoundTrip(n);
  }

  const HexDigits: string := "0123456789abcdef"

  /** The shape of `uuid.uuid4().hex`: 32 lower-case hexadecimal digits. */
  predicate IsUuidHex(h: string)
  {
    |h| == 32 && forall i :: 0 <= i < |h| ==> h[i] in HexDigits
  }

  /** Two strings that each start with a separator-free field agree on that field and on the rest. */
  lemma SplitAtSeparator(sep: char, a: string, x: string, b: string, y: string)
    requires sep !in a && sep !in b
    requires a + [sep] + x == b + [sep] + y
    ensures a == b && x == y
  {
    var s := a + [sep] + x;
    assert s[|a|] == sep;
    assert s[|b|] == sep;
    assert a == s[..|a|];
    assert b == (b + [sep] + y)[..|b|];
    assert x == s[|a| + 1..];
    assert y == (b + [sep] + y)[|b| + 1..];
  }

  /** A decimal rendering contains no character other than a digit. */
  lemma DecimalHasNo(c: char, n: nat)
    requires !('0' <= c <= '9')
    ensures c !in DecimalString(n)
  {
  }

  /** A uuid hex string contains no character outside the hexadecimal digits (such as '/', '_' or '.'). */
  lemma UuidHexHasNo(c: char, h: string)
    requires IsUuidHex(h)
    requires c !in HexDigits
    ensures c !in h
  {
  }
}
