/**
 * The few Python string operations the model relies on: prefix and substring
 * tests, slicing with clamping, `str.strip()`, `str(n)` for naturals,
 * `str.split('\n')` and `str.split('.', 1)[1]`.
 */
module Text {

  /** `s.startswith(prefix)` */
  predicate StartsWith(s: string, prefix: string) {
    |prefix| <= |s| && s[..|prefix|] == prefix
  }

  /** `part in s` for strings */
  predicate Contains(s: string, part: string)
    decreases |s|
  {
    StartsWith(s, part) || (|s| > 0 && Contains(s[1..], part))
  }

  /** `s[:n]`: the first `n` characters, or all of `s` when it is shorter. */
  function Take<T>(s: seq<T>, n: nat): (r: seq<T>)
    ensures |r| <= n && |r| <= |s|
    ensures |s| <= n ==> r == s
    ensures n <= |s| ==> |r| == n
    ensures r == s[..|r|]
  {
    if |s| <= n then s else s[..n]
  }

  /** `c.isdigit()`, restricted to the ASCII digits. */
  predicate IsDigit(c: char) {
    '0' <= c <= '9'
  }

  /** `c.isspace()`: the characters Python's argument-less `strip()` removes. */
  predicate IsSpace(c: char) {
    || ('\t' <= c <= '\r') || c == ' ' || ('\U{1c}' <= c <= '\U{1f}') || c == '\U{85}' || c == '\U{a0}'
    || c == '\U{1680}' || ('\U{2000}' <= c <= '\U{200a}') || c == '\U{2028}' || c == '\U{2029}'
    || c == '\U{202f}' || c == '\U{205f}' || c == '\U{3000}'
  }

  function TrimRight(s: string): (r: string)
    ensures |r| <= |s|
    ensures r == s[..|r|]
    ensures r != [] ==> !IsSpace(r[|r| - 1])
    decreases |s|
  {
    if s != [] && IsSpace(s[|s| - 1]) then TrimRight(s[..|s| - 1]) else s
  }

  /** `s.strip()`: leading white space dropped one character at a time, then trailing white space. */
  function Strip(s: string): (r: string)
    ensures |r| <= |s|
    ensures r != [] ==> !IsSpace(r[0]) && !IsSpace(r[|r| - 1])
    decreases |s|
  {
    if s != [] && IsSpace(s[0]) then Strip(s[1..])
    else
      var r := TrimRight(s);
      assert r != [] ==> r[0] == s[0];
      r
  }

  /** A string whose first character is not white space keeps that character first after `strip()`. */
  lemma StripKeepsFirst(s: string)
    requires s != [] && !IsSpace(s[0])
    ensures Strip(s) != [] && Strip(s)[0] == s[0]
  {
    if TrimRight(s) == [] {
      TrimRightKeepsNonSpace(s, 0);
    }
  }

  lemma {:induction false} TrimRightKeepsNonSpace(s: string, k: nat)
    requires k < |s| && !IsSpace(s[k])
    ensures k < |TrimRight(s)|
    decreases |s|
  {
    if s != [] && IsSpace(s[|s| - 1]) {
      TrimRightKeepsNonSpace(s[..|s| - 1], k);
    }
  }

  /** Leading white space makes no difference to `strip()`. */
  lemma StripSkipsSpace(c: char, s: string)
    requires IsSpace(c)
    ensures Strip([c] + s) == Strip(s)
  {
    assert ([c] + s)[1..] == s;
  }

  function DigitChar(d: nat): (c: char)
    requires d < 10
    ensures IsDigit(c)
  {
    ['0', '1', '2', '3', '4', '5', '6', '7', '8', '9'][d]
  }

  /** `str(n)` for a natural number: its decimal digits, most significant first. */
  function NatToString(n: nat): (s: string)
    ensures s != []
    ensures n < 10 ==> |s| == 1
  {
    if n < 10 then [DigitChar(n)] else NatToString(n / 10) + [DigitChar(n % 10)]
  }

  /** Every character of `str(n)` is a decimal digit. */
  lemma {:induction false} NatToStringDigits(n: nat)
    ensures forall i :: 0 <= i < |NatToString(n)| ==> IsDigit(NatToString(n)[i])
    decreases n
  {
    if n >= 10 {
      NatToStringDigits(n / 10);
      var s := NatToString(n);
      assert s == NatToString(n / 10) + [DigitChar(n % 10)];
    }
  }

  /** The position of the first `c` in `s`. */
  function IndexOf(s: string, c: char): (i: nat)
    requires c in s
    ensures i < |s| && s[i] == c && c !in s[..i]
  {
    if s[0] == c then 0 else 1 + IndexOf(s[1..], c)
  }

  /** `s.split(c, 1)[1]`: everything after the first `c`. */
  function After(s: string, c: char): (r: string)
    requires c in s
    ensures r == s[IndexOf(s, c) + 1..]
  {
    s[IndexOf(s, c) + 1..]
  }

  /** `s.split('\n')`: the pieces between line feeds, always at least one. */
  function SplitLines(s: string): (lines: seq<string>)
    ensures |lines| >= 1
    decreases |s|
  {
    if s == [] then [""]
    else
      var rest := SplitLines(s[1..]);
      if s[0] == '\n' then [""] + rest else [[s[0]] + rest[0]] + rest[1..]
  }

  /** A text without line feeds is a single line. */
  lemma {:induction false} SplitSingleLine(s: string)
    requires '\n' !in s
    ensures SplitLines(s) == [s]
    decreases |s|
  {
    if s != [] {
      assert '\n' !in s[1..] by {
        forall i | 0 <= i < |s[1..]| ensures s[1..][i] != '\n' {
          assert s[1..][i] == s[i + 1];
        }
      }
      SplitSingleLine(s[1..]);
      assert [s[0]] + s[1..] == s;
    }
  }

  /** Splitting at a line feed splits the two sides independently. */
  lemma {:induction false} SplitAround(s: string, t: string)
    ensures SplitLines(s + "\n" + t) == SplitLines(s) + SplitLines(t)
    decreases |s|
  {
    var whole := s + "\n" + t;
    if s == [] {
      assert whole[1..] == t;
    } else {
      assert whole[1..] == s[1..] + "\n" + t;
      SplitAround(s[1..], t);
    }
  }
}
