/**
 * The Python string operations the translation layer relies on: whitespace as
 * `str.isspace` and the regex class `\s` see it, `strip`, `lower`, `isdigit`,
 * `split` and `join`, and the decimal rendering of integers with its inverse.
 */
module PyText {
  import opened Json

  /** Python's `str.isspace()` on one character; the regex class `\s` matches the same set. */
  predicate IsSpace(c: char) {
    var n := c as int;
    || 9 <= n <= 13
    || 28 <= n <= 32
    || n == 0x85 || n == 0xA0 || n == 0x1680
    || 0x2000 <= n <= 0x200A
    || n == 0x2028 || n == 0x2029 || n == 0x202F || n == 0x205F || n == 0x3000
  }

  predicate AllSpace(s: string) {
    forall i :: 0 <= i < |s| ==> IsSpace(s[i])
  }

  predicate NoSpace(s: string) {
    forall i :: 0 <= i < |s| ==> !IsSpace(s[i])
  }

  /** Printable ASCII other than the space is never whitespace. */
  lemma VisibleAsciiHasNoSpace(t: string)
    requires forall i :: 0 <= i < |t| ==> '!' <= t[i] <= '~'
    ensures NoSpace(t)
  {
  }

  /** Python's `s.lstrip()`: drops the leading whitespace and nothing else. */
  function LStrip(s: string): (r: string)
    ensures |r| <= |s|
  {
    if s != [] && IsSpace(s[0]) then LStrip(s[1..]) else s
  }

  /** Python's `s.rstrip()`: drops the trailing whitespace and nothing else. */
  function RStrip(s: string): (r: string)
    ensures |r| <= |s|
  {
    if s != [] && IsSpace(s[|s| - 1]) then RStrip(s[..|s| - 1]) else s
  }

  /** Python's `s.strip()`. */
  function Strip(s: string): string {
    RStrip(LStrip(s))
  }

  /** `lstrip` removes a prefix of whitespace, up to the first other character. */
  lemma {:induction false} LStripRemovesLeadingSpace(s: string)
    ensures var r := LStrip(s);
            && s == s[..|s| - |r|] + r && AllSpace(s[..|s| - |r|])
            && (r == [] || !IsSpace(r[0]))
  {
    if s != [] && IsSpace(s[0]) {
      LStripRemovesLeadingSpace(s[1..]);
      var r := LStrip(s);
      assert s[..|s| - |r|] == [s[0]] + s[1..][..|s[1..]| - |r|];
    }
  }

  /** `rstrip` removes a suffix of whitespace, back to the last other character. */
  lemma {:induction false} RStripRemovesTrailingSpace(s: string)
    ensures var r := RStrip(s);
            && s == r + s[|r|..] && AllSpace(s[|r|..])
            && (r == [] || !IsSpace(r[|r| - 1]))
  {
    if s != [] && IsSpace(s[|s| - 1]) {
      var t := s[..|s| - 1];
      RStripRemovesTrailingSpace(t);
      var r := RStrip(s);
      assert s[|r|..] == t[|r|..] + [s[|s| - 1]];
    }
  }

  /** A stripped string neither starts nor ends with whitespace. */
  lemma StripTrims(s: string)
    ensures var r := Strip(s); r == [] || (!IsSpace(r[0]) && !IsSpace(r[|r| - 1]))
  {
    var l := LStrip(s);
    LStripRemovesLeadingSpace(s);
    RStripRemovesTrailingSpace(l);
    var r := RStrip(l);
    if r != [] {
      assert l == r + l[|r|..];
      assert r[0] == l[0];
    }
  }

  /** ASCII lower-casing. */
  function LowerChar(c: char): (d: char)
    ensures 'A' <= c <= 'Z' ==> d as int == c as int + 32
    ensures !('A' <= c <= 'Z') ==> d == c
  {
    if 'A' <= c <= 'Z' then (c as int + 32) as char else c
  }

  /**
   * Python's `s.lower()`, restricted to ASCII letters. The translator only
   * compares the result with "true" and "false", and no non-ASCII character
   * lower-cases to one of their letters, so the comparison comes out the same.
   */
  function Lower(s: string): (r: string)
    ensures |r| == |s|
    ensures forall i :: 0 <= i < |s| ==> r[i] == LowerChar(s[i])
  {
    seq(|s|, i requires 0 <= i < |s| => LowerChar(s[i]))
  }

  /** Python's `s.isdigit()` for ASCII digits: non-empty and digits only. */
  predicate IsDigits(s: string) {
    |s| > 0 && forall i :: 0 <= i < |s| ==> '0' <= s[i] <= '9'
  }

  /** The number a string of decimal digits denotes, leading zeros allowed. */
  function DigitsValue(s: string): nat
    requires forall i :: 0 <= i < |s| ==> '0' <= s[i] <= '9'
  {
    if s == [] then 0 else DigitsValue(s[..|s| - 1]) * 10 + (s[|s| - 1] as int - '0' as int)
  }

  /** Reads a decimal natural number; None unless the text is digits only. */
  function ParseNat(s: string): Option<nat> {
    if IsDigits(s) then Some(DigitsValue(s)) else None
  }

  /** Reads a decimal integer with an optional leading minus sign, as `int(s)` does for such text. */
  function ParseInt(s: string): Option<int> {
    if |s| > 0 && s[0] == '-' then
      match ParseNat(s[1..])
      case Some(n) => Some(0 - n)
      case None => None
    else
      match ParseNat(s)
      case Some(n) => Some(n)
      case None => None
  }

  lemma {:induction false} NatToStringRoundTrip(n: nat)
    ensures ParseNat(NatToString(n)) == Some(n)
  {
    var s := NatToString(n);
    if n >= 10 {
      NatToStringRoundTrip(n / 10);
      assert s[..|s| - 1] == NatToString(n / 10);
      assert s[|s| - 1] as int - '0' as int == n % 10;
      assert DigitsValue(s) == (n / 10) * 10 + n % 10;
    } else {
      assert s[..0] == [];
    }
  }

  /** `str(i)` reads back as `i`. */
  lemma IntToStringRoundTrip(i: int)
    ensures ParseInt(IntToString(i)) == Some(i)
  {
    if i < 0 {
      NatToStringRoundTrip(-i);
      assert IntToString(i)[1..] == NatToString(-i);
    } else {
      NatToStringRoundTrip(i);
    }
  }

  /** Python's `sep.join(ps)`. */
  function Join(ps: seq<string>, sep: char): string {
    if |ps| == 0 then ""
    else if |ps| == 1 then ps[0]
    else ps[0] + [sep] + Join(ps[1..], sep)
  }

  /** Python's `s.split(sep)` for a one-character separator: always at least one piece. */
  function Split(s: string, sep: char): (r: seq<string>)
    ensures |r| >= 1
  {
    if s == [] then [""]
    else
      var rest := Split(s[1..], sep);
      if s[0] == sep then [""] + rest else [[s[0]] + rest[0]] + rest[1..]
  }

  lemma {:induction false} SplitWithoutSeparator(s: string, sep: char)
    requires sep !in s
    ensures Split(s, sep) == [s]
  {
    if s != [] {
      SplitWithoutSeparator(s[1..], sep);
      assert [s[0]] + s[1..] == s;
    }
  }

  /** Splitting at a separator splits the two sides independently. */
  lemma {:induction false} SplitAround(x: string, sep: char, y: string)
    ensures Split(x + [sep] + y, sep) == Split(x, sep) + Split(y, sep)
  {
    var s := x + [sep] + y;
    if x == [] {
      assert s[1..] == y;
    } else {
      assert s[1..] == x[1..] + [sep] + y;
      SplitAround(x[1..], sep, y);
    }
  }

  /** Joining pieces that do not contain the separator and splitting again gives the pieces back. */
  lemma {:induction false} SplitJoin(ps: seq<string>, sep: char)
    requires |ps| > 0
    requires forall i :: 0 <= i < |ps| ==> sep !in ps[i]
    ensures Split(Join(ps, sep), sep) == ps
  {
    if |ps| == 1 {
      SplitWithoutSeparator(ps[0], sep);
    } else {
      SplitAround(ps[0], sep, Join(ps[1..], sep));
      SplitWithoutSeparator(ps[0], sep);
      SplitJoin(ps[1..], sep);
    }
  }

  /** A character that no piece contains, other than the separator, is absent from the join. */
  lemma {:induction false} JoinAvoids(ps: seq<string>, sep: char, c: char)
    requires c != sep
    requires forall i :: 0 <= i < |ps| ==> c !in ps[i]
    ensures c !in Join(ps, sep)
  {
    if |ps| > 1 {
      JoinAvoids(ps[1..], sep, c);
    }
  }
}
