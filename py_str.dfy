/**
 * The few operations of Python's `str` that the tutoring core relies on:
 * `isspace`, `strip`, `startswith`, `replace(old, "")`, `sep.join`,
 * `split(sep)[0]`, `str(int)` and `int(str)`.
 */
module PyStr {
  import opened Wrappers

  /** Python's `str.isspace` on one character: the 29 code points Python treats as whitespace. */
  predicate IsSpace(c: char) {
    || ('\t' <= c <= '\r')
    || ('\U{1C}' <= c <= ' ')
    || c == '\U{85}' || c == '\U{A0}' || c == '\U{1680}'
    || ('\U{2000}' <= c <= '\U{200A}')
    || c == '\U{2028}' || c == '\U{2029}' || c == '\U{202F}' || c == '\U{205F}' || c == '\U{3000}'
  }

  predicate AllSpace(s: string) {
    forall i :: 0 <= i < |s| ==> IsSpace(s[i])
  }

  /** Neither end of `s` is whitespace: what `strip` leaves behind. */
  predicate Trimmed(s: string) {
    s == [] || (!IsSpace(s[0]) && !IsSpace(s[|s| - 1]))
  }

  /** `s.lstrip()`: `s` without its whitespace prefix. */
  function LStrip(s: string): (r: string)
    ensures |r| <= |s| && r == s[|s| - |r|..]
    ensures r == [] || !IsSpace(r[0])
  {
    if |s| > 0 && IsSpace(s[0]) then LStrip(s[1..]) else s
  }

  /** `s.rstrip()`: `s` without its whitespace suffix. */
  function RStrip(s: string): (r: string)
    ensures |r| <= |s| && r == s[..|r|]
    ensures r == [] || !IsSpace(r[|r| - 1])
  {
    if |s| > 0 && IsSpace(s[|s| - 1]) then RStrip(s[..|s| - 1]) else s
  }

  /** `s.strip()`: `s` without the whitespace at either end. */
  function Strip(s: string): (r: string)
    ensures Trimmed(r) && |r| <= |s|
  {
    var l := LStrip(s);
    var r := RStrip(l);
    assert r == [] || !IsSpace(r[0]);
    r
  }

  /** `lstrip` removes only whitespace. */
  lemma {:induction false} LStripRemovesSpace(s: string)
    ensures AllSpace(s[..|s| - |LStrip(s)|])
  {
    if |s| > 0 && IsSpace(s[0]) {
      LStripRemovesSpace(s[1..]);
      var k := |s| - |LStrip(s)|;
      assert s[..k] == [s[0]] + s[1..][..k - 1];
    }
  }

  /** `rstrip` removes only whitespace. */
  lemma {:induction false} RStripRemovesSpace(s: string)
    ensures AllSpace(s[|RStrip(s)|..])
  {
    if |s| > 0 && IsSpace(s[|s| - 1]) {
      var t := s[..|s| - 1];
      RStripRemovesSpace(t);
      assert s[|RStrip(s)|..] == t[|RStrip(t)|..] + [s[|s| - 1]];
    }
  }

  /** What `strip` keeps is an infix of `s` with only whitespace before and after it. */
  lemma {:induction false} StripInfix(s: string)
    ensures var r := Strip(s);
      exists i :: 0 <= i <= |s| - |r| && r == s[i..i + |r|] && AllSpace(s[..i]) && AllSpace(s[i + |r|..])
  {
    var l := LStrip(s);
    var r := RStrip(l);
    LStripRemovesSpace(s);
    RStripRemovesSpace(l);
    PaddedInfix(s, l, r);
    assert Strip(s) == r;
  }

  /** A prefix `r` of a suffix `l` of `s`, with only whitespace cut off on either side, is a padded infix of `s`. */
  lemma PaddedInfix(s: string, l: string, r: string)
    requires |l| <= |s| && l == s[|s| - |l|..] && AllSpace(s[..|s| - |l|])
    requires |r| <= |l| && r == l[..|r|] && AllSpace(l[|r|..])
    ensures exists i :: 0 <= i <= |s| - |r| && r == s[i..i + |r|] && AllSpace(s[..i]) && AllSpace(s[i + |r|..])
  {
    var i := |s| - |l|;
    SliceOfSuffix(s, i, l, r);
    SpaceAround(s, r, i);
  }

  /** A prefix of a suffix of `s` is an infix of `s`, and what follows it in the suffix is what follows it in `s`. */
  lemma SliceOfSuffix(s: string, i: int, l: string, r: string)
    requires 0 <= i <= |s| && l == s[i..] && |r| <= |l| && r == l[..|r|]
    ensures i + |r| <= |s| && r == s[i..i + |r|] && s[i + |r|..] == l[|r|..]
  {
  }

  lemma SpaceAround(s: string, r: string, i: int)
    requires 0 <= i <= |s| - |r| && r == s[i..i + |r|] && AllSpace(s[..i]) && AllSpace(s[i + |r|..])
    ensures exists j :: 0 <= j <= |s| - |r| && r == s[j..j + |r|] && AllSpace(s[..j]) && AllSpace(s[j + |r|..])
  {
  }

  lemma {:induction false} LStripSpaces(a: string, t: string)
    requires AllSpace(a)
    requires t == [] || !IsSpace(t[0])
    ensures LStrip(a + t) == t
  {
    if a != [] {
      assert (a + t)[1..] == a[1..] + t;
      LStripSpaces(a[1..], t);
    }
  }

  lemma {:induction false} RStripSpaces(t: string, b: string)
    requires AllSpace(b)
    requires t == [] || !IsSpace(t[|t| - 1])
    ensures RStrip(t + b) == t
  {
    if b != [] {
      assert (t + b)[..|t + b| - 1] == t + b[..|b| - 1];
      RStripSpaces(t, b[..|b| - 1]);
    }
  }

  /**
   * Strip is determined by its two properties: whatever sits between two runs of
   * whitespace and has no whitespace at either end is exactly what `strip` returns.
   */
  lemma StripOf(a: string, m: string, b: string)
    requires AllSpace(a) && AllSpace(b) && Trimmed(m)
    ensures Strip(a + m + b) == m
  {
    if m == [] {
      assert a + m + b == a + b;
      assert AllSpace(a + b);
      LStripSpaces(a + b, []);
      assert a + b + [] == a + b;
    } else {
      assert a + m + b == a + (m + b);
      LStripSpaces(a, m + b);
      RStripSpaces(m, b);
    }
  }

  lemma StripTrimmed(s: string)
    requires Trimmed(s)
    ensures Strip(s) == s
  {
    StripOf([], s, []);
    assert [] + s + [] == s;
  }

  /** `strip` is idempotent. */
  lemma StripIdempotent(s: string)
    ensures Strip(Strip(s)) == Strip(s)
  {
    StripTrimmed(Strip(s));
  }

  predicate StartsWith(s: string, p: string) {
    |p| <= |s| && s[..|p|] == p
  }

  predicate EndsWith(s: string, p: string) {
    |p| <= |s| && s[|s| - |p|..] == p
  }

  /** `pat` occurs in `s` starting at index `i`. */
  predicate OccursAt(s: string, pat: string, i: int) {
    0 <= i <= |s| - |pat| && s[i..i + |pat|] == pat
  }

  lemma OccursAtMember(s: string, pat: string, i: int, k: nat)
    requires OccursAt(s, pat, i) && k < |pat|
    ensures pat[k] in s
  {
    assert s[i..i + |pat|][k] == s[i + k];
  }

  /** `pat` occurs somewhere in `s`. */
  predicate Contains(s: string, pat: string) {
    exists i :: 0 <= i <= |s| && OccursAt(s, pat, i)
  }

  /** `s.replace(pat, "")`: deletes the occurrences of `pat` found scanning left to right, without overlap. */
  function RemoveAll(s: string, pat: string): (r: string)
    requires |pat| > 0
    ensures |r| <= |s|
    decreases |s|
  {
    if |s| < |pat| then s
    else if s[..|pat|] == pat then RemoveAll(s[|pat|..], pat)
    else [s[0]] + RemoveAll(s[1..], pat)
  }

  /** Nothing to delete leaves the string as it was. */
  lemma {:induction false} RemoveAllAbsent(s: string, pat: string)
    requires |pat| > 0 && !Contains(s, pat)
    ensures RemoveAll(s, pat) == s
    decreases |s|
  {
    if |s| >= |pat| {
      assert !OccursAt(s, pat, 0);
      assert !Contains(s[1..], pat) by {
        forall i | OccursAt(s[1..], pat, i) ensures false {
          assert s[1..][i..i + |pat|] == s[i + 1..i + 1 + |pat|];
          assert OccursAt(s, pat, i + 1);
        }
      }
      RemoveAllAbsent(s[1..], pat);
      assert [s[0]] + s[1..] == s;
    }
  }

  /** `sep.join(xs)`. */
  function Join(xs: seq<string>, sep: string): (r: string)
  {
    if |xs| == 0 then ""
    else if |xs| == 1 then xs[0]
    else xs[0] + sep + Join(xs[1..], sep)
  }

  /** `s.split(c)[0]` for a one-character separator: everything before the first `c`. */
  function BeforeFirst(s: string, c: char): (r: string)
    ensures StartsWith(s, r) && c !in r
    ensures |r| == |s| || s[|r|] == c
  {
    if s == [] then ""
    else if s[0] == c then ""
    else [s[0]] + BeforeFirst(s[1..], c)
  }

  /** The text before the first `c` is the part of `a + b` ahead of `b`, when `b` starts with `c` and `a` has none. */
  lemma {:induction false} BeforeFirstConcat(a: string, b: string, c: char)
    requires c !in a && b != [] && b[0] == c
    ensures BeforeFirst(a + b, c) == a
  {
    if a != [] {
      assert (a + b)[1..] == a[1..] + b;
      BeforeFirstConcat(a[1..], b, c);
    }
  }

  predicate IsDigit(c: char) {
    '0' <= c <= '9'
  }

  function DigitChar(d: nat): (c: char)
    requires d < 10
    ensures IsDigit(c)
  {
    (48 + d) as char
  }

  function DigitValue(c: char): (d: nat)
    requires IsDigit(c)
    ensures d < 10 && DigitChar(d) == c
  {
    (c as int - 48) as nat
  }

  /** `str(n)` for a natural number: its decimal digits, most significant first. */
  function Decimal(n: nat): (r: string)
    ensures |r| > 0 && forall i :: 0 <= i < |r| ==> IsDigit(r[i])
  {
    if n < 10 then [DigitChar(n)] else Decimal(n / 10) + [DigitChar(n % 10)]
  }

  /** `str(n)` for any integer. */
  function IntToStr(n: int): (r: string)
    ensures |r| > 0 && !IsSpace(r[0]) && !IsSpace(r[|r| - 1])
    ensures '.' !in r && ' ' !in r
  {
    if n < 0 then "-" + Decimal(-n) else Decimal(n)
  }

  predicate DigitsOrUnderscores(d: string) {
    forall i :: 0 <= i < |d| ==> IsDigit(d[i]) || d[i] == '_'
  }

  /** The body of a Python integer literal: ASCII digits, with single underscores between digits. */
  predicate DigitRun(d: string) {
    && |d| > 0
    && IsDigit(d[0])
    && IsDigit(d[|d| - 1])
    && DigitsOrUnderscores(d)
    && forall i :: 0 <= i < |d| - 1 ==> !(d[i] == '_' && d[i + 1] == '_')
  }

  /** The number a digit run denotes, underscores ignored. */
  function RunValue(d: string): (n: nat)
    requires DigitsOrUnderscores(d)
  {
    if d == [] then 0
    else if d[|d| - 1] == '_' then RunValue(d[..|d| - 1])
    else RunValue(d[..|d| - 1]) * 10 + DigitValue(d[|d| - 1])
  }

  /**
   * The whitespace `int()` skips around its digits. CPython maps every non-ASCII
   * whitespace character to a space but leaves ASCII characters alone, and then skips
   * only the C-locale spaces; so the separators U+001C to U+001F, which `isspace`
   * accepts, make `int()` raise.
   */
  predicate IsIntSpace(c: char) {
    IsSpace(c) && !('\U{1C}' <= c <= '\U{1F}')
  }

  /** `s` without the leading and trailing characters `int()` skips. */
  function IntStrip(s: string): (r: string)
    ensures |r| <= |s|
    ensures r == [] || (!IsIntSpace(r[0]) && !IsIntSpace(r[|r| - 1]))
    decreases |s|
  {
    if |s| > 0 && IsIntSpace(s[0]) then IntStrip(s[1..])
    else if |s| > 0 && IsIntSpace(s[|s| - 1]) then IntStrip(s[..|s| - 1])
    else s
  }

  /** `int(s)` on a string: surrounding whitespace, an optional sign and a digit run; None for ValueError. */
  function ParseInt(s: string): (r: Option<int>)
  {
    ParseStripped(IntStrip(s))
  }

  /** `int()` skips a leading space and a trailing tab. */
  lemma IntSkipsSpaces()
    ensures ParseInt(" 5\t") == Some(5)
  {
    assert IntStrip(" 5\t") == "5" by {
      assert " 5\t"[1..] == "5\t" && "5\t"[..1] == "5";
    }
    assert Decimal(5) == "5";
    DecimalParses(5);
  }

  /** `int()` raises on a leading separator U+001C, although `strip` would remove it. */
  lemma IntRejectsSeparator()
    ensures ParseInt("\U{1C}5") == None
    ensures Strip("\U{1C}5") == "5"
  {
    assert IntStrip("\U{1C}5") == "\U{1C}5";
    assert Unsigned("\U{1C}5") == "\U{1C}5";
    assert !IsDigit("\U{1C}5"[0]);
    assert LStrip("\U{1C}5") == "5" by {
      assert "\U{1C}5"[1..] == "5";
    }
    assert RStrip("5") == "5";
  }

  /** `int(t)` once `t` has been stripped. */
  function ParseStripped(t: string): Option<int> {
    var body := Unsigned(t);
    if DigitRun(body) then
      var v: int := RunValue(body);
      Some(if Negative(t) then -v else v)
    else None
  }

  predicate Negative(t: string) {
    |t| > 0 && t[0] == '-'
  }

  /** `t` without its leading sign, if it has one. */
  function Unsigned(t: string): (u: string)
    ensures |u| <= |t|
  {
    if |t| > 0 && (t[0] == '-' || t[0] == '+') then t[1..] else t
  }

  lemma {:induction false} DecimalValue(n: nat)
    ensures DigitRun(Decimal(n)) && RunValue(Decimal(n)) == n
  {
    var d := Decimal(n);
    if n >= 10 {
      DecimalValue(n / 10);
      assert d[..|d| - 1] == Decimal(n / 10);
    }
  }

  /** `int(str(n)) == n`: printing an integer and reading it back gives the integer. */
  lemma IntStrRoundTrip(n: int)
    ensures ParseInt(IntToStr(n)) == Some(n)
  {
    var s := IntToStr(n);
    assert IntStrip(s) == s;
    if n < 0 {
      assert s == "-" + Decimal(-n);
      NegativeParses(-n);
    } else {
      assert s == Decimal(n);
      DecimalParses(n);
    }
  }

  lemma DecimalParses(n: nat)
    ensures ParseStripped(Decimal(n)) == Some(n)
  {
    var d := Decimal(n);
    DecimalValue(n);
    assert IsDigit(d[0]);
    assert Unsigned(d) == d;
  }

  lemma NegativeParses(n: nat)
    requires n > 0
    ensures ParseStripped("-" + Decimal(n)) == Some(-(n as int))
  {
    var d := Decimal(n);
    var s := "-" + d;
    DecimalValue(n);
    assert s[0] == '-' && s[1..] == d;
    assert Unsigned(s) == d;
  }
}
