/** String helpers shared by the ingestion pipeline and the viewer: Python's
    notion of whitespace, `str.strip`, `str.startswith`, `in` on strings,
    `str.join`, `str.split`, list slicing `s[:n]` and decimal formatting. */
module Text {

  /** The characters for which Python's `str.isspace()` holds; `re`'s `\s`
      on `str` patterns and `str.strip()` without arguments use the same set. */
  predicate IsSpace(c: char) {
    || '\U{9}' <= c <= '\U{D}' || '\U{1C}' <= c <= '\U{20}' || c == '\U{85}' || c == '\U{A0}'
    || c == '\U{1680}' || '\U{2000}' <= c <= '\U{200A}' || c == '\U{2028}' || c == '\U{2029}'
    || c == '\U{202F}' || c == '\U{205F}' || c == '\U{3000}'
  }

  /** `c.lower()` restricted to ASCII letters. */
  function LowerChar(c: char): (r: char)
    ensures 'A' <= c <= 'Z' ==> r as int == c as int + 32
    ensures !('A' <= c <= 'Z') ==> r == c
  {
    if 'A' <= c <= 'Z' then (c as int + 32) as char else c
  }

  function Lower(s: string): (r: string)
    ensures |r| == |s|
    ensures forall i :: 0 <= i < |s| ==> r[i] == LowerChar(s[i])
  {
    if s == [] then [] else [LowerChar(s[0])] + Lower(s[1..])
  }

  /** `s.startswith(p)` */
  predicate StartsWith(s: string, p: string) {
    |p| <= |s| && s[..|p|] == p
  }

  /** `p in s` for strings. */
  predicate Contains(s: string, p: string)
    decreases |s|
  {
    StartsWith(s, p) || (s != [] && Contains(s[1..], p))
  }

  /** A string cannot contain a pattern holding a character it lacks. */
  lemma {:induction false} NotContainsMissingChar(s: string, p: string, c: char)
    requires c in p && c !in s
    ensures !Contains(s, p)
    decreases |s|
  {
    if s != [] {
      NotContainsMissingChar(s[1..], p, c);
    }
  }

  /** `s.lstrip()` */
  function LStrip(s: string): (r: string)
    ensures |r| <= |s| && r == s[|s| - |r|..]
    ensures r == [] || !IsSpace(r[0])
  {
    if s != [] && IsSpace(s[0]) then LStrip(s[1..]) else s
  }

  /** `s.rstrip()` */
  function RStrip(s: string): (r: string)
    ensures |r| <= |s| && r == s[..|r|]
    ensures r == [] || !IsSpace(r[|r| - 1])
  {
    if s != [] && IsSpace(s[|s| - 1]) then RStrip(s[..|s| - 1]) else s
  }

  /** Every character of `s` is whitespace. */
  predicate AllSpace(s: string) {
    forall i :: 0 <= i < |s| ==> IsSpace(s[i])
  }

  /** `lstrip` removes only whitespace. */
  lemma {:induction false} LStripSpaces(s: string)
    ensures AllSpace(s[..|s| - |LStrip(s)|])
    decreases |s|
  {
    if s != [] && IsSpace(s[0]) {
      LStripSpaces(s[1..]);
      var n := |s| - |LStrip(s)|;
      forall k | 0 <= k < n ensures IsSpace(s[..n][k]) {
        if k > 0 { assert s[..n][k] == s[1..][..n - 1][k - 1]; }
      }
    }
  }

  /** `lstrip` of a string whose leading whitespace is its first `k` characters. */
  lemma {:induction false} LStripAfter(s: string, k: nat)
    requires k <= |s| && AllSpace(s[..k]) && (k == |s| || !IsSpace(s[k]))
    ensures LStrip(s) == s[k..]
    decreases k
  {
    if k > 0 {
      assert IsSpace(s[..k][0]);
      assert s[1..][..k - 1] == s[..k][1..];
      LStripAfter(s[1..], k - 1);
      assert s[1..][k - 1..] == s[k..];
    }
  }

  /** `rstrip` removes only whitespace. */
  lemma {:induction false} RStripSpaces(s: string)
    ensures AllSpace(s[|RStrip(s)|..])
    decreases |s|
  {
    if s != [] && IsSpace(s[|s| - 1]) {
      RStripSpaces(s[..|s| - 1]);
      var n := |RStrip(s)|;
      forall k | 0 <= k < |s| - n ensures IsSpace(s[n..][k]) {
        if k < |s| - 1 - n { assert s[n..][k] == s[..|s| - 1][n..][k]; }
      }
    }
  }

  /** `s.strip()`: a slice of `s` without whitespace at either end, obtained by
      removing only whitespace. */
  function Strip(s: string): (r: string)
    ensures exists i, j :: 0 <= i <= j <= |s| && r == s[i..j] && AllSpace(s[..i]) && AllSpace(s[j..])
    ensures r == [] || (!IsSpace(r[0]) && !IsSpace(r[|r| - 1]))
  {
    var l := LStrip(s);
    var r := RStrip(l);
    var i := |s| - |l|;
    LStripSpaces(s);
    RStripSpaces(l);
    assert r == s[i..i + |r|];
    assert s[i + |r|..] == l[|r|..];
    r
  }

  /** No whitespace at either end. */
  predicate Trimmed(t: string) {
    t == [] || (!IsSpace(t[0]) && !IsSpace(t[|t| - 1]))
  }

  lemma StripTrimmed(s: string)
    ensures Trimmed(Strip(s))
  {
  }

  /** Stripping leaves a string without whitespace at its ends unchanged. */
  lemma StripOfTrimmed(s: string)
    requires Trimmed(s)
    ensures Strip(s) == s
  {
    assert LStrip(s) == s;
    assert RStrip(s) == s;
  }

  lemma StripEmptyIffAllSpace(s: string)
    ensures Strip(s) == [] <==> AllSpace(s)
  {
    if Strip(s) == [] {
      var i, j :| 0 <= i <= j <= |s| && Strip(s) == s[i..j] && AllSpace(s[..i]) && AllSpace(s[j..]);
      assert i == j;
      forall k | 0 <= k < |s| ensures IsSpace(s[k]) {
        if k < i { assert s[k] == s[..i][k]; } else { assert s[k] == s[j..][k - j]; }
      }
    }
  }

  /** `sep.join(parts)` */
  function Join(sep: string, parts: seq<string>): (r: string)
    ensures parts == [] ==> r == []
    ensures |parts| == 1 ==> r == parts[0]
  {
    if parts == [] then []
    else if |parts| == 1 then parts[0]
    else parts[0] + sep + Join(sep, parts[1..])
  }

  /** `s.split(sep)` for a one-character separator: the pieces between the
      separators, always at least one. */
  function Split(s: string, sep: char): (r: seq<string>)
    ensures |r| >= 1
    ensures forall i :: 0 <= i < |r| ==> sep !in r[i]
    decreases |s|
  {
    if s == [] then [[]]
    else
      var rest := Split(s[1..], sep);
      if s[0] == sep then [[]] + rest
      else [[s[0]] + rest[0]] + rest[1..]
  }

  /** Splitting undoes joining when no piece holds the separator. */
  lemma {:induction false} SplitJoin(parts: seq<string>, sep: char)
    requires |parts| >= 1
    requires forall i :: 0 <= i < |parts| ==> sep !in parts[i]
    ensures Split(Join([sep], parts), sep) == parts
    decreases |parts|, |parts[0]|
  {
    if |parts| == 1 {
      SplitPiece(parts[0], sep);
    } else {
      var p := parts[0];
      var tail := parts[1..];
      var rest := [sep] + Join([sep], tail);
      assert Join([sep], parts) == p + rest;
      SplitJoin(tail, sep);
      SplitPrefix(p, rest, sep);
      assert rest[1..] == Join([sep], tail);
      assert parts == [p] + tail;
    }
  }

  lemma {:induction false} SplitPiece(p: string, sep: char)
    requires sep !in p
    ensures Split(p, sep) == [p]
    decreases |p|
  {
    if p != [] {
      SplitPiece(p[1..], sep);
      assert [p[0]] + p[1..] == p;
    }
  }

  /** A separator-free prefix glues onto the first piece of what follows it. */
  lemma {:induction false} SplitPrefix(p: string, rest: string, sep: char)
    requires sep !in p
    requires rest != [] && rest[0] == sep
    ensures Split(p + rest, sep) == [p] + Split(rest[1..], sep)
    decreases |p|
  {
    if p == [] {
      assert p + rest == rest;
    } else {
      SplitPrefix(p[1..], rest, sep);
      assert (p + rest)[1..] == p[1..] + rest;
      assert [p[0]] + p[1..] == p;
    }
  }

  /** Python's `s[:n]` for any integer `n`: a negative bound counts from the end. */
  function SlicePrefix<T>(s: seq<T>, n: int): (r: seq<T>)
    ensures |r| <= |s| && r == s[..|r|]
    ensures 0 <= n ==> |r| == if n < |s| then n else |s|
    ensures n < 0 ==> |r| == if |s| + n < 0 then 0 else |s| + n
  {
    if 0 <= n then (if n < |s| then s[..n] else s)
    else if |s| + n < 0 then []
    else s[..|s| + n]
  }

  function DigitChar(d: nat): (c: char)
    requires d < 10
    ensures '0' <= c <= '9'
  {
    ('0' as int + d) as char
  }

  function DigitValue(c: char): (d: nat)
    requires '0' <= c <= '9'
    ensures d < 10
  {
    c as int - '0' as int
  }

  function Pow10(w: nat): (r: nat)
    ensures r >= 1
  {
    if w == 0 then 1 else 10 * Pow10(w - 1)
  }

  /** `n` written with exactly `w` decimal digits, zero-padded on the left
      (the `%Y`, `%m`, `%d` and `:02d` formats). */
  function PaddedDigits(n: nat, w: nat): (r: string)
    ensures |r| == w
    ensures forall i :: 0 <= i < |r| ==> '0' <= r[i] <= '9'
  {
    if w == 0 then [] else PaddedDigits(n / 10, w - 1) + [DigitChar(n % 10)]
  }

  /** Reads a run of decimal digits. */
  function DigitsValue(s: string): nat
    requires forall i :: 0 <= i < |s| ==> '0' <= s[i] <= '9'
  {
    if s == [] then 0 else 10 * DigitsValue(s[..|s| - 1]) + DigitValue(s[|s| - 1])
  }

  lemma {:induction false} DigitsValuePadded(n: nat, w: nat)
    requires n < Pow10(w)
    ensures DigitsValue(PaddedDigits(n, w)) == n
  {
    if w > 0 {
      DigitsValuePadded(n / 10, w - 1);
      var s := PaddedDigits(n, w);
      assert s[..|s| - 1] == PaddedDigits(n / 10, w - 1);
    }
  }

  /** `str(n)` for a natural number. */
  function NatToString(n: nat): (r: string)
    ensures |r| >= 1
    ensures forall i :: 0 <= i < |r| ==> '0' <= r[i] <= '9'
  {
    if n < 10 then [DigitChar(n)] else NatToString(n / 10) + [DigitChar(n % 10)]
  }

  /** `str(n)` for any integer. */
  function IntToString(n: int): (r: string)
    ensures |r| >= 1
  {
    if n < 0 then "-" + NatToString(-n) else NatToString(n)
  }

  /** For four-digit years `str(y)` and the zero-padded four-digit form agree. */
  lemma FourDigitsUnpadded(n: nat)
    requires 1000 <= n <= 9999
    ensures IntToString(n) == PaddedDigits(n, 4)
  {
    assert Pow10(3) == 1000 && Pow10(4) == 10000;
    WidthDigitsUnpadded(n, 4);
  }

  /** A number with exactly `w` digits is written the same with or without
      zero padding to width `w`. */
  lemma {:induction false} WidthDigitsUnpadded(n: nat, w: nat)
    requires w >= 1 && Pow10(w - 1) <= n < Pow10(w)
    ensures NatToString(n) == PaddedDigits(n, w)
    decreases w
  {
    if w == 1 {
      assert n < 10 && n % 10 == n && n / 10 == 0;
      assert PaddedDigits(n, 1) == PaddedDigits(0, 0) + [DigitChar(n)];
    } else {
      assert Pow10(w - 1) == 10 * Pow10(w - 2);
      assert n >= 10;
      WidthDigitsUnpadded(n / 10, w - 1);
    }
  }
}
