/** `_clean_text`: HTML entities are unescaped, tags are replaced by a space,
    every run of whitespace becomes one space and the ends are stripped. */
module CleanText {
  import opened Text

  /** The regular expression `<[^>]+>` matches at position `i`: a `<`, at least
      one character that is not `>`, then a `>` further on. The match ends at the
      first `>` after `i`. */
  predicate TagAt(s: string, i: nat) {
    i + 1 < |s| && s[i] == '<' && s[i + 1] != '>' && '>' in s[i + 2..]
  }

  /** Index of the first `>` in `s`, or `|s|` when there is none. */
  function FirstClose(s: string): (j: nat)
    ensures j <= |s|
    ensures j < |s| ==> s[j] == '>'
    ensures forall k :: 0 <= k < j ==> s[k] != '>'
  {
    if s == [] || s[0] == '>' then 0 else 1 + FirstClose(s[1..])
  }

  /** `re.sub(r"<[^>]+>", " ", s)`: scanning left to right, each match is
      replaced by one space and scanning resumes after it. */
  function StripTags(s: string): string
    decreases |s|
  {
    if s == [] then []
    else if TagAt(s, 0) then
      var j := 2 + FirstClose(s[2..]);
      " " + StripTags(s[j + 1..])
    else [s[0]] + StripTags(s[1..])
  }

  /** `re.sub(r"\s+", " ", s)`: each maximal run of whitespace becomes one space. */
  function CollapseSpaces(s: string): string
    decreases |s|
  {
    if s == [] then []
    else if IsSpace(s[0]) then " " + CollapseSpaces(LStrip(s))
    else [s[0]] + CollapseSpaces(s[1..])
  }

  /** `_clean_text(s)`, with `html.unescape` supplied as `unescape`. */
  function Clean(s: string, unescape: string -> string): string {
    if s == [] then [] else Strip(CollapseSpaces(StripTags(unescape(s))))
  }

  /** The non-whitespace characters of `s`, in order. */
  function Visible(s: string): string {
    if s == [] then []
    else if IsSpace(s[0]) then Visible(s[1..])
    else [s[0]] + Visible(s[1..])
  }

  /** No two adjacent characters are both whitespace. */
  predicate NoDoubleSpace(s: string) {
    forall i :: 0 <= i < |s| - 1 ==> !(IsSpace(s[i]) && IsSpace(s[i + 1]))
  }

  /** The only whitespace character left is the plain space. */
  predicate OnlyPlainSpaces(s: string) {
    forall i :: 0 <= i < |s| && IsSpace(s[i]) ==> s[i] == ' '
  }

  lemma {:induction false} VisibleConcat(a: string, b: string)
    ensures Visible(a + b) == Visible(a) + Visible(b)
  {
    if a != [] {
      VisibleConcat(a[1..], b);
      assert (a + b)[0] == a[0];
      assert (a + b)[1..] == a[1..] + b;
    } else {
      assert a + b == b;
    }
  }

  lemma {:induction false} VisibleAllSpace(a: string)
    requires AllSpace(a)
    ensures Visible(a) == []
  {
    if a != [] { VisibleAllSpace(a[1..]); }
  }

  /** A `>` never appears in the output of tag stripping unless it was in the input. */
  lemma {:induction false} StripTagsKeepsNoClose(s: string)
    requires '>' !in s
    ensures '>' !in StripTags(s)
    decreases |s|
  {
    if s != [] {
      assert !TagAt(s, 0);
      StripTagsKeepsNoClose(s[1..]);
    }
  }

  lemma {:induction false} TagAtShift(c: char, t: string, i: nat)
    ensures TagAt([c] + t, i + 1) == TagAt(t, i)
  {
    var s := [c] + t;
    if i + 2 < |s| { assert s[i + 3..] == t[i + 2..]; }
  }

  /** After the substitution no match of `<[^>]+>` is left. */
  lemma {:induction false} StripTagsLeavesNoTag(s: string)
    ensures forall i: nat :: !TagAt(StripTags(s), i)
    decreases |s|
  {
    if s == [] {
    } else if TagAt(s, 0) {
      var j := 2 + FirstClose(s[2..]);
      var t := StripTags(s[j + 1..]);
      StripTagsLeavesNoTag(s[j + 1..]);
      forall i: nat ensures !TagAt(" " + t, i) {
        if i > 0 { TagAtShift(' ', t, i - 1); }
      }
    } else {
      var t := StripTags(s[1..]);
      StripTagsLeavesNoTag(s[1..]);
      assert StripTags(s) == [s[0]] + t;
      if s[0] == '<' && |s| > 1 {
        if s[1] == '>' {
          assert !TagAt(s[1..], 0);
          assert t == [s[1]] + StripTags(s[2..]);
        } else {
          assert '>' !in s[2..];
          assert s[1..] == [s[1]] + s[2..];
          StripTagsKeepsNoClose(s[1..]);
          assert ([s[0]] + t)[2..] == t[1..];
        }
      }
      forall i: nat ensures !TagAt([s[0]] + t, i) {
        if i > 0 { TagAtShift(s[0], t, i - 1); }
      }
    }
  }

  /** Prepending one character to collapsed text keeps it collapsed when
      that character is a plain space before a visible one, or is visible. */
  lemma ConsSpacing(c: char, t: string)
    requires NoDoubleSpace(t) && OnlyPlainSpaces(t)
    requires c == ' ' || !IsSpace(c)
    requires IsSpace(c) ==> t == [] || !IsSpace(t[0])
    ensures NoDoubleSpace([c] + t) && OnlyPlainSpaces([c] + t)
  {
    var r := [c] + t;
    forall k | 0 <= k < |r| - 1 ensures !(IsSpace(r[k]) && IsSpace(r[k + 1])) {
      if k > 0 { assert r[k] == t[k - 1] && r[k + 1] == t[k]; }
    }
    forall k | 0 <= k < |r| && IsSpace(r[k]) ensures r[k] == ' ' {
      if k > 0 { assert r[k] == t[k - 1]; }
    }
  }

  /** What whitespace collapsing leaves: single plain spaces between visible
      characters, which are all kept in order. */
  lemma {:induction false} CollapseSpacesShape(s: string)
    ensures NoDoubleSpace(CollapseSpaces(s))
    ensures OnlyPlainSpaces(CollapseSpaces(s))
    ensures Visible(CollapseSpaces(s)) == Visible(s)
    ensures s != [] && !IsSpace(s[0]) ==> CollapseSpaces(s) != [] && CollapseSpaces(s)[0] == s[0]
    decreases |s|
  {
    if s == [] {
    } else if IsSpace(s[0]) {
      var l := LStrip(s);
      var w := s[..|s| - |l|];
      var t := CollapseSpaces(l);
      CollapseSpacesShape(l);
      assert CollapseSpaces(s) == [' '] + t;
      ConsSpacing(' ', t);
      assert s == w + l;
      LStripSpaces(s);
      VisibleConcat(w, l);
      VisibleAllSpace(w);
      VisibleConcat([' '], t);
    } else {
      var t := CollapseSpaces(s[1..]);
      CollapseSpacesShape(s[1..]);
      assert CollapseSpaces(s) == [s[0]] + t;
      ConsSpacing(s[0], t);
      VisibleConcat([s[0]], t);
      VisibleConcat([s[0]], s[1..]);
      assert s == [s[0]] + s[1..];
    }
  }

  /** A slice of collapsed text is collapsed. */
  lemma SliceKeepsSpacing(c: string, i: int, j: int)
    requires 0 <= i <= j <= |c|
    requires NoDoubleSpace(c) && OnlyPlainSpaces(c)
    ensures NoDoubleSpace(c[i..j]) && OnlyPlainSpaces(c[i..j])
  {
    var r := c[i..j];
    forall k | 0 <= k < |r| - 1 ensures !(IsSpace(r[k]) && IsSpace(r[k + 1])) {
      assert r[k] == c[i + k] && r[k + 1] == c[i + k + 1];
    }
    forall k | 0 <= k < |r| && IsSpace(r[k]) ensures r[k] == ' ' {
      assert r[k] == c[i + k];
    }
  }

  /** Dropping whitespace from both ends keeps the visible characters. */
  lemma VisibleInner(c: string, i: nat, j: nat)
    requires i <= j <= |c|
    requires AllSpace(c[..i]) && AllSpace(c[j..])
    ensures Visible(c[i..j]) == Visible(c)
  {
    var a, m, z := c[..i], c[i..j], c[j..];
    assert c == a + m + z;
    VisibleConcat(a + m, z);
    VisibleConcat(a, m);
    VisibleAllSpace(a);
    VisibleAllSpace(z);
    assert Visible(c) == Visible(a) + Visible(m) + Visible(z);
  }

  /** Stripping a collapsed string keeps it collapsed and loses only whitespace. */
  lemma StripCollapsed(c: string)
    requires NoDoubleSpace(c) && OnlyPlainSpaces(c)
    ensures NoDoubleSpace(Strip(c)) && OnlyPlainSpaces(Strip(c))
    ensures Visible(Strip(c)) == Visible(c)
  {
    var r := Strip(c);
    var i, j :| 0 <= i <= j <= |c| && r == c[i..j] && AllSpace(c[..i]) && AllSpace(c[j..]);
    VisibleInner(c, i, j);
    SliceKeepsSpacing(c, i, j);
  }

  /** `_clean_text` returns "" for empty input; otherwise its result has no
      whitespace at either end, never two whitespace characters in a row, only
      plain spaces as whitespace, and exactly the visible characters of the
      unescaped, tag-stripped text in their original order. */
  lemma CleanShape(s: string, unescape: string -> string)
    ensures s == [] ==> Clean(s, unescape) == []
    ensures var r := Clean(s, unescape);
      && (r == [] || (!IsSpace(r[0]) && !IsSpace(r[|r| - 1])))
      && NoDoubleSpace(r)
      && OnlyPlainSpaces(r)
      && (s != [] ==> Visible(r) == Visible(StripTags(unescape(s))))
  {
    if s != [] {
      var x := StripTags(unescape(s));
      var c := CollapseSpaces(x);
      CollapseSpacesShape(x);
      StripCollapsed(c);
      assert Clean(s, unescape) == Strip(c);
    }
  }
}
