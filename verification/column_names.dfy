/**
 * `clean_col_name` and `normalize_cols`: the column-label canonicaliser, a fixed
 * pipeline of whole-string rewrites.
 *
 * Character classes follow Python's `re` and `str` over ASCII. Compatibility
 * normalisation (NFKC) is the identity here, and every non-ASCII character
 * counts as a non-word character that lower-casing leaves alone.
 */
module ColumnNames {
  import opened Tables

  predicate IsAscii(s: string) {
    forall i :: 0 <= i < |s| ==> s[i] < '\U{80}'
  }

  /** Step 1: `unicodedata.normalize('NFKC', s)`, the identity in this model. */
  function Nfkc(s: string): (r: string)
    ensures IsAscii(s) ==> r == s
  {
    s
  }

  /** The class `[\x00-\x1f\x7f-\x9f﻿]` that step 2 deletes. */
  predicate IsControl(c: char) {
    c <= '\U{1F}' || ('\U{7F}' <= c <= '\U{9F}') || c == '\U{FEFF}'
  }

  /** Step 2: delete control and byte-order-mark characters. */
  function StripControl(s: string): (r: string)
    ensures |r| <= |s|
    ensures forall i :: 0 <= i < |r| ==> !IsControl(r[i])
  {
    if s == [] then []
    else if IsControl(s[0]) then StripControl(s[1..])
    else [s[0]] + StripControl(s[1..])
  }

  /** Step 3 on one character: curly double quotes, the right single quote and en/em dashes to ASCII. */
  function Typographic(c: char): char {
    if c == '\U{201C}' || c == '\U{201D}' then '"'
    else if c == '\U{2019}' then '\''
    else if c == '\U{2013}' || c == '\U{2014}' then '-'
    else c
  }

  function AsciiPunctuation(s: string): (r: string)
    ensures |r| == |s| && forall i :: 0 <= i < |s| ==> r[i] == Typographic(s[i])
  {
    seq(|s|, i requires 0 <= i < |s| => Typographic(s[i]))
  }

  /** Python's `\w` restricted to ASCII: letters, digits and the underscore. */
  predicate IsWordChar(c: char) {
    ('a' <= c <= 'z') || ('A' <= c <= 'Z') || ('0' <= c <= '9') || c == '_'
  }

  predicate AllWord(s: string) {
    forall i :: 0 <= i < |s| ==> IsWordChar(s[i])
  }

  /** Step 4: `re.sub(r'[^\w]', '_', s)`. */
  function Underscored(s: string): (r: string)
    ensures |r| == |s|
    ensures forall i :: 0 <= i < |s| ==> r[i] == (if IsWordChar(s[i]) then s[i] else '_')
    ensures AllWord(r)
  {
    seq(|s|, i requires 0 <= i < |s| => if IsWordChar(s[i]) then s[i] else '_')
  }

  /** No two adjacent underscores. */
  predicate NoDoubleUnderscore(s: string) {
    forall i :: 0 <= i < |s| - 1 ==> !(s[i] == '_' && s[i + 1] == '_')
  }

  /** The characters of `s` other than the underscore, in order. */
  function NonUnderscores(s: string): (r: string)
    ensures '_' !in r
  {
    if s == [] then [] else (if s[0] == '_' then [] else [s[0]]) + NonUnderscores(s[1..])
  }

  /** Step 5: `re.sub(r'__+', '_', s)`, every run of underscores becomes one. */
  function Collapse(s: string): (r: string)
    ensures |r| <= |s|
    ensures NoDoubleUnderscore(r)
    ensures |s| > 0 ==> |r| > 0 && r[0] == s[0]
  {
    if |s| < 2 then s
    else if s[0] == '_' && s[1] == '_' then Collapse(s[1..])
    else
      var rest := Collapse(s[1..]);
      assert rest[0] == s[1];
      var r := [s[0]] + rest;
      assert forall i :: 1 <= i < |r| ==> r[i] == rest[i - 1];
      r
  }

  function TrimStart(s: string): (r: string)
    ensures r == [] || r[0] != '_'
    ensures |r| <= |s| && r == s[|s| - |r|..]
  {
    if s != [] && s[0] == '_' then TrimStart(s[1..]) else s
  }

  function TrimEnd(s: string): (r: string)
    ensures r == [] || r[|r| - 1] != '_'
    ensures |r| <= |s| && r == s[..|r|]
  {
    if s != [] && s[|s| - 1] == '_' then TrimEnd(s[..|s| - 1]) else s
  }

  /** Step 6: `s.strip('_')`. */
  function TrimUnderscores(s: string): (r: string)
    ensures |r| <= |s|
    ensures r == [] || (r[0] != '_' && r[|r| - 1] != '_')
    ensures NoDoubleUnderscore(s) ==> NoDoubleUnderscore(r)
    ensures AllWord(s) ==> AllWord(r)
  {
    var a := TrimStart(s);
    var r := TrimEnd(a);
    SliceKeepsNoDoubleUnderscore(s, |s| - |a|, |s| - |a| + |r|);
    assert r == s[|s| - |a|..|s| - |a| + |r|];
    r
  }

  function LowerChar(c: char): char {
    if 'A' <= c <= 'Z' then (c as int + 32) as char else c
  }

  /** Step 7: `s.lower()` on ASCII letters. */
  function Lower(s: string): (r: string)
    ensures |r| == |s| && forall i :: 0 <= i < |s| ==> r[i] == LowerChar(s[i])
    ensures forall i :: 0 <= i < |s| ==> (r[i] == '_' <==> s[i] == '_')
  {
    seq(|s|, i requires 0 <= i < |s| => LowerChar(s[i]))
  }

  /** Steps 1 to 4: after them only word characters remain. */
  function Prepared(s: string): (r: string)
    ensures |r| <= |s|
    ensures AllWord(r)
  {
    Underscored(AsciiPunctuation(StripControl(Nfkc(s))))
  }

  /** `clean_col_name(s)` for a label that is already a string. */
  function CleanColName(s: string): (r: string)
    ensures NoDoubleUnderscore(r)
    ensures r == [] || (r[0] != '_' && r[|r| - 1] != '_')
    ensures s == [] ==> r == []
  {
    var t := TrimUnderscores(Collapse(Prepared(s)));
    LowerKeepsUnderscores(t);
    Lower(t)
  }

  /** Lower-casing moves no underscore. */
  lemma LowerKeepsUnderscores(t: string)
    requires NoDoubleUnderscore(t)
    requires t == [] || (t[0] != '_' && t[|t| - 1] != '_')
    ensures NoDoubleUnderscore(Lower(t))
    ensures Lower(t) == [] || (Lower(t)[0] != '_' && Lower(t)[|t| - 1] != '_')
  {
  }

  lemma SliceKeepsNoDoubleUnderscore(s: string, i: nat, j: nat)
    requires i <= j <= |s|
    ensures NoDoubleUnderscore(s) ==> NoDoubleUnderscore(s[i..j])
    ensures AllWord(s) ==> AllWord(s[i..j])
  {
    if NoDoubleUnderscore(s) {
      forall k | 0 <= k < j - i - 1
        ensures !(s[i..j][k] == '_' && s[i..j][k + 1] == '_')
      {
        assert s[i..j][k] == s[i + k] && s[i..j][k + 1] == s[i + k + 1];
      }
    }
  }

  /** `normalize_cols(df)`: a copy of the table whose labels are cleaned one by one. */
  function NormalizeCols(t: Table): (r: Table)
    ensures |r.header| == |t.header|
    ensures forall i :: 0 <= i < |t.header| ==> r.header[i] == CleanColName(t.header[i])
    ensures r.columns == t.columns && r.rows == t.rows
    ensures WellFormed(t) ==> WellFormed(r)
  {
    t.(header := seq(|t.header|, i requires 0 <= i < |t.header| => CleanColName(t.header[i])))
  }
}

module ColumnNameLemmas {
  import opened ColumnNames

  predicate IsCanonicalChar(c: char) {
    ('a' <= c <= 'z') || ('0' <= c <= '9') || c == '_'
  }

  /** Letters and digits: the word characters other than the underscore. */
  function Alnums(s: string): (r: string)
    ensures '_' !in r
  {
    if s == [] then [] else (if IsWordChar(s[0]) && s[0] != '_' then [s[0]] else []) + Alnums(s[1..])
  }

  /**
   * Over ASCII input every character of the result is a lower-case letter, a
   * digit or `_`: non-word characters became `_` and letters were lower-cased.
   */
  lemma CleanCharset(s: string)
    requires IsAscii(s)
    ensures forall i :: 0 <= i < |CleanColName(s)| ==> IsCanonicalChar(CleanColName(s)[i])
  {
    CollapseAllWord(Prepared(s));
    var t := TrimUnderscores(Collapse(Prepared(s)));
    assert AllWord(t);
  }

lemma {:induction false} NonUnderscoresAppend(a: string, b: string)
    ensures NonUnderscores(a + b) == NonUnderscores(a) + NonUnderscores(b)
  {
    if a == [] {
      assert a + b == b;
    } else {
      var h := if a[0] == '_' then [] else [a[0]];
      assert (a + b)[0] == a[0];
      assert (a + b)[1..] == a[1..] + b;
      NonUnderscoresAppend(a[1..], b);
      calc {
        NonUnderscores(a + b);
        h + NonUnderscores(a[1..] + b);
        h + (NonUnderscores(a[1..]) + NonUnderscores(b));
        (h + NonUnderscores(a[1..])) + NonUnderscores(b);
      }
    }
  }

  lemma {:induction false} CollapseNonUnderscores(s: string)
    ensures NonUnderscores(Collapse(s)) == NonUnderscores(s)
  {
    if |s| >= 2 {
      CollapseNonUnderscores(s[1..]);
      if !(s[0] == '_' && s[1] == '_') {
        NonUnderscoresAppend([s[0]], Collapse(s[1..]));
        NonUnderscoresAppend([s[0]], s[1..]);
        assert s == [s[0]] + s[1..];
      }
    }
  }

  lemma {:induction false} CollapseAllWord(s: string)
    requires AllWord(s)
    ensures AllWord(Collapse(s))
  {
    if |s| >= 2 {
      CollapseAllWord(s[1..]);
    }
  }

  lemma {:induction false} TrimStartNonUnderscores(s: string)
    ensures NonUnderscores(TrimStart(s)) == NonUnderscores(s)
  {
    if s != [] && s[0] == '_' {
      TrimStartNonUnderscores(s[1..]);
    }
  }

  lemma {:induction false} TrimEndNonUnderscores(s: string)
    ensures NonUnderscores(TrimEnd(s)) == NonUnderscores(s)
  {
    if s != [] && s[|s| - 1] == '_' {
      var p := s[..|s| - 1];
      assert TrimEnd(s) == TrimEnd(p);
      TrimEndNonUnderscores(p);
      assert s == p + "_";
      NonUnderscoresAppend(p, "_");
      assert NonUnderscores("_") == [];
    }
  }

  lemma {:induction false} StripControlAppend(a: string, b: string)
    ensures StripControl(a + b) == StripControl(a) + StripControl(b)
  {
    if a == [] {
      assert a + b == b;
    } else {
      assert (a + b)[0] == a[0];
      assert (a + b)[1..] == a[1..] + b;
      StripControlAppend(a[1..], b);
    }
  }

  /**
   * A control or byte-order-mark character is deleted, not replaced: removing
   * it from the input does not change the result (so `"a\tb"` gives `"ab"`).
   */
  lemma {:induction false} ControlCharsDeleted(a: string, c: char, b: string)
    requires IsControl(c)
    ensures CleanColName(a + [c] + b) == CleanColName(a + b)
  {
    StripControlAppend(a + [c], b);
    StripControlAppend(a, [c]);
    StripControlAppend(a, b);
    assert StripControl([c]) == [];
    assert StripControl(a + [c] + b) == StripControl(a + b);
  }

  /** A control character between two letters or digits vanishes: `"a\tb"` gives `"ab"`, not `"a_b"`. */
  lemma ControlBetweenAlnums(x: char, c: char, y: char)
    requires IsCanonicalChar(x) && x != '_' && IsCanonicalChar(y) && y != '_'
    requires IsControl(c)
    ensures CleanColName([x, c, y]) == [x, y]
  {
    var t := [x, y];
    assert forall i :: 0 <= i < |t| ==> IsCanonicalChar(t[i]);
    assert NoDoubleUnderscore(t);
    CanonicalFixed(t);
    assert [x] + [c] + [y] == [x, c, y];
    assert [x] + [y] == t;
    ControlCharsDeleted([x], c, [y]);
  }

  lemma TabExample()
    ensures CleanColName("a\tb") == "ab"
  {
    ControlBetweenAlnums('a', '\t', 'b');
  }

  /**
   * The typographic-to-ASCII step does not affect the result: the curly forms
   * and their ASCII replacements are all non-word characters, which the next
   * step turns into `_` either way.
   */
  lemma TypographyIrrelevant(s: string)
    ensures CleanColName(s) == Lower(TrimUnderscores(Collapse(Underscored(StripControl(Nfkc(s))))))
  {
    UnderscoredIgnoresTypography(StripControl(Nfkc(s)));
  }

  lemma UnderscoredIgnoresTypography(t: string)
    ensures Underscored(AsciiPunctuation(t)) == Underscored(t)
  {
    var a := AsciiPunctuation(t);
    forall i | 0 <= i < |t|
      ensures Underscored(a)[i] == Underscored(t)[i]
    {
      assert IsWordChar(a[i]) <==> IsWordChar(t[i]);
    }
  }

  lemma {:induction false} NonUnderscoresLower(x: string)
    ensures NonUnderscores(Lower(x)) == Lower(NonUnderscores(x))
  {
    if x != [] {
      assert Lower(x)[1..] == Lower(x[1..]);
      NonUnderscoresLower(x[1..]);
      var h := if x[0] == '_' then [] else [x[0]];
      assert Lower(h + NonUnderscores(x[1..])) == Lower(h) + Lower(NonUnderscores(x[1..]));
    }
  }

  lemma {:induction false} NonUnderscoresOfUnderscored(x: string)
    ensures NonUnderscores(Underscored(AsciiPunctuation(x))) == Alnums(x)
  {
    if x != [] {
      var u := Underscored(AsciiPunctuation(x));
      assert u[1..] == Underscored(AsciiPunctuation(x[1..]));
      NonUnderscoresOfUnderscored(x[1..]);
    }
  }

  lemma {:induction false} AlnumsStripControl(s: string)
    ensures Alnums(StripControl(s)) == Alnums(s)
  {
    if s != [] {
      AlnumsStripControl(s[1..]);
      if !IsControl(s[0]) {
        assert ([s[0]] + StripControl(s[1..]))[1..] == StripControl(s[1..]);
      }
    }
  }

  /**
   * What the canonical name keeps: its characters other than `_` are exactly
   * the letters and digits of the raw label, in order, lower-cased.
   */
  lemma CleanKeepsAlnums(s: string)
    ensures NonUnderscores(CleanColName(s)) == Lower(Alnums(s))
  {
    var x := StripControl(Nfkc(s));
    NonUnderscoresOfUnderscored(x);
    AlnumsStripControl(s);
    CollapseNonUnderscores(Prepared(s));
    TrimStartNonUnderscores(Collapse(Prepared(s)));
    TrimEndNonUnderscores(TrimStart(Collapse(Prepared(s))));
    NonUnderscoresLower(TrimUnderscores(Collapse(Prepared(s))));
  }

  lemma {:induction false} StripControlNoop(t: string)
    requires forall i :: 0 <= i < |t| ==> !IsControl(t[i])
    ensures StripControl(t) == t
  {
    if t != [] {
      StripControlNoop(t[1..]);
    }
  }

  lemma {:induction false} CollapseNoop(t: string)
    requires NoDoubleUnderscore(t)
    ensures Collapse(t) == t
  {
    if |t| >= 2 {
      assert NoDoubleUnderscore(t[1..]) by {
        forall i | 0 <= i < |t[1..]| - 1 ensures !(t[1..][i] == '_' && t[1..][i + 1] == '_') {
          assert t[1..][i] == t[i + 1] && t[1..][i + 1] == t[i + 2];
        }
      }
      CollapseNoop(t[1..]);
      assert !(t[0] == '_' && t[1] == '_');
    }
  }

  /**
   * A name made of lower-case letters, digits and single inner underscores is
   * its own canonical form.
   */
  lemma CanonicalFixed(t: string)
    requires forall i :: 0 <= i < |t| ==> IsCanonicalChar(t[i])
    requires NoDoubleUnderscore(t)
    requires t == [] || (t[0] != '_' && t[|t| - 1] != '_')
    ensures CleanColName(t) == t
  {
    PreparedNoop(t);
    CollapseNoop(t);
    TrimNoop(t);
    LowerNoop(t);
  }

  lemma PreparedNoop(t: string)
    requires forall i :: 0 <= i < |t| ==> IsCanonicalChar(t[i])
    ensures Prepared(t) == t
  {
    StripControlNoop(t);
    assert AsciiPunctuation(t) == t;
    assert Underscored(t) == t;
  }

  lemma TrimNoop(t: string)
    requires t == [] || (t[0] != '_' && t[|t| - 1] != '_')
    ensures TrimUnderscores(t) == t
  {
    assert TrimStart(t) == t;
    assert TrimEnd(t) == t;
  }

  lemma LowerNoop(t: string)
    requires forall i :: 0 <= i < |t| ==> IsCanonicalChar(t[i])
    ensures Lower(t) == t
  {
  }

  /** A run of `n` underscores. */
  function Underscores(n: nat): (r: string)
    ensures |r| == n && forall i :: 0 <= i < n ==> r[i] == '_'
  {
    seq(n, _ => '_')
  }

  /**
   * Two adjacent underscores collapse as one does: together with `CollapseNoop`
   * this pins `re.sub(r'__+', '_', s)` down, a run becomes one `_` and not none.
   */
  lemma {:induction false} CollapseShortensRun(a: string, b: string)
    ensures Collapse(a + "__" + b) == Collapse(a + "_" + b)
  {
    var s, t := a + "__" + b, a + "_" + b;
    if a == [] {
      assert s[0] == '_' && s[1] == '_';
      assert s[1..] == t;
    } else {
      CollapseShortensRun(a[1..], b);
      assert s[1..] == a[1..] + "__" + b;
      assert t[1..] == a[1..] + "_" + b;
      assert s[0] == t[0] && s[1] == t[1];
    }
  }

  /** A run of one or more underscores collapses to a single one. */
  lemma {:induction false} CollapseRun(a: string, n: nat, b: string)
    requires n >= 1
    ensures Collapse(a + Underscores(n) + b) == Collapse(a + "_" + b)
  {
    if n == 1 {
      assert Underscores(1) == "_";
    } else {
      var rest := Underscores(n - 2) + b;
      assert a + Underscores(n) + b == a + "__" + rest;
      assert a + Underscores(n - 1) + b == a + "_" + rest;
      CollapseShortensRun(a, rest);
      CollapseRun(a, n - 1, b);
    }
  }

  /**
   * A gap of punctuation or spaces between two letters or digits becomes one
   * underscore, however long it is: `"first  name"` gives `"first_name"`.
   */
  lemma GapBetweenAlnums(x: char, gap: string, y: char)
    requires IsCanonicalChar(x) && x != '_' && IsCanonicalChar(y) && y != '_'
    requires |gap| >= 1 && forall i :: 0 <= i < |gap| ==> !IsWordChar(gap[i]) && !IsControl(gap[i])
    ensures CleanColName([x] + gap + [y]) == [x, '_', y]
  {
    PreparedGap(x, gap, y);
    CollapseGap(x, |gap|, y);
    var t := [x, '_', y];
    TrimNoop(t);
    LowerNoop(t);
  }

  lemma CollapseGap(x: char, n: nat, y: char)
    requires x != '_' && y != '_' && n >= 1
    ensures Collapse([x] + Underscores(n) + [y]) == [x, '_', y]
  {
    CollapseRun([x], n, [y]);
    var t := [x, '_', y];
    assert [x] + "_" + [y] == t;
    assert NoDoubleUnderscore(t);
    CollapseNoop(t);
  }

  /** Steps 1 to 4 on such a label: the gap becomes a run of underscores. */
  lemma PreparedGap(x: char, gap: string, y: char)
    requires IsCanonicalChar(x) && IsCanonicalChar(y)
    requires forall i :: 0 <= i < |gap| ==> !IsWordChar(gap[i]) && !IsControl(gap[i])
    ensures Prepared([x] + gap + [y]) == [x] + Underscores(|gap|) + [y]
  {
    var s := [x] + gap + [y];
    assert forall i :: 1 <= i < |s| - 1 ==> s[i] == gap[i - 1];
    StripControlNoop(s);
    UnderscoredIgnoresTypography(s);
  }

  lemma TwoSpacesBetweenAlnums(x: char, y: char)
    requires IsCanonicalChar(x) && x != '_' && IsCanonicalChar(y) && y != '_'
    ensures CleanColName([x, ' ', ' ', y]) == [x, '_', y]
  {
    var gap := [' ', ' '];
    assert forall i :: 0 <= i < |gap| ==> gap[i] == ' ';
    assert [x] + gap + [y] == [x, ' ', ' ', y];
    GapBetweenAlnums(x, gap, y);
  }

  lemma SpacedExample()
    ensures CleanColName("a  b") == "a_b"
  {
    TwoSpacesBetweenAlnums('a', 'b');
  }

  /** Over ASCII input, cleaning a cleaned name returns it unchanged. */
  lemma CleanIdempotent(s: string)
    requires IsAscii(s)
    ensures CleanColName(CleanColName(s)) == CleanColName(s)
  {
    CleanCharset(s);
    CanonicalFixed(CleanColName(s));
  }
}
