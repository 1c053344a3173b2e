/** `str(c).strip()` on column labels, the only label cleaning `app.py` does. */
module HeaderStrip {
  import opened Tables

  /**
   * Python's `str.isspace()`: tab to carriage return, the separators U+001C to
   * U+001F, the space, U+0085, the no-break space and the Unicode space separators.
   */
  predicate IsSpace(c: char) {
    || ('\t' <= c <= '\r') || ('\U{1C}' <= c <= '\U{1F}') || c == ' '
    || c == '\U{85}' || c == '\U{A0}' || c == '\U{1680}' || ('\U{2000}' <= c <= '\U{200A}')
    || c == '\U{2028}' || c == '\U{2029}' || c == '\U{202F}' || c == '\U{205F}' || c == '\U{3000}'
  }

  function StripLeft(s: string): (r: string)
    ensures |r| <= |s| && r == s[|s| - |r|..]
    ensures r == [] || !IsSpace(r[0])
    ensures forall k :: 0 <= k < |s| - |r| ==> IsSpace(s[k])
  {
    if s != [] && IsSpace(s[0]) then StripLeft(s[1..]) else s
  }

  function StripRight(s: string): (r: string)
    ensures |r| <= |s| && r == s[..|r|]
    ensures r == [] || !IsSpace(r[|r| - 1])
    ensures forall k :: |r| <= k < |s| ==> IsSpace(s[k])
  {
    if s != [] && IsSpace(s[|s| - 1]) then StripRight(s[..|s| - 1]) else s
  }

  /** `str(c).strip()`: the label without its leading and trailing whitespace. */
  function Strip(s: string): (r: string)
    ensures r == [] || (!IsSpace(r[0]) && !IsSpace(r[|r| - 1]))
    ensures |r| <= |StripLeft(s)| && r == StripLeft(s)[..|r|]
  {
    var a := StripLeft(s);
    var r := StripRight(a);
    assert r != [] ==> r[0] == a[0];
    r
  }

  /** What `Strip` keeps is a contiguous part of the label. */
  lemma StripSlice(s: string)
    ensures var i := |s| - |StripLeft(s)|;
      i + |Strip(s)| <= |s| && Strip(s) == s[i..i + |Strip(s)|]
  {
    var a := StripLeft(s);
    var i := |s| - |a|;
    var r := Strip(s);
    assert r == a[..|r|];
    assert a == s[i..];
  }

  /** Only whitespace is removed, and what remains is a contiguous part of the label. */
  lemma StripRemovesOnlySpace(s: string, k: nat)
    requires k < |s|
    ensures var i := |s| - |StripLeft(s)|;
      && i + |Strip(s)| <= |s| && Strip(s) == s[i..i + |Strip(s)|]
      && (k < i || i + |Strip(s)| <= k ==> IsSpace(s[k]))
  {
    StripSlice(s);
    var a := StripLeft(s);
    var i := |s| - |a|;
    var r := Strip(s);
    assert r == StripRight(a);
    if i + |r| <= k {
      assert a == s[i..];
      assert s[k] == a[k - i];
      assert IsSpace(a[k - i]);
    }
  }

  /** `df.columns = [str(c).strip() for c in df.columns]`. */
  function StripHeader(t: Table): (r: Table)
    ensures |r.header| == |t.header|
    ensures forall i :: 0 <= i < |t.header| ==> r.header[i] == Strip(t.header[i])
    ensures r.columns == t.columns && r.rows == t.rows
    ensures WellFormed(t) ==> WellFormed(r)
  {
    t.(header := seq(|t.header|, i requires 0 <= i < |t.header| => Strip(t.header[i])))
  }
}
