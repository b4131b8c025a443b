/** The few operations of Go's `strings` package that the transport relies on,
    over strings of Unicode code points. */
module Text {

  /** `unicode.IsSpace`: the Latin-1 spaces '\t', '\n', '\v', '\f', '\r', ' ',
      U+0085 and U+00A0, and the other characters of Unicode's White_Space
      property. */
  predicate IsSpace(c: char) {
    || c == '\t' || c == '\n' || c == '\U{0B}' || c == '\U{0C}' || c == '\r' || c == ' '
    || c == '\U{85}' || c == '\U{A0}' || c == '\U{1680}'
    || ('\U{2000}' <= c <= '\U{200A}')
    || c == '\U{2028}' || c == '\U{2029}' || c == '\U{202F}' || c == '\U{205F}' || c == '\U{3000}'
  }

  /** The characters `strings.TrimRight(line, "\r\n")` removes. */
  predicate IsLineEnd(c: char) {
    c == '\r' || c == '\n'
  }

  predicate HasPrefix(s: string, prefix: string) {
    |prefix| <= |s| && s[..|prefix|] == prefix
  }

  /** `strings.TrimPrefix` on a string known to carry the prefix. */
  function TrimPrefix(s: string, prefix: string): (r: string)
    requires HasPrefix(s, prefix)
    ensures prefix + r == s
  {
    s[|prefix|..]
  }

  /** Drops every leading space. */
  function TrimLeftSpace(s: string): (r: string)
    ensures |r| <= |s| && r == s[|s| - |r|..]
    ensures r == [] || !IsSpace(r[0])
    ensures forall k :: 0 <= k < |s| - |r| ==> IsSpace(s[k])
  {
    if s != [] && IsSpace(s[0]) then TrimLeftSpace(s[1..]) else s
  }

  /** Drops every trailing space. */
  function TrimRightSpace(s: string): (r: string)
    ensures |r| <= |s| && r == s[..|r|]
    ensures r == [] || !IsSpace(r[|r| - 1])
    ensures forall k :: |r| <= k < |s| ==> IsSpace(s[k])
  {
    if s != [] && IsSpace(s[|s| - 1]) then TrimRightSpace(s[..|s| - 1]) else s
  }

  /** Everything of `s` before `lo` and from `hi` on is space. */
  predicate SpacesOutside(s: string, lo: nat, hi: nat)
    requires lo <= hi <= |s|
  {
    && (forall k :: 0 <= k < lo ==> IsSpace(s[k]))
    && (forall k :: hi <= k < |s| ==> IsSpace(s[k]))
  }

  /** `r` is the part of `s` from index `i` on, with only spaces around it. */
  predicate InfixAt(s: string, r: string, i: nat) {
    i + |r| <= |s| && r == s[i..i + |r|] && SpacesOutside(s, i, i + |r|)
  }

  /** `strings.TrimSpace`: the infix of `s` that neither starts nor ends with a
      space and has only spaces around it. */
  function TrimSpace(s: string): (r: string)
    ensures IsTrimmed(r)
    ensures exists i :: InfixAt(s, r, i)
  {
    var l := TrimLeftSpace(s);
    var r := TrimRightSpace(l);
    TrimmedInfix(s);
    assert InfixAt(s, r, |s| - |l|);
    r
  }

  /** Trimming the left and then the right end leaves the infix that starts
      after the leading spaces. */
  lemma TrimmedInfix(s: string)
    ensures IsTrimmed(TrimRightSpace(TrimLeftSpace(s)))
    ensures InfixAt(s, TrimRightSpace(TrimLeftSpace(s)), |s| - |TrimLeftSpace(s)|)
  {
    var l := TrimLeftSpace(s);
    var r := TrimRightSpace(l);
    var i := |s| - |l|;
    assert l == s[i..];
    assert r == l[..|r|];
    forall k | i + |r| <= k < |s|
      ensures IsSpace(s[k])
    {
      assert s[k] == l[k - i];
    }
  }

  /** `strings.TrimRight(line, "\r\n")`: drops every trailing CR and LF. */
  function TrimLineEnd(s: string): (r: string)
    ensures |r| <= |s| && r == s[..|r|]
    ensures r == [] || !IsLineEnd(r[|r| - 1])
    ensures forall k :: |r| <= k < |s| ==> IsLineEnd(s[k])
  {
    if s != [] && IsLineEnd(s[|s| - 1]) then TrimLineEnd(s[..|s| - 1]) else s
  }

  /** A string with no space at either end. */
  predicate IsTrimmed(s: string) {
    s == [] || (!IsSpace(s[0]) && !IsSpace(s[|s| - 1]))
  }

  /** A string that is already trimmed is left as it is. */
  lemma TrimSpaceOfTrimmed(s: string)
    requires IsTrimmed(s)
    ensures TrimSpace(s) == s
  {
  }
}
