/** `String.prototype.trim` as ECMAScript defines it: strip the white space and
    line terminators at both ends. */
module JsText {

  /** ECMAScript's WhiteSpace and LineTerminator code points. */
  predicate IsWhiteSpace(c: char)
  {
    var n := c as int;
    (0x09 <= n <= 0x0D) || n == 0x20 || n == 0xA0 || n == 0x1680
    || (0x2000 <= n <= 0x200A) || n == 0x2028 || n == 0x2029
    || n == 0x202F || n == 0x205F || n == 0x3000 || n == 0xFEFF
  }

  /** Every character of `s` at a position in [lo, hi) is white space. */
  ghost predicate WhiteSpaceBetween(s: string, lo: int, hi: int)
  {
    forall i :: lo <= i < hi && 0 <= i < |s| ==> IsWhiteSpace(s[i])
  }

  function TrimStart(s: string): (r: string)
    ensures |r| <= |s| && r == s[|s| - |r|..]
    ensures WhiteSpaceBetween(s, 0, |s| - |r|)
    ensures r == "" || !IsWhiteSpace(r[0])
  {
    if s != "" && IsWhiteSpace(s[0]) then TrimStart(s[1..]) else s
  }

  function TrimEnd(s: string): (r: string)
    ensures |r| <= |s| && r == s[..|r|]
    ensures WhiteSpaceBetween(s, |r|, |s|)
    ensures r == "" || !IsWhiteSpace(r[|r| - 1])
  {
    if s != "" && IsWhiteSpace(s[|s| - 1]) then TrimEnd(s[..|s| - 1]) else s
  }

  /** The trimmed text is the one slice of `s` with white space only outside
      it and no white space at either of its ends; it is empty exactly when
      `s` is all white space. */
  function Trim(s: string): (r: string)
    ensures |r| <= |s|
    ensures var lo := |s| - |TrimStart(s)|;
      lo + |r| <= |s| && r == s[lo..lo + |r|]
      && WhiteSpaceBetween(s, 0, lo) && WhiteSpaceBetween(s, lo + |r|, |s|)
    ensures r == "" || (!IsWhiteSpace(r[0]) && !IsWhiteSpace(r[|r| - 1]))
    ensures r == "" <==> WhiteSpaceBetween(s, 0, |s|)
  {
    TrimSpec(s);
    TrimEnd(TrimStart(s))
  }

  lemma TrimSpec(s: string)
    ensures var r := TrimEnd(TrimStart(s)); var lo := |s| - |TrimStart(s)|;
      && lo + |r| <= |s| && r == s[lo..lo + |r|]
      && WhiteSpaceBetween(s, 0, lo) && WhiteSpaceBetween(s, lo + |r|, |s|)
      && (r == "" || (!IsWhiteSpace(r[0]) && !IsWhiteSpace(r[|r| - 1])))
      && (r == "" <==> WhiteSpaceBetween(s, 0, |s|))
  {
    TrimSlice(s);
    TrimTail(s);
    TrimEmpty(s);
    TrimEnds(s);
  }

  lemma TrimEnds(s: string)
    ensures var r := TrimEnd(TrimStart(s));
      r == "" || (!IsWhiteSpace(r[0]) && !IsWhiteSpace(r[|r| - 1]))
  {
  }

  lemma TrimSlice(s: string)
    ensures var t := TrimStart(s); var r := TrimEnd(t); var lo := |s| - |t|;
      lo + |r| <= |s| && r == s[lo..lo + |r|]
  {
  }

  lemma TrimTail(s: string)
    ensures var t := TrimStart(s); var r := TrimEnd(t); var lo := |s| - |t|;
      lo + |r| <= |s| && WhiteSpaceBetween(s, lo + |r|, |s|)
  {
  }

  lemma TrimEmpty(s: string)
    ensures TrimEnd(TrimStart(s)) == "" <==> WhiteSpaceBetween(s, 0, |s|)
  {
  }

  /** Trimming twice is trimming once. */
  lemma TrimIdempotent(s: string)
    ensures Trim(Trim(s)) == Trim(s)
  {
  }
}
