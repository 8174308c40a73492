/** JavaScript's `String.prototype.trim`, which every form guard applies
    before comparing a field with the empty string. */
module Text {

  /** ECMAScript WhiteSpace and LineTerminator code points: the characters
      `trim` removes from both ends. */
  predicate IsWhitespace(c: char)
  {
    c == '\t' || c == '\n' || c == '\U{000B}' || c == '\U{000C}' || c == '\r' || c == ' '
    || c == '\U{00A0}' || c == '\U{1680}' || ('\U{2000}' <= c <= '\U{200A}')
    || c == '\U{2028}' || c == '\U{2029}' || c == '\U{202F}' || c == '\U{205F}'
    || c == '\U{3000}' || c == '\U{FEFF}'
  }

  /** A field the user left empty or filled with spaces only. */
  predicate IsBlank(s: string)
  {
    forall i :: 0 <= i < |s| ==> IsWhitespace(s[i])
  }

  /** Drops the leading whitespace: the result is the suffix of `s` that
      starts at its first non-whitespace character. */
  function TrimStart(s: string): (r: string)
    ensures |r| <= |s| && r == s[|s| - |r|..]
    ensures r == [] || !IsWhitespace(r[0])
    ensures IsBlank(s[..|s| - |r|])
  {
    if s != [] && IsWhitespace(s[0]) then TrimStart(s[1..]) else s
  }

  /** Drops the trailing whitespace: the result is the prefix of `s` that
      ends at its last non-whitespace character. */
  function TrimEnd(s: string): (r: string)
    ensures |r| <= |s| && r == s[..|r|]
    ensures r == [] || !IsWhitespace(r[|r| - 1])
    ensures IsBlank(s[|r|..])
  {
    if s != [] && IsWhitespace(s[|s| - 1]) then TrimEnd(s[..|s| - 1]) else s
  }

  /** `s.trim()`: no whitespace is left at either end of the result. */
  function Trim(s: string): (r: string)
    ensures |r| <= |s|
    ensures r == [] || (!IsWhitespace(r[0]) && !IsWhitespace(r[|r| - 1]))
  {
    TrimEnd(TrimStart(s))
  }

  /** `trim` cuts whitespace off the two ends and changes nothing else:
      `s` is a blank head, then `s.trim()`, then a blank tail. */
  lemma TrimCutsBlankEnds(s: string)
    ensures exists head, tail :: s == head + Trim(s) + tail && IsBlank(head) && IsBlank(tail)
  {
    var t := TrimStart(s);
    JoinThree(s, TrimStartCut(s), t, Trim(s), TrimEndCut(t));
  }

  /** Cutting `s` into a head and `t`, and `t` into `r` and a tail, cuts
      `s` into head, `r` and tail. */
  lemma JoinThree(s: string, head: string, t: string, r: string, tail: string)
    requires s == head + t && t == r + tail
    ensures s == head + r + tail
  {
  }

  /** The whitespace `TrimStart` drops: `s` is it followed by the result. */
  function TrimStartCut(s: string): (pre: string)
    ensures s == pre + TrimStart(s) && IsBlank(pre)
  {
    var pre := s[..|s| - |TrimStart(s)|];
    assert s == pre + s[|pre|..];
    pre
  }

  /** The whitespace `TrimEnd` drops: `s` is the result followed by it. */
  function TrimEndCut(s: string): (post: string)
    ensures s == TrimEnd(s) + post && IsBlank(post)
  {
    var post := s[|TrimEnd(s)|..];
    assert s == s[..|TrimEnd(s)|] + post;
    post
  }

  /** `s.trim() === ''` holds exactly for blank strings: the form guards
      reject a field precisely when it has no visible character. */
  lemma TrimEmptyIffBlank(s: string)
    ensures Trim(s) == [] <==> IsBlank(s)
  {
  }
}
