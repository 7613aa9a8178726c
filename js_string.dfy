/** The part of JavaScript's string semantics the component relies on:
    `String.prototype.trim` and the truthiness of its result. */
module JsString {

  /** The code points `trim` removes: the WhiteSpace and LineTerminator
      productions of ECMAScript (sections 12.2 and 12.3 of ECMA-262),
      where WhiteSpace includes every Unicode "Space_Separator" (Zs). */
  predicate IsJsWhitespace(c: char) {
    c == '\t' || c == '\n' || c == '\U{000B}' || c == '\U{000C}' || c == '\r'
    || c == ' ' || c == '\U{00A0}' || c == '\U{1680}'
    || ('\U{2000}' <= c <= '\U{200A}')
    || c == '\U{2028}' || c == '\U{2029}' || c == '\U{202F}' || c == '\U{205F}'
    || c == '\U{3000}' || c == '\U{FEFF}'
  }

  /** Every character of `s` is whitespace (the empty string included). */
  predicate IsBlank(s: string) {
    s == [] || (IsJsWhitespace(s[0]) && IsBlank(s[1..]))
  }

  /** Blankness read from the other end: a non-empty string is blank
      exactly when its last character is whitespace and the rest is blank. */
  lemma {:induction false} BlankFromEnd(s: string)
    requires s != []
    ensures IsBlank(s) <==> IsJsWhitespace(s[|s| - 1]) && IsBlank(s[..|s| - 1])
    decreases |s|
  {
    if |s| > 1 {
      BlankFromEnd(s[1..]);
      assert s[1..][..|s[1..]| - 1] == s[..|s| - 1][1..];
    }
  }

  /** Drops leading whitespace: the result is a suffix of `s` and what was
      dropped is all whitespace; it is empty exactly when `s` is blank, and
      otherwise starts with a character that is not whitespace. */
  function TrimStart(s: string): (r: string)
    ensures |r| <= |s| && r == s[|s| - |r|..]
    ensures IsBlank(s[..|s| - |r|])
    ensures r == [] <==> IsBlank(s)
    ensures r != [] ==> !IsJsWhitespace(r[0])
  {
    if s != [] && IsJsWhitespace(s[0]) then
      var r := TrimStart(s[1..]);
      var dropped := s[..|s| - |r|];
      assert dropped[0] == s[0] && dropped[1..] == s[1..][..|s[1..]| - |r|];
      r
    else s
  }

  /** Drops trailing whitespace: the result is a prefix of `s` and what was
      dropped is all whitespace; it is empty exactly when `s` is blank, and
      otherwise ends with a character that is not whitespace. */
  function TrimEnd(s: string): (r: string)
    ensures |r| <= |s| && r == s[..|r|]
    ensures IsBlank(s[|r|..])
    ensures r == [] <==> IsBlank(s)
    ensures r != [] ==> !IsJsWhitespace(r[|r| - 1])
  {
    if s == [] then s
    else
      BlankFromEnd(s);
      if IsJsWhitespace(s[|s| - 1]) then
        var r := TrimEnd(s[..|s| - 1]);
        BlankFromEnd(s[|r|..]);
        assert s[|r|..][..|s[|r|..]| - 1] == s[..|s| - 1][|r|..];
        r
      else s
  }

  /** `s.trim()`: the result is empty exactly when `s` is blank, and a
      non-empty result neither starts nor ends with whitespace. */
  function Trim(s: string): (r: string)
    ensures r == [] <==> IsBlank(s)
    ensures r != [] ==> !IsJsWhitespace(r[0]) && !IsJsWhitespace(r[|r| - 1])
  {
    var front := TrimStart(s);
    assert front != [] ==> !IsBlank(front);
    TrimEnd(front)
  }

  /** `s.trim()` is `s` with only the whitespace around it removed: a
      contiguous piece of `s` with nothing but whitespace before and after. */
  lemma TrimRemovesOnlyWhitespace(s: string)
    ensures exists i, j | 0 <= i <= j <= |s| :: Trim(s) == s[i..j] && IsBlank(s[..i]) && IsBlank(s[j..])
  {
    var front := TrimStart(s);
    var r := Trim(s);
    var i := |s| - |front|;
    assert s[i..i + |r|] == r;
    assert s[i + |r|..] == front[|r|..];
  }
}
