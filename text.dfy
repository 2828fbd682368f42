/**
 * The string predicates both halves of the system rely on: Python's `str.strip()`
 * (the backend's blank test) and JavaScript's `String.prototype.trim()` (the
 * browser's blank test), and Python's `str.startswith`.
 */
module Text {

  /** `str.isspace()` for one code point: the characters `str.strip()` with no argument removes. */
  predicate IsPythonSpace(c: char) {
    || ('\t' <= c <= '\r')
    || ('\U{1C}' <= c <= '\U{1F}')
    || c == ' '
    || c == '\U{85}'
    || c == '\U{A0}'
    || c == '\U{1680}'
    || ('\U{2000}' <= c <= '\U{200A}')
    || c == '\U{2028}'
    || c == '\U{2029}'
    || c == '\U{202F}'
    || c == '\U{205F}'
    || c == '\U{3000}'
  }

  /** ECMAScript WhiteSpace or LineTerminator: the characters `trim()` removes. */
  predicate IsJsSpace(c: char) {
    || ('\t' <= c <= '\r')
    || c == ' '
    || c == '\U{A0}'
    || c == '\U{1680}'
    || ('\U{2000}' <= c <= '\U{200A}')
    || c == '\U{2028}'
    || c == '\U{2029}'
    || c == '\U{202F}'
    || c == '\U{205F}'
    || c == '\U{3000}'
    || c == '\U{FEFF}'
  }

  /** Every character of `s` is one that `isSpace` accepts (the empty string included). */
  predicate IsBlank(s: string, isSpace: char -> bool) {
    forall i :: 0 <= i < |s| ==> isSpace(s[i])
  }

  /** `s` with its leading run of space characters removed. */
  function TrimStart(s: string, isSpace: char -> bool): (r: string)
    ensures |r| <= |s| && r == s[|s| - |r|..]
    ensures IsBlank(s[..|s| - |r|], isSpace)
    ensures r != [] ==> !isSpace(r[0])
  {
    if s != [] && isSpace(s[0]) then TrimStart(s[1..], isSpace) else s
  }

  /** `s` with its trailing run of space characters removed. */
  function TrimEnd(s: string, isSpace: char -> bool): (r: string)
    ensures |r| <= |s| && r == s[..|r|]
    ensures IsBlank(s[|r|..], isSpace)
    ensures r != [] ==> !isSpace(r[|r| - 1])
  {
    if s != [] && isSpace(s[|s| - 1]) then TrimEnd(s[..|s| - 1], isSpace) else s
  }

  /**
   * Both ends trimmed: `str.strip()` with IsPythonSpace, `trim()` with IsJsSpace.
   * The result is `s` without a blank prefix and a blank suffix, and neither starts
   * nor ends with a space.
   */
  function Trim(s: string, isSpace: char -> bool): (r: string)
    ensures |r| <= |s|
    ensures exists i {:trigger s[i..]} ::
      && 0 <= i <= |s| - |r|
      && r == s[i..][..|r|]
      && IsBlank(s[..i], isSpace)
      && IsBlank(s[i..][|r|..], isSpace)
    ensures r != [] ==> !isSpace(r[0]) && !isSpace(r[|r| - 1])
  {
    var t := TrimStart(s, isSpace);
    var r := TrimEnd(t, isSpace);
    var i := |s| - |t|;
    assert s[i..] == t;
    assert r == s[i..][..|r|];
    r
  }

  /** Trimming leaves nothing exactly when every character is a space: the truthiness of `s.strip()` and `s.trim()`. */
  lemma TrimEmptyIffBlank(s: string, isSpace: char -> bool)
    ensures Trim(s, isSpace) == [] <==> IsBlank(s, isSpace)
  {
    var t := TrimStart(s, isSpace);
    var r := TrimEnd(t, isSpace);
    assert Trim(s, isSpace) == r;
    if r == [] {
      // t is blank by TrimEnd, and does not start with a space by TrimStart, so it is empty.
      assert t[|r|..] == t;
      assert t == [];
      assert s == s[..|s| - |t|];
    } else {
      assert t != [] && t[0] == s[|s| - |t|];
      assert !isSpace(s[|s| - |t|]);
    }
  }

  /** Python's `s.startswith(prefix)`. */
  predicate StartsWith(s: string, prefix: string) {
    |prefix| <= |s| && s[..|prefix|] == prefix
  }
}
