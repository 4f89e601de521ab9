/**
 * The two JavaScript string built-ins the contact form relies on: the
 * whitespace set shared by `String.prototype.trim` and the regular-expression
 * class `\s`, and `trim` itself.
 */
module JsString {

  /** WhiteSpace or LineTerminator code point (ECMAScript 2023, sections 12.2
      and 12.3): TAB, VT, FF, SP, NBSP, ZWNBSP, the other Zs space separators,
      LF, CR, LS and PS. `trim` strips exactly these, and `\s` matches exactly
      these, so `\S` matches every other character. */
  predicate IsWhitespace(c: char) {
    var n := c as int;
    || n == 0x0009 || n == 0x000A || n == 0x000B || n == 0x000C || n == 0x000D
    || n == 0x0020 || n == 0x00A0 || n == 0x1680
    || (0x2000 <= n <= 0x200A)
    || n == 0x2028 || n == 0x2029 || n == 0x202F || n == 0x205F
    || n == 0x3000 || n == 0xFEFF
  }

  /** Every character of `s` is whitespace (vacuously true of ""). */
  ghost predicate AllWhitespace(s: string) {
    forall i :: 0 <= i < |s| ==> IsWhitespace(s[i])
  }

  /** Drops the leading whitespace. */
  function TrimStart(s: string): string {
    if |s| > 0 && IsWhitespace(s[0]) then TrimStart(s[1..]) else s
  }

  /** Drops the trailing whitespace. */
  function TrimEnd(s: string): string {
    if |s| > 0 && IsWhitespace(s[|s| - 1]) then TrimEnd(s[..|s| - 1]) else s
  }

  /** `TrimStart` keeps the suffix of `s` that starts at its first
      non-whitespace character. */
  lemma {:induction false} TrimStartKeepsSuffix(s: string)
    ensures |TrimStart(s)| <= |s| && TrimStart(s) == s[|s| - |TrimStart(s)|..]
    ensures forall i :: 0 <= i < |s| - |TrimStart(s)| ==> IsWhitespace(s[i])
    ensures TrimStart(s) != [] ==> !IsWhitespace(TrimStart(s)[0])
  {
    if |s| > 0 && IsWhitespace(s[0]) {
      var rest := s[1..];
      TrimStartKeepsSuffix(rest);
      var r := TrimStart(rest);
      assert TrimStart(s) == r;
      assert rest[|rest| - |r|..] == s[|s| - |r|..];
      forall i | 0 <= i < |s| - |r| ensures IsWhitespace(s[i]) {
        if i > 0 { assert s[i] == rest[i - 1]; }
      }
    }
  }

  /** `TrimEnd` keeps the prefix of `s` that ends at its last non-whitespace
      character. */
  lemma {:induction false} TrimEndKeepsPrefix(s: string)
    ensures |TrimEnd(s)| <= |s| && TrimEnd(s) == s[..|TrimEnd(s)|]
    ensures forall i :: |TrimEnd(s)| <= i < |s| ==> IsWhitespace(s[i])
    ensures TrimEnd(s) != [] ==> !IsWhitespace(TrimEnd(s)[|TrimEnd(s)| - 1])
  {
    if |s| > 0 && IsWhitespace(s[|s| - 1]) {
      var rest := s[..|s| - 1];
      TrimEndKeepsPrefix(rest);
      var r := TrimEnd(rest);
      assert TrimEnd(s) == r;
      assert rest[..|r|] == s[..|r|];
      forall i | |r| <= i < |s| ensures IsWhitespace(s[i]) {
        if i < |s| - 1 { assert s[i] == rest[i]; }
      }
    }
  }

  /** `s.trim()`: the result is empty exactly when `s` is all whitespace, and
      otherwise neither starts nor ends with whitespace. `TrimIsSlice` says
      which part of `s` it is. */
  function Trim(s: string): (r: string)
    ensures |r| <= |s|
    ensures r == [] <==> AllWhitespace(s)
    ensures r != [] ==> !IsWhitespace(r[0]) && !IsWhitespace(r[|r| - 1])
  {
    var t := TrimStart(s);
    var r := TrimEnd(t);
    TrimStartKeepsSuffix(s);
    TrimEndKeepsPrefix(t);
    // the first character `TrimStart` keeps is a non-whitespace one of `s`
    assert t != [] ==> !IsWhitespace(s[|s| - |t|]);
    assert r == [] ==> t == [];
    r
  }

  /** `s.trim()` is the slice of `s` left once the whitespace at both ends is
      removed. */
  lemma TrimIsSlice(s: string)
    ensures exists a, b :: 0 <= a <= b <= |s| && Trim(s) == s[a..b]
                           && AllWhitespace(s[..a]) && AllWhitespace(s[b..])
  {
    var t := TrimStart(s);
    var r := TrimEnd(t);
    TrimStartKeepsSuffix(s);
    TrimEndKeepsPrefix(t);
    var a := |s| - |t|;
    var b := a + |r|;
    assert Trim(s) == r == s[a..b];
    assert AllWhitespace(s[..a]);
    assert AllWhitespace(s[b..]) by {
      forall i | 0 <= i < |s| - b ensures IsWhitespace(s[b..][i]) {
        assert s[b..][i] == t[|r| + i];
      }
    }
  }

  /** `!s.trim()`: JavaScript's empty string is falsy. */
  predicate IsBlank(s: string) {
    Trim(s) == []
  }
}
