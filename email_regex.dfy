/**
 * The email check `/\S+@\S+\.\S+/.test(email)`. `test` searches: it succeeds
 * when SOME substring of the input is matched by the pattern, not only when
 * the whole input is.
 */
module EmailRegex {
  import opened JsString

  /** `s[lo..hi]` is matched by `\S+`: non-empty, with no whitespace. */
  ghost predicate NonWhitespaceRun(s: string, lo: int, hi: int) {
    0 <= lo < hi <= |s| && forall m :: lo <= m < hi ==> !IsWhitespace(s[m])
  }

  /** `s[i..l]` is matched by `\S+@\S+\.\S+` with the `@` at index `j` and
      the escaped `.` at index `k`. */
  ghost predicate MatchAt(s: string, i: int, j: int, k: int, l: int) {
    && NonWhitespaceRun(s, i, j) && j < |s| && s[j] == '@'
    && NonWhitespaceRun(s, j + 1, k) && k < |s| && s[k] == '.'
    && NonWhitespaceRun(s, k + 1, l)
  }

  /** What the regular expression means: some substring matches. */
  ghost predicate Matches(s: string) {
    exists i, j, k, l :: MatchAt(s, i, j, k, l)
  }

  /** The search `test` performs. A `\S+` run only needs one character next
      to a fixed symbol, so it is enough to find an `@` with a non-whitespace
      character before it, a later `.` with a non-whitespace character after
      it, at least one character between them and no whitespace between them.
      `TestIsSearch` proves this equals `Matches`. */
  predicate Test(s: string) {
    exists j, k | 0 < j < |s| && j + 1 < k < |s| - 1 :: AtThenDot(s, j, k)
  }

  /** An `@` at `j` and a `.` at `k` that a match can be built around. */
  predicate AtThenDot(s: string, j: int, k: int)
    requires 0 < j && j + 1 < k < |s| - 1
  {
    && s[j] == '@' && s[k] == '.'
    && !IsWhitespace(s[j - 1]) && !IsWhitespace(s[k + 1])
    && forall m | j < m < k :: !IsWhitespace(s[m])
  }

  lemma TestIsSearch(s: string)
    ensures Test(s) <==> Matches(s)
  {
    if Test(s) {
      var j, k :| 0 < j < |s| && j + 1 < k < |s| - 1 && AtThenDot(s, j, k);
      assert MatchAt(s, j - 1, j, k, k + 2);
    }
    if Matches(s) {
      var i, j, k, l :| MatchAt(s, i, j, k, l);
      assert !IsWhitespace(s[j - 1]);
      assert !IsWhitespace(s[k + 1]);
      assert AtThenDot(s, j, k);
    }
  }

  /** A string the pattern accepts contains a non-whitespace character (its
      `@`), so the "required" check and the pattern check never both apply. */
  lemma MatchesIsNotBlank(s: string)
    requires Matches(s)
    ensures !AllWhitespace(s)
  {
    var i, j, k, l :| MatchAt(s, i, j, k, l);
    assert !IsWhitespace(s[j]);
  }

  /** The check is a search: text before or after an accepted string
      (spaces included) never makes it rejected. */
  lemma {:induction false} MatchesExtends(p: string, s: string, q: string)
    requires Matches(s)
    ensures Matches(p + s + q)
  {
    var i, j, k, l :| MatchAt(s, i, j, k, l);
    var t := p + s + q;
    assert forall m :: 0 <= m < |s| ==> t[|p| + m] == s[m];
    assert MatchAt(t, |p| + i, |p| + j, |p| + k, |p| + l);
  }

  /** Without an `@` nothing matches. */
  lemma NoAtNoMatch(s: string)
    requires '@' !in s
    ensures !Matches(s)
  {
    forall j | 0 <= j < |s| ensures s[j] != '@' {
      assert s[j] in s;
    }
  }
}
