/** The two JavaScript string tests the tour orchestrator relies on:
    `String.prototype.startsWith` for routing and `String.prototype.endsWith`
    for clearing stored progress. Strings are `seq<char>`, sequences of
    Unicode scalar values rather than JavaScript's UTF-16 code units. The
    two agree on these tests here, because every route stem and storage
    suffix is ASCII; only strings with lone surrogates have no counterpart.
    No normalisation or case folding takes place. */
module Strings {

  /** `s.startsWith(p)` */
  predicate StartsWith(s: string, p: string) {
    |p| <= |s| && s[..|p|] == p
  }

  /** `s.endsWith(x)` */
  predicate EndsWith(s: string, x: string) {
    |x| <= |s| && s[|s| - |x|..] == x
  }

  /** A string that starts with `p` agrees with `p` at every position of `p`. */
  lemma StartsWithAt(s: string, p: string, k: int)
    requires StartsWith(s, p) && 0 <= k < |p|
    ensures s[k] == p[k]
  {
    assert s[..|p|][k] == s[k];
  }

  /** Appending a suffix makes the result end with it, whatever came before. */
  lemma EndsWithAppended(key: string, x: string)
    ensures EndsWith(key + x, x)
  {
    assert (key + x)[|key + x| - |x|..] == x;
  }
}
