/** The two JavaScript string operations the compiler relies on. */
module Strings {

  /** `s.startsWith(prefix)`: `s` is `prefix` followed by something. */
  function StartsWith(s: string, prefix: string): (r: bool)
    ensures r <==> exists rest :: s == prefix + rest
  {
    if |prefix| <= |s| && s[..|prefix|] == prefix then
      assert s == prefix + s[|prefix|..];
      true
    else
      false
  }

  /** `s.slice(n)` for a non-negative `n`: everything after the first `n` characters,
      or the empty string when `s` is shorter than that. */
  function SliceFrom(s: string, n: nat): (r: string)
    ensures n <= |s| ==> s[..n] + r == s
    ensures |s| <= n ==> r == ""
  {
    if n <= |s| then s[n..] else ""
  }

  /** Slicing a prefix back off undoes prepending it. */
  lemma SliceAfterPrefix(prefix: string, rest: string)
    ensures StartsWith(prefix + rest, prefix)
    ensures SliceFrom(prefix + rest, |prefix|) == rest
  {
  }
}
