/** The two functions of Go's `strings` package that the core relies on. */
module Strings {

  /** `strings.HasPrefix(s, prefix)`. */
  predicate HasPrefix(s: string, prefix: string) {
    prefix <= s
  }

  /** `strings.TrimPrefix(s, prefix)`: `s` without the leading `prefix`,
      or `s` unchanged when it does not start with `prefix`. */
  function TrimPrefix(s: string, prefix: string): (r: string)
    ensures HasPrefix(s, prefix) ==> prefix + r == s
    ensures !HasPrefix(s, prefix) ==> r == s
    ensures |r| <= |s|
  {
    if HasPrefix(s, prefix) then s[|prefix|..] else s
  }

  /** Trimming undoes prepending. */
  lemma TrimPrependedPrefix(prefix: string, x: string)
    ensures TrimPrefix(prefix + x, prefix) == x
  {
  }

  /** Two strings that both carry the prefix and trim to the same string are equal. */
  lemma TrimPrefixInjective(s: string, t: string, prefix: string)
    requires HasPrefix(s, prefix) && HasPrefix(t, prefix)
    requires TrimPrefix(s, prefix) == TrimPrefix(t, prefix)
    ensures s == t
  {
  }
}
