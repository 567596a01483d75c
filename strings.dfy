/** The two tests of Go's `strings` package the provider relies on. */
module Strings {

  /** strings.HasPrefix: `s` begins with `prefix`. */
  predicate HasPrefix(s: string, prefix: string) {
    |prefix| <= |s| && s[..|prefix|] == prefix
  }

  /** strings.HasSuffix: `s` ends with `suffix`. */
  predicate HasSuffix(s: string, suffix: string) {
    |suffix| <= |s| && s[|s| - |suffix|..] == suffix
  }

  /** Ending in "/" is a statement about the last character alone. */
  lemma SlashSuffix(s: string)
    ensures HasSuffix(s, "/") <==> |s| > 0 && s[|s| - 1] == '/'
  {
  }
}
