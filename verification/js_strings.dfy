/** The three JavaScript string tests the rule uses, on strings as sequences
    of characters: `startsWith`, `endsWith` and `includes`. */
module JsStrings {

  /** `s.startsWith(prefix)` */
  predicate StartsWith(s: string, prefix: string) {
    |prefix| <= |s| && s[..|prefix|] == prefix
  }

  /** `s.endsWith(suffix)` */
  predicate EndsWith(s: string, suffix: string) {
    |suffix| <= |s| && s[|s| - |suffix|..] == suffix
  }

  /** True when `needle` occurs in `s` starting at index `i`. */
  predicate OccursAt(s: string, needle: string, i: int) {
    0 <= i && i + |needle| <= |s| && s[i..i + |needle|] == needle
  }

  /** `s.includes(needle)`: some position of `s` starts an occurrence of
      `needle`. The empty needle occurs in every string. */
  predicate Includes(s: string, needle: string) {
    exists i | 0 <= i <= |s| - |needle| :: OccursAt(s, needle, i)
  }

  /** A string that ends with `suffix` includes it: the occurrence starts
      where the suffix does. */
  lemma EndsWithImpliesIncludes(s: string, suffix: string)
    requires EndsWith(s, suffix)
    ensures Includes(s, suffix)
  {
    assert OccursAt(s, suffix, |s| - |suffix|);
  }

  /** Every occurrence of a non-empty needle puts the needle's first
      character into the string. */
  lemma IncludesFirstChar(s: string, needle: string)
    requires |needle| > 0
    requires Includes(s, needle)
    ensures needle[0] in s
  {
  }
}
