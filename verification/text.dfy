/** String helpers with Python's `str` meaning. */
module Text {

  /** `s.endswith(suffix)`: exact, case-sensitive; the empty suffix always matches. */
  predicate EndsWith(s: string, suffix: string) {
    |suffix| <= |s| && s[|s| - |suffix|..] == suffix
  }

  /** Whatever is appended last is a suffix of the whole. */
  lemma EndsWithAppend(prefix: string, suffix: string)
    ensures EndsWith(prefix + suffix, suffix)
  {
    assert (prefix + suffix)[|prefix|..] == suffix;
  }
}
