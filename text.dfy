/** Predicates on strings used to state what a message or a path contains. */
module Text {

  /** `suffix` is the tail of `s` (Java's `String.endsWith`). */
  predicate IsSuffix(suffix: string, s: string)
  {
    |suffix| <= |s| && s[|s| - |suffix|..] == suffix
  }

  /** `needle` occurs somewhere in `s` (Java's `String.contains`). */
  predicate Contains(s: string, needle: string)
  {
    exists i :: 0 <= i <= |s| && needle <= s[i..]
  }

  /** A prefix is contained. */
  lemma {:induction false} ContainsPrefix(a: string, b: string)
    ensures Contains(a + b, a)
  {
    assert (a + b)[0..] == a + b;
    assert a <= (a + b)[0..];
  }

  /** Whatever occurs in a string also occurs once something is put before it. */
  lemma {:induction false} ContainsAfter(a: string, s: string, needle: string)
    requires Contains(s, needle)
    ensures Contains(a + s, needle)
  {
    var i :| 0 <= i <= |s| && needle <= s[i..];
    assert (a + s)[|a| + i..] == s[i..];
  }
}
