/**
 * Case-insensitive string comparison as Kotlin's `equals(..., ignoreCase = true)`
 * and `contains(..., ignoreCase = true)` perform it, restricted to ASCII letters.
 */
module Text {
  /** The lower-case form of an ASCII letter; every other character is its own. */
  function Lower(c: char): (l: char)
    ensures !('A' <= l <= 'Z')
    ensures ('a' <= l <= 'z') <==> ('a' <= c <= 'z' || 'A' <= c <= 'Z')
  {
    if 'A' <= c <= 'Z' then (c as int + 32) as char else c
  }

  /** Equal length, and equal characters once both are folded. */
  predicate EqualsIgnoreCase(a: string, b: string) {
    |a| == |b| && forall i | 0 <= i < |a| :: Lower(a[i]) == Lower(b[i])
  }

  /** `word` occurs in `text` starting at index `i`, ignoring case. */
  predicate MatchesAt(text: string, word: string, i: int)
    requires 0 <= i && i + |word| <= |text|
  {
    EqualsIgnoreCase(text[i..i + |word|], word)
  }

  /** `word` occurs somewhere in `text`, ignoring case; the empty word occurs everywhere. */
  predicate ContainsIgnoreCase(text: string, word: string) {
    exists i | 0 <= i <= |text| - |word| :: MatchesAt(text, word, i)
  }

  /** Ignoring case is an equivalence: reflexive, symmetric and transitive. */
  lemma EqualsIgnoreCaseEquivalence(a: string, b: string, c: string)
    ensures EqualsIgnoreCase(a, a)
    ensures EqualsIgnoreCase(a, b) ==> EqualsIgnoreCase(b, a)
    ensures EqualsIgnoreCase(a, b) && EqualsIgnoreCase(b, c) ==> EqualsIgnoreCase(a, c)
  {
  }

  /** A word found in `t` is still found once text is added before or after it. */
  lemma ContainsSurvivesExtension(t: string, u: string, w: string)
    requires ContainsIgnoreCase(t, w)
    ensures ContainsIgnoreCase(t + u, w)
    ensures ContainsIgnoreCase(u + t, w)
  {
    var i :| 0 <= i <= |t| - |w| && MatchesAt(t, w, i);
    assert (t + u)[i..i + |w|] == t[i..i + |w|];
    assert MatchesAt(t + u, w, i);
    var j := i + |u|;
    assert (u + t)[j..j + |w|] == t[i..i + |w|];
    assert MatchesAt(u + t, w, j);
  }

  /** Texts equal ignoring case contain the same words ignoring case. */
  lemma ContainsIgnoresCase(t1: string, t2: string, w: string)
    requires EqualsIgnoreCase(t1, t2)
    ensures ContainsIgnoreCase(t1, w) <==> ContainsIgnoreCase(t2, w)
  {
    if ContainsIgnoreCase(t1, w) {
      var i :| 0 <= i <= |t1| - |w| && MatchesAt(t1, w, i);
      assert MatchesAt(t2, w, i);
    }
    if ContainsIgnoreCase(t2, w) {
      var i :| 0 <= i <= |t2| - |w| && MatchesAt(t2, w, i);
      assert MatchesAt(t1, w, i);
    }
  }

  /** A text shorter than the word cannot contain it; in particular the empty text contains no non-empty word. */
  lemma ShortTextMisses(t: string, w: string)
    requires |t| < |w|
    ensures !ContainsIgnoreCase(t, w)
  {
  }
}
