/**
 Python's `needle in hay` on two strings: a substring test. The empty string
 occurs in every string, and a needle longer than the haystack occurs nowhere.
 */
module Substrings {

  /** `needle` occurs in `hay` starting at index `i`. */
  predicate OccursAt(hay: string, needle: string, i: int)
  {
    0 <= i && i + |needle| <= |hay| && hay[i..i + |needle|] == needle
  }

  /** `needle in hay`: some start index carries an occurrence of `needle`. */
  predicate Contains(hay: string, needle: string)
  {
    exists i :: 0 <= i <= |hay| - |needle| && OccursAt(hay, needle, i)
  }

  /** The empty string occurs in every string. */
  lemma EmptyOccursEverywhere(hay: string)
    ensures Contains(hay, "")
  {
    assert OccursAt(hay, "", 0);
  }

  /** A needle longer than the haystack occurs nowhere in it. */
  lemma LongerNeverOccurs(hay: string, needle: string)
    requires |needle| > |hay|
    ensures !Contains(hay, needle)
  {
  }

  /**
   A needle whose first character never appears in the haystack does not occur in it:
   the usual way to show that a GPU name is clear of a model-number substring.
   */
  lemma FirstCharAbsent(hay: string, needle: string)
    requires |needle| > 0 && needle[0] !in hay
    ensures !Contains(hay, needle)
  {
  }
}
