/** Substring search on strings: the model of Rust's `str::contains` with a
    string pattern. Strings are sequences of Unicode scalar values, as Rust's
    `char`s are, so a match on the UTF-8 bytes is a match on the characters. */
module Text {

  /** `needle` occurs in `hay` starting at index `i`. */
  predicate OccursAt(hay: string, needle: string, i: nat)
  {
    i + |needle| <= |hay| && hay[i..i + |needle|] == needle
  }

  /** Whether `needle` occurs somewhere in `hay`, searched left to right.
      The empty needle occurs in every string. */
  function Contains(hay: string, needle: string): (r: bool)
    ensures r <==> exists i: nat :: OccursAt(hay, needle, i)
    decreases |hay|
  {
    if |hay| < |needle| then
      false
    else if hay[..|needle|] == needle then
      assert OccursAt(hay, needle, 0);
      true
    else
      assert |needle| > 0;
      ShiftOccurrence(hay, needle);
      Contains(hay[1..], needle)
  }

  /** When `needle` is not at the front of `hay`, its occurrences in `hay`
      are exactly its occurrences in `hay[1..]`, shifted by one. */
  lemma ShiftOccurrence(hay: string, needle: string)
    requires 0 < |hay|
    requires !OccursAt(hay, needle, 0)
    ensures (exists i: nat :: OccursAt(hay, needle, i)) <==> (exists j: nat :: OccursAt(hay[1..], needle, j))
  {
    if i: nat :| OccursAt(hay, needle, i) {
      assert i > 0;
      assert hay[1..][i - 1..i - 1 + |needle|] == hay[i..i + |needle|];
      assert OccursAt(hay[1..], needle, i - 1);
    }
    if j: nat :| OccursAt(hay[1..], needle, j) {
      assert hay[j + 1..j + 1 + |needle|] == hay[1..][j..j + |needle|];
      assert OccursAt(hay, needle, j + 1);
    }
  }

  /** A string that contains `mid` contains everything `mid` contains. */
  lemma ContainsTransitive(big: string, mid: string, small: string)
    requires Contains(big, mid) && Contains(mid, small)
    ensures Contains(big, small)
  {
  }

  /** Every string contains each of its prefixes. */
  lemma ContainsPrefix(a: string, b: string)
    ensures Contains(a + b, a)
  {
  }
}
