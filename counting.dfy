/** Counting the entries of a list equal to a value (Python's `list.count`),
    shared by the speaker statistics and the test-type distribution. */
module Counting {
  /** How many entries of `s` are `x`. */
  function Occurrences<T(==)>(s: seq<T>, x: T): nat
  {
    if s == [] then 0
    else Occurrences(s[..|s| - 1], x) + (if s[|s| - 1] == x then 1 else 0)
  }

  /** In a list without duplicates, a value occurs once if it is listed and
      not at all otherwise. */
  lemma {:induction false} OccurrencesDistinct<T>(s: seq<T>, x: T)
    requires forall i, j :: 0 <= i < j < |s| ==> s[i] != s[j]
    ensures Occurrences(s, x) == if x in s then 1 else 0
  {
    if s != [] {
      var init := s[..|s| - 1];
      assert s == init + [s[|s| - 1]];
      if s[|s| - 1] == x {
        assert x !in init;
      }
      OccurrencesDistinct(init, x);
    }
  }

  /** A listed value occurs at least once. */
  lemma {:induction false} OccurrencesPositive<T>(s: seq<T>, x: T)
    requires x in s
    ensures Occurrences(s, x) >= 1
  {
    var init := s[..|s| - 1];
    if s[|s| - 1] != x {
      assert s == init + [s[|s| - 1]];
      assert x in init;
      OccurrencesPositive(init, x);
    }
  }
}
