/** Small datatypes and finite-set facts shared by the other modules. */
module Prelude {

  datatype Option<+T> = None | Some(value: T)

  function Max(a: int, b: int): int { if a < b then b else a }

  const SECOND := 1_000_000_000

  /** A time in nanoseconds as whole Unix seconds, which is all the store keeps of it. */
  function Unix(t: int): (u: int)
    ensures u * 1_000_000_000 <= t < (u + 1) * 1_000_000_000
  {
    t / SECOND
  }

  function MinReal(a: real, b: real): real { if a < b then a else b }

  /** The elements of a list. */
  function Elements<T(==)>(s: seq<T>): set<T> { set x | x in s }

  ghost predicate Distinct<T>(s: seq<T>) {
    forall i, j :: 0 <= i < j < |s| ==> s[i] != s[j]
  }

  /** A list without repeats is as long as the set of its elements. */
  lemma {:induction false} DistinctSize<T>(s: seq<T>)
    requires Distinct(s)
    ensures |Elements(s)| == |s|
  {
    if s == [] {
    } else {
      var init, last := s[..|s| - 1], s[|s| - 1];
      DistinctSize(init);
      assert Elements(s) == Elements(init) + {last};
      assert last !in init;
    }
  }

  /** A subset is no larger. */
  lemma {:induction false} SubsetSize<T>(a: set<T>, b: set<T>)
    requires a <= b
    ensures |a| <= |b|
  {
    assert b == a + (b - a);
  }
}
