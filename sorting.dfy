/**
 * `Array.prototype.sort` with a comparator: a stable sort, modelled as an
 * insertion sort over a strict order `lt` (`lt(a, b)` when the comparator puts
 * `a` strictly before `b`).
 */
module Sorting {

  /** `lt` is asymmetric and transitive: a consistent comparator. */
  ghost predicate StrictOrder<T(!new)>(lt: (T, T) -> bool)
  {
    && (forall a, b :: lt(a, b) ==> !lt(b, a))
    && (forall a, b, c :: lt(a, b) && lt(b, c) ==> lt(a, c))
  }

  /** No element is strictly before one that precedes it. */
  predicate Sorted<T>(s: seq<T>, lt: (T, T) -> bool)
  {
    forall i, j :: 0 <= i < j < |s| ==> !lt(s[j], s[i])
  }

  /** Places `x` after every element it is not strictly before, so equal elements keep their order. */
  function Insert<T>(x: T, s: seq<T>, lt: (T, T) -> bool): (r: seq<T>)
    ensures multiset(r) == multiset(s) + multiset{x}
    ensures |r| == |s| + 1
  {
    if |s| == 0 then [x]
    else if lt(x, s[0]) then [x] + s
    else
      var r := [s[0]] + Insert(x, s[1..], lt);
      assert s == [s[0]] + s[1..];
      r
  }

  function SortBy<T>(s: seq<T>, lt: (T, T) -> bool): (r: seq<T>)
    ensures multiset(r) == multiset(s)
    ensures |r| == |s|
  {
    if |s| == 0 then []
    else
      var r := Insert(s[|s| - 1], SortBy(s[..|s| - 1], lt), lt);
      assert s == s[..|s| - 1] + [s[|s| - 1]];
      r
  }

  lemma {:induction false} InsertSorted<T(!new)>(x: T, s: seq<T>, lt: (T, T) -> bool)
    requires StrictOrder(lt)
    requires Sorted(s, lt)
    ensures Sorted(Insert(x, s, lt), lt)
  {
    if |s| > 0 && !lt(x, s[0]) {
      InsertSorted(x, s[1..], lt);
      var t := Insert(x, s[1..], lt);
      forall j | 0 <= j < |t| ensures !lt(t[j], s[0]) {
        assert t[j] in multiset(t);
      }
    }
  }

  /** The sort orders its input and is a permutation of it. */
  lemma {:induction false} SortBySorted<T(!new)>(s: seq<T>, lt: (T, T) -> bool)
    requires StrictOrder(lt)
    ensures Sorted(SortBy(s, lt), lt)
    ensures multiset(SortBy(s, lt)) == multiset(s)
  {
    if |s| > 0 {
      SortBySorted(s[..|s| - 1], lt);
      InsertSorted(s[|s| - 1], SortBy(s[..|s| - 1], lt), lt);
    }
  }

  lemma {:induction false} InsertAtEnd<T>(x: T, s: seq<T>, lt: (T, T) -> bool)
    requires forall i :: 0 <= i < |s| ==> !lt(x, s[i])
    ensures Insert(x, s, lt) == s + [x]
  {
    if |s| > 0 {
      InsertAtEnd(x, s[1..], lt);
    }
  }

  /** Stability: input already in order comes back unchanged. */
  lemma {:induction false} SortByOfSorted<T>(s: seq<T>, lt: (T, T) -> bool)
    requires Sorted(s, lt)
    ensures SortBy(s, lt) == s
  {
    if |s| > 0 {
      var p := s[..|s| - 1];
      SortByOfSorted(p, lt);
      InsertAtEnd(s[|s| - 1], p, lt);
    }
  }
}
