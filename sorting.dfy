/** `Array.prototype.sort(compareFn)` for a comparator that is a total preorder:
    an insertion sort whose result is ordered by the comparator and is a
    permutation of its input. */
module Sorting {

  /** "At most" under cmp is transitive. */
  ghost predicate Transitive<T(!new)>(cmp: (T, T) -> int) {
    forall a, b, c :: cmp(a, b) <= 0 && cmp(b, c) <= 0 ==> cmp(a, c) <= 0
  }

  /** Any two elements are ordered one way or the other. */
  ghost predicate Total<T(!new)>(cmp: (T, T) -> int) {
    forall a, b :: cmp(a, b) <= 0 || cmp(b, a) <= 0
  }

  /** Pairwise in comparator order. */
  ghost predicate SortedBy<T>(cmp: (T, T) -> int, s: seq<T>) {
    forall i, j :: 0 <= i < j < |s| ==> cmp(s[i], s[j]) <= 0
  }

  /** One pair of a sorted list. */
  lemma SortedAt<T>(cmp: (T, T) -> int, s: seq<T>, i: int, j: int)
    requires SortedBy(cmp, s) && 0 <= i < j < |s|
    ensures cmp(s[i], s[j]) <= 0
  {
  }

  /** b is at most every element of s. */
  ghost predicate LowerBound<T>(cmp: (T, T) -> int, b: T, s: seq<T>) {
    forall j :: 0 <= j < |s| ==> cmp(b, s[j]) <= 0
  }

  /** Inserts x before the first element it does not follow. */
  function Insert<T>(cmp: (T, T) -> int, x: T, s: seq<T>): (r: seq<T>)
    ensures |r| == |s| + 1
    ensures x in r
    ensures forall i :: 0 <= i < |s| ==> s[i] in r
    ensures forall i :: 0 <= i < |r| ==> r[i] == x || r[i] in s
    decreases |s|
  {
    if s == [] then [x]
    else if cmp(x, s[0]) <= 0 then [x] + s
    else [s[0]] + Insert(cmp, x, s[1..])
  }

  /** Insertion adds exactly x. */
  lemma {:induction false} InsertMultiset<T>(cmp: (T, T) -> int, x: T, s: seq<T>)
    ensures multiset(Insert(cmp, x, s)) == multiset(s) + multiset{x}
    decreases |s|
  {
    if s != [] {
      assert s == [s[0]] + s[1..];
      if cmp(x, s[0]) > 0 {
        InsertMultiset(cmp, x, s[1..]);
      }
    }
  }

  /** A bound on x and on s bounds the list x is inserted into. */
  lemma {:induction false} InsertLowerBound<T>(cmp: (T, T) -> int, b: T, x: T, s: seq<T>)
    requires cmp(b, x) <= 0 && LowerBound(cmp, b, s)
    ensures LowerBound(cmp, b, Insert(cmp, x, s))
    decreases |s|
  {
    if s != [] && cmp(x, s[0]) > 0 {
      InsertLowerBound(cmp, b, x, s[1..]);
      assert Insert(cmp, x, s) == [s[0]] + Insert(cmp, x, s[1..]);
    }
  }

  /** Inserting into a sorted list keeps it sorted. */
  lemma {:induction false} InsertSorted<T(!new)>(cmp: (T, T) -> int, x: T, s: seq<T>)
    requires Transitive(cmp) && Total(cmp) && SortedBy(cmp, s)
    ensures SortedBy(cmp, Insert(cmp, x, s))
    decreases |s|
  {
    if s == [] {
    } else if cmp(x, s[0]) <= 0 {
      assert LowerBound(cmp, x, s);
    } else {
      InsertSorted(cmp, x, s[1..]);
      InsertLowerBound(cmp, s[0], x, s[1..]);
      assert Insert(cmp, x, s) == [s[0]] + Insert(cmp, x, s[1..]);
    }
  }

  lemma HeadTailMultiset<T>(s: seq<T>)
    requires s != []
    ensures multiset(s) == multiset(s[1..]) + multiset{s[0]}
  {
    assert s == [s[0]] + s[1..];
  }

  /** The sorted list: ordered by cmp and holding exactly the input's elements. */
  function Sort<T(!new)>(cmp: (T, T) -> int, s: seq<T>): (r: seq<T>)
    requires Transitive(cmp) && Total(cmp)
    ensures multiset(r) == multiset(s)
    ensures SortedBy(cmp, r)
    decreases |s|
  {
    if s == [] then []
    else
      var rest := Sort(cmp, s[1..]);
      InsertSorted(cmp, s[0], rest);
      InsertMultiset(cmp, s[0], rest);
      HeadTailMultiset(s);
      Insert(cmp, s[0], rest)
  }
}
