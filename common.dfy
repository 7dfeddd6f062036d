/** Option and the sequence operations the components lean on: JavaScript's
    `Array.prototype.filter` and `find`, and what it means for one list to be
    an order-preserving sublist of another. */
module Common {

  /** `undefined` / `null` versus a present value. */
  datatype Option<T> = None | Some(value: T)

  /** `filter(p)`: the elements that satisfy p, in their original order.
      Defined by peeling the last element, which is how a loop that pushes
      onto a list builds it. */
  function Filter<T(==)>(p: T -> bool, s: seq<T>): (r: seq<T>)
    ensures |r| <= |s|
    ensures forall i :: 0 <= i < |r| ==> r[i] in s && p(r[i])
    ensures forall i :: 0 <= i < |s| && p(s[i]) ==> s[i] in r
    decreases |s|
  {
    if s == [] then []
    else
      var init, last := s[..|s| - 1], s[|s| - 1];
      assert s == init + [last];
      Filter(p, init) + (if p(last) then [last] else [])
  }

  /** r is what remains of s after deleting some elements; the rest keep their order. */
  ghost predicate IsSubsequence<T>(r: seq<T>, s: seq<T>)
    decreases |s|
  {
    if r == [] then true
    else if s == [] then false
    else (r[|r| - 1] == s[|s| - 1] && IsSubsequence(r[..|r| - 1], s[..|s| - 1]))
         || IsSubsequence(r, s[..|s| - 1])
  }

  /** No element occurs twice (a JavaScript `Set` seen as the list of its insertion order). */
  predicate NoDuplicates<T(==)>(s: seq<T>) {
    forall i, j :: 0 <= i < j < |s| ==> s[i] != s[j]
  }

  /** A filter only deletes: it never reorders. */
  lemma {:induction false} FilterIsSubsequence<T>(p: T -> bool, s: seq<T>)
    ensures IsSubsequence(Filter(p, s), s)
    decreases |s|
  {
    if s != [] {
      var init, last := s[..|s| - 1], s[|s| - 1];
      FilterIsSubsequence(p, init);
      var r := Filter(p, s);
      if p(last) {
        assert r == Filter(p, init) + [last];
        assert r[..|r| - 1] == Filter(p, init);
      } else {
        assert r == Filter(p, init);
      }
    }
  }

  /** Filtering a list all of whose elements pass gives the list back. */
  lemma {:induction false} FilterKeepsAll<T>(p: T -> bool, s: seq<T>)
    requires forall i :: 0 <= i < |s| ==> p(s[i])
    ensures Filter(p, s) == s
    decreases |s|
  {
    if s != [] {
      FilterKeepsAll(p, s[..|s| - 1]);
      assert s[..|s| - 1] + [s[|s| - 1]] == s;
    }
  }

  /** Filtering twice by the same predicate is filtering once. */
  lemma FilterIdempotent<T>(p: T -> bool, s: seq<T>)
    ensures Filter(p, Filter(p, s)) == Filter(p, s)
  {
    var r := Filter(p, s);
    forall i | 0 <= i < |r| ensures p(r[i]) {
      assert r[i] in r;
    }
    FilterKeepsAll(p, r);
  }

  /** Filter distributes over concatenation, which is what "keeps the relative order" means
      for the two halves of a list. */
  lemma {:induction false} FilterAppend<T>(p: T -> bool, a: seq<T>, b: seq<T>)
    ensures Filter(p, a + b) == Filter(p, a) + Filter(p, b)
    decreases |b|
  {
    if b != [] {
      var binit, last := b[..|b| - 1], b[|b| - 1];
      assert (a + b)[..|a + b| - 1] == a + binit;
      FilterAppend(p, a, binit);
    } else {
      assert a + b == a;
    }
  }

  /** `map(f)`. */
  function MapSeq<A, B>(f: A -> B, s: seq<A>): (r: seq<B>)
    ensures |r| == |s| && forall i :: 0 <= i < |s| ==> r[i] == f(s[i])
    decreases |s|
  {
    if s == [] then [] else [f(s[0])] + MapSeq(f, s[1..])
  }

  /** `some(p)`: at least one element satisfies p. */
  predicate Any<T>(p: T -> bool, s: seq<T>): (b: bool)
    ensures b <==> exists x :: x in s && p(x)
  {
    exists i :: 0 <= i < |s| && p(s[i])
  }

  /** `findIndex(p)`: the first index whose element satisfies p, or -1. */
  function FirstIndex<T>(p: T -> bool, s: seq<T>): (r: int)
    ensures -1 <= r < |s|
    ensures r == -1 <==> forall i :: 0 <= i < |s| ==> !p(s[i])
    ensures 0 <= r ==> p(s[r]) && FailsBefore(p, s, r)
    decreases |s|
  {
    if s == [] then -1
    else if p(s[0]) then 0
    else
      var k := FirstIndex(p, s[1..]);
      if k == -1 then -1 else k + 1
  }

  /** No element before index i satisfies p. */
  predicate FailsBefore<T>(p: T -> bool, s: seq<T>, i: int)
    requires 0 <= i <= |s|
  {
    forall j :: 0 <= j < i ==> !p(s[j])
  }

  /** `find(p)`: the first element that satisfies p, or nothing (`undefined`). */
  function Find<T>(p: T -> bool, s: seq<T>): (r: Option<T>)
    ensures r.None? <==> forall i :: 0 <= i < |s| ==> !p(s[i])
    ensures r.Some? ==> p(r.value)
  {
    var k := FirstIndex(p, s);
    if k < 0 then None else Some(s[k])
  }

  /** The element `find` returns is the one at the first index where p holds. */
  lemma FindFirst<T>(p: T -> bool, s: seq<T>, i: int)
    requires 0 <= i < |s| && p(s[i]) && FailsBefore(p, s, i)
    ensures Find(p, s) == Some(s[i])
  {
  }
}
