/** The membership toggle every form uses on a list of checkboxes: dosage-timing
    tags and set IDs (src/component/AddDrag.tsx), dosage-timing tags
    (src/component/EditMedication.tsx), medication IDs (src/component/EditSet.tsx),
    and, on a duplicate-free list, the expanded set names of the home page
    (a JavaScript `Set` keeps its elements in insertion order).

    `list.includes(x) ? list.filter(y => y !== x) : [...list, x]` */
module ListToggle {
  import opened Common

  /** `filter(y => y !== x)`: every occurrence of x removed, the rest in order. */
  function Without<T(==)>(s: seq<T>, x: T): (r: seq<T>)
    ensures x !in r
    ensures forall i :: 0 <= i < |s| && s[i] != x ==> s[i] in r
    ensures forall i :: 0 <= i < |r| ==> r[i] in s
  {
    Filter(y => y != x, s)
  }

  /** Remove x everywhere when it is present, otherwise append it at the end. */
  function Toggle<T(==)>(s: seq<T>, x: T): (r: seq<T>)
    ensures x in r <==> x !in s
    ensures forall i :: 0 <= i < |s| && s[i] != x ==> s[i] in r
    ensures forall i :: 0 <= i < |r| && r[i] != x ==> r[i] in s
    ensures x !in s ==> |r| == |s| + 1 && r[|s|] == x
  {
    if x in s then Without(s, x) else s + [x]
  }

  /** Whatever the toggle does to x, the other elements stay exactly as they were,
      in the same order. */
  lemma ToggleKeepsOthers<T>(s: seq<T>, x: T)
    ensures Without(Toggle(s, x), x) == Without(s, x)
  {
    if x in s {
      FilterIdempotent(y => y != x, s);
    } else {
      FilterAppend(y => y != x, s, [x]);
      assert Filter(y => y != x, [x]) == [];
    }
  }

  /** Removing never reorders: the result is a sublist of the input. */
  lemma WithoutIsSubsequence<T>(s: seq<T>, x: T)
    ensures IsSubsequence(Without(s, x), s)
  {
    FilterIsSubsequence(y => y != x, s);
  }

  /** A list without x is unchanged by removing x. */
  lemma WithoutAbsent<T>(s: seq<T>, x: T)
    requires x !in s
    ensures Without(s, x) == s
  {
    FilterKeepsAll(y => y != x, s);
  }

  /** Removing from a duplicate-free list leaves it duplicate-free. */
  lemma {:induction false} WithoutNoDuplicates<T>(s: seq<T>, x: T)
    requires NoDuplicates(s)
    ensures NoDuplicates(Without(s, x))
    decreases |s|
  {
    if s != [] {
      var init, last := s[..|s| - 1], s[|s| - 1];
      assert s == init + [last];
      WithoutNoDuplicates(init, x);
      var w := Without(init, x);
      if last != x {
        assert last !in w by {
          forall i | 0 <= i < |w| ensures w[i] != last {
            assert w[i] in init;
          }
        }
        assert Without(s, x) == w + [last];
      } else {
        assert Without(s, x) == w;
      }
    }
  }

  /** Toggling keeps a list free of duplicates. */
  lemma ToggleNoDuplicates<T>(s: seq<T>, x: T)
    requires NoDuplicates(s)
    ensures NoDuplicates(Toggle(s, x))
  {
    if x in s {
      WithoutNoDuplicates(s, x);
    }
  }

  /** Toggling an absent element twice restores the original list. */
  lemma ToggleTwiceAbsent<T>(s: seq<T>, x: T)
    requires x !in s
    ensures Toggle(Toggle(s, x), x) == s
  {
    FilterAppend(y => y != x, s, [x]);
    assert Filter(y => y != x, [x]) == [];
    WithoutAbsent(s, x);
  }

  /** Toggling a present element twice moves it to the end: unless it was
      already the last element, the list is not restored. */
  lemma ToggleTwicePresent<T>(s: seq<T>, x: T)
    requires x in s
    ensures Toggle(Toggle(s, x), x) == Without(s, x) + [x]
    ensures s[|s| - 1] != x ==> Toggle(Toggle(s, x), x) != s
  {
  }

  /** Seen as a set, the toggle flips the membership of x and of nothing else,
      which is what `Set.has` / `delete` / `add` do to the expanded set names. */
  lemma ToggleAsSet<T>(s: seq<T>, x: T, y: T)
    ensures y in Toggle(s, x) <==> (if y == x then x !in s else y in s)
  {
    var r := Toggle(s, x);
    if y != x && y in s {
      var i :| 0 <= i < |s| && s[i] == y;
      assert s[i] in r;
    }
    if y != x && y in r {
      var i :| 0 <= i < |r| && r[i] == y;
      assert r[i] in s;
    }
  }

  /** Seen as a set, toggling the same element twice restores the original
      members. */
  lemma ToggleTwiceSameMembers<T>(s: seq<T>, x: T, y: T)
    ensures y in Toggle(Toggle(s, x), x) <==> y in s
  {
    ToggleAsSet(s, x, y);
    ToggleAsSet(Toggle(s, x), x, y);
  }
}
