/** A stable comparison sort. JavaScript's `Array.prototype.sort` is stable, so with a
    consistent comparator its result is fully determined: each element ends up after every
    element it does not strictly precede, and ties keep their input order (`SortStable`). The reference is
    insertion from the right; the in-place method below computes it on an array. */
module StableSort {
  import opened Collections

  /** `x` placed into `s`, moving left past the elements it strictly precedes. */
  function Insert<T>(s: seq<T>, x: T, before: (T, T) -> bool): (r: seq<T>)
    ensures |r| == |s| + 1
  {
    if s == [] then [x]
    else if before(x, s[|s| - 1]) then Insert(s[..|s| - 1], x, before) + [s[|s| - 1]]
    else s + [x]
  }

  /** The stable sort of `s`: each element inserted in turn. */
  function Sort<T>(s: seq<T>, before: (T, T) -> bool): (r: seq<T>)
    ensures |r| == |s|
  {
    if s == [] then [] else Insert(Sort(s[..|s| - 1], before), s[|s| - 1], before)
  }

  /** No element is strictly preceded by a later one. */
  ghost predicate Sorted<T>(s: seq<T>, before: (T, T) -> bool) {
    forall i, j :: 0 <= i < j < |s| ==> !before(s[j], s[i])
  }

  /** The comparator is a strict weak order: asymmetric and negatively transitive. */
  ghost predicate StrictWeakOrder<T(!new)>(before: (T, T) -> bool) {
    (forall a, b :: before(a, b) ==> !before(b, a)) &&
    (forall a, b, c :: !before(a, b) && !before(b, c) ==> !before(a, c))
  }

  /** The comparator is a strict weak order on the elements of `s`. */
  ghost predicate StrictWeakOrderOn<T>(s: seq<T>, before: (T, T) -> bool) {
    (forall a, b :: a in s && b in s && before(a, b) ==> !before(b, a)) &&
    (forall a, b, c :: a in s && b in s && c in s && !before(a, b) && !before(b, c) ==> !before(a, c))
  }

  lemma StrictWeakOrderEverywhere<T(!new)>(s: seq<T>, before: (T, T) -> bool)
    requires StrictWeakOrder(before)
    ensures StrictWeakOrderOn(s, before)
  {
  }

  /** A strict weak order on `big` is one on every `small` drawn from it. */
  lemma StrictWeakOrderOnPart<T>(big: seq<T>, small: seq<T>, before: (T, T) -> bool)
    requires StrictWeakOrderOn(big, before)
    requires forall a :: a in small ==> a in big
    ensures StrictWeakOrderOn(small, before)
  {
  }

  /** The sort holds the elements of its input. */
  lemma SortFrom<T>(s: seq<T>, before: (T, T) -> bool, a: T)
    requires a in Sort(s, before)
    ensures a in s
  {
    SortPermutes(s, before);
    assert a in multiset(Sort(s, before));
  }

  lemma {:induction false} InsertPermutes<T>(s: seq<T>, x: T, before: (T, T) -> bool)
    ensures multiset(Insert(s, x, before)) == multiset(s) + multiset{x}
  {
    if s != [] && before(x, s[|s| - 1]) {
      var init, last := s[..|s| - 1], s[|s| - 1];
      InsertPermutes(init, x, before);
      assert s == init + [last];
    }
  }

  /** The sort only reorders: the result is a permutation of the input. */
  lemma {:induction false} SortPermutes<T>(s: seq<T>, before: (T, T) -> bool)
    ensures multiset(Sort(s, before)) == multiset(s)
  {
    if s != [] {
      var init := s[..|s| - 1];
      SortPermutes(init, before);
      InsertPermutes(Sort(init, before), s[|s| - 1], before);
      assert s == init + [s[|s| - 1]];
    }
  }

  lemma {:induction false} InsertSorted<T>(s: seq<T>, x: T, before: (T, T) -> bool)
    requires StrictWeakOrderOn(s + [x], before) && Sorted(s, before)
    ensures Sorted(Insert(s, x, before), before)
  {
    if s != [] {
      var init, last := s[..|s| - 1], s[|s| - 1];
      if before(x, last) {
        assert Sorted(init, before) by {
          forall i, j | 0 <= i < j < |init| ensures !before(init[j], init[i]) {
            assert init[i] == s[i] && init[j] == s[j];
          }
        }
        StrictWeakOrderOnPart(s + [x], init + [x], before);
        InsertSorted(init, x, before);
        var m := Insert(init, x, before);
        InsertPermutes(init, x, before);
        forall k | 0 <= k < |m| ensures !before(last, m[k]) {
          assert m[k] in multiset(m);
          if m[k] == x {
            assert x in s + [x] && last in s + [x];
          } else {
            assert m[k] in multiset(init);
            var i :| 0 <= i < |init| && init[i] == m[k];
            assert s[i] == init[i];
          }
        }
        var r := m + [last];
        forall i, j | 0 <= i < j < |r| ensures !before(r[j], r[i]) {
          if j < |m| { assert r[i] == m[i] && r[j] == m[j]; }
        }
      } else {
        var r := s + [x];
        forall i, j | 0 <= i < j < |r| ensures !before(r[j], r[i]) {
          if j == |s| && i < |s| - 1 {
            assert !before(last, s[i]);
            assert x in s + [x] && last in s + [x] && s[i] in s + [x];
          }
        }
      }
    }
  }

  /** The result is ordered by the comparator. */
  lemma {:induction false} SortSorted<T>(s: seq<T>, before: (T, T) -> bool)
    requires StrictWeakOrderOn(s, before)
    ensures Sorted(Sort(s, before), before)
  {
    if s != [] {
      var init, last := s[..|s| - 1], s[|s| - 1];
      assert s == init + [last];
      StrictWeakOrderOnPart(s, init, before);
      SortSorted(init, before);
      forall a | a in Sort(init, before) + [last] ensures a in s {
        if a != last { SortFrom(init, before, a); }
      }
      StrictWeakOrderOnPart(s, Sort(init, before) + [last], before);
      InsertSorted(Sort(init, before), last, before);
    }
  }

  /** The elements tied with `x`: neither strictly precedes the other. */
  function Tied<T>(before: (T, T) -> bool, x: T): T -> bool {
    y => !before(x, y) && !before(y, x)
  }

  /** Inserting `e` never moves it past an element tied with `x` when `e` is tied with `x`
      too, so the elements tied with `x` keep their order, `e` last among them. */
  lemma {:induction false} InsertStable<T>(s: seq<T>, e: T, x: T, before: (T, T) -> bool)
    requires StrictWeakOrderOn(s + [e, x], before)
    ensures Filter(Insert(s, e, before), Tied(before, x)) == Filter(s, Tied(before, x)) + Filter([e], Tied(before, x))
  {
    var p := Tied(before, x);
    assert [e][..0] == [];
    if s == [] {
      assert Insert(s, e, before) == [e];
    } else {
      var init, last := s[..|s| - 1], s[|s| - 1];
      assert s == init + [last];
      FilterConcat(init, [last], p);
      assert [last][..0] == [];
      if before(e, last) {
        StrictWeakOrderOnPart(s + [e, x], init + [e, x], before);
        InsertStable(init, e, x, before);
        FilterConcat(Insert(init, e, before), [last], p);
        assert e in s + [e, x] && x in s + [e, x] && last in s + [e, x];
        assert !(p(e) && p(last));
      } else {
        FilterConcat(s, [e], p);
      }
    }
  }

  /** The sort is stable: for any `x`, the elements tied with `x` come out in their input
      order. */
  lemma {:induction false} SortStable<T>(s: seq<T>, x: T, before: (T, T) -> bool)
    requires StrictWeakOrderOn(s + [x], before)
    ensures Filter(Sort(s, before), Tied(before, x)) == Filter(s, Tied(before, x))
  {
    if s != [] {
      var init, last := s[..|s| - 1], s[|s| - 1];
      assert s == init + [last];
      StrictWeakOrderOnPart(s + [x], init + [x], before);
      SortStable(init, x, before);
      forall a | a in Sort(init, before) + [last, x] ensures a in s + [x] {
        if a != last && a != x { SortFrom(init, before, a); }
      }
      StrictWeakOrderOnPart(s + [x], Sort(init, before) + [last, x], before);
      InsertStable(Sort(init, before), last, x, before);
      FilterConcat(init, [last], Tied(before, x));
    }
  }

  /** Ties keep their order: when no element strictly precedes another, the sort changes
      nothing. */
  lemma {:induction false} SortKeepsTies<T>(s: seq<T>, before: (T, T) -> bool)
    requires forall i, j :: 0 <= i < |s| && 0 <= j < |s| ==> !before(s[i], s[j])
    ensures Sort(s, before) == s
  {
    if s != [] {
      var init := s[..|s| - 1];
      SortKeepsTies(init, before);
      if init != [] {
        assert !before(s[|s| - 1], init[|init| - 1]);
      }
      assert s == init + [s[|s| - 1]];
    }
  }

  /** Any subsequence chosen by a filter of a sorted sequence is sorted. */
  lemma {:induction false} FilterSorted<T>(s: seq<T>, p: T -> bool, before: (T, T) -> bool)
    requires Sorted(s, before)
    ensures Sorted(Filter(s, p), before)
  {
    if s != [] {
      var init, last := s[..|s| - 1], s[|s| - 1];
      assert Sorted(init, before) by {
        forall i, j | 0 <= i < j < |init| ensures !before(init[j], init[i]) {
          assert init[i] == s[i] && init[j] == s[j];
        }
      }
      FilterSorted(init, p, before);
      if p(last) {
        var m := Filter(init, p);
        forall k | 0 <= k < |m| ensures !before(last, m[k]) {
          assert m[k] in m;
          FilterFrom(init, p, m[k]);
          var i :| 0 <= i < |init| && init[i] == m[k];
          assert s[i] == init[i];
        }
        var r := m + [last];
        forall i, j | 0 <= i < j < |r| ensures !before(r[j], r[i]) {
          if j < |m| { assert r[i] == m[i] && r[j] == m[j]; }
        }
      }
    }
  }

  lemma InsertStep<T>(p: seq<T>, j: nat, x: T, before: (T, T) -> bool)
    requires 0 < j <= |p| && before(x, p[j - 1])
    ensures Insert(p[..j], x, before) == Insert(p[..j - 1], x, before) + [p[j - 1]]
  {
    assert p[..j][..j - 1] == p[..j - 1];
  }

  lemma InsertStop<T>(p: seq<T>, j: nat, x: T, before: (T, T) -> bool)
    requires j <= |p| && (j == 0 || !before(x, p[j - 1]))
    ensures Insert(p[..j], x, before) == p[..j] + [x]
  {
  }

  lemma SortStep<T>(s: seq<T>, i: nat, before: (T, T) -> bool)
    requires i < |s|
    ensures Sort(s[..i + 1], before) == Insert(Sort(s[..i], before), s[i], before)
  {
    assert s[..i + 1][..i] == s[..i];
  }

  /** Where `x` lands when inserted into `a[..i]`: the smallest `j` such that `x` strictly
      precedes each of `a[j..i]`, scanning left from `i`. */
  method InsertionPoint<T>(a: array<T>, i: nat, x: T, before: (T, T) -> bool) returns (j: nat)
    requires i <= a.Length
    ensures j <= i
    ensures Insert(a[..i], x, before) == a[..j] + [x] + a[j..i]
  {
    ghost var p := a[..i];
    assert p[..i] == p && p[i..i] == [];
    j := i;
    while j > 0 && before(x, a[j - 1])
      invariant j <= i
      invariant Insert(p, x, before) == Insert(p[..j], x, before) + p[j..i]
    {
      InsertStep(p, j, x, before);
      assert p[j - 1..i] == [p[j - 1]] + p[j..i];
      j := j - 1;
    }
    InsertStop(p, j, x, before);
    assert p[..j] == a[..j] && p[j..i] == a[j..i];
  }

  /** Moves `a[j..i]` one place to the right, over `a[i]`; the rest is untouched. */
  method ShiftRight<T>(a: array<T>, j: nat, i: nat)
    requires j <= i < a.Length
    modifies a
    ensures a[..j] == old(a[..j])
    ensures a[j + 1..i + 1] == old(a[j..i])
    ensures a[i + 1..] == old(a[i + 1..])
  {
    var k := i;
    while k > j
      invariant j <= k <= i
      invariant forall m :: 0 <= m <= k ==> a[m] == old(a[m])
      invariant forall m :: k < m <= i ==> a[m] == old(a[m - 1])
      invariant forall m :: i < m < a.Length ==> a[m] == old(a[m])
    {
      a[k] := a[k - 1];
      k := k - 1;
    }
  }

  /** One insertion step in place: the element at `i` moves left into the sorted prefix
      before it; the rest of the array is untouched. */
  method InsertAt<T>(a: array<T>, i: nat, before: (T, T) -> bool)
    requires i < a.Length
    modifies a
    ensures a[..i + 1] == Insert(old(a[..i]), old(a[i]), before)
    ensures a[i + 1..] == old(a[i + 1..])
  {
    var x := a[i];
    var j := InsertionPoint(a, i, x, before);
    ghost var p := a[..i];
    ShiftRight(a, j, i);
    a[j] := x;
    assert a[..j] == p[..j];
    assert a[j + 1..i + 1] == p[j..i];
    assert a[..i + 1] == a[..j] + [a[j]] + a[j + 1..i + 1];
  }

  /** Insertion sort in place: afterwards the array holds the stable sort of its old
      contents. */
  method SortInPlace<T>(a: array<T>, before: (T, T) -> bool)
    modifies a
    ensures a[..] == Sort(old(a[..]), before)
  {
    ghost var input := a[..];
    var i := 0;
    while i < a.Length
      invariant 0 <= i <= a.Length
      invariant a[..i] == Sort(input[..i], before)
      invariant a[i..] == input[i..]
    {
      assert a[i] == input[i] by { assert a[i..][0] == input[i..][0]; }
      assert a[i + 1..] == input[i + 1..] by { assert a[i + 1..] == a[i..][1..]; }
      InsertAt(a, i, before);
      SortStep(input, i, before);
      i := i + 1;
    }
    assert input[..a.Length] == input;
  }
}
