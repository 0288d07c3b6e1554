/** Sequence helpers shared by the extractors: duplicate-free lists built by guarded pushes,
    and removal of a value (a `Map` key leaving the insertion order). */
module Collections {

  predicate NoDup<T(==)>(s: seq<T>) {
    forall i, j :: 0 <= i < j < |s| ==> s[i] != s[j]
  }

  /** The list a loop of `if (keep(x) && !list.includes(x)) list.push(x)` leaves behind when it
      starts from `acc` and visits `xs` in order. */
  function AppendNew<T(==,!new)>(acc: seq<T>, xs: seq<T>, keep: T -> bool): (r: seq<T>)
    decreases |xs|
    ensures |acc| <= |r| && r[..|acc|] == acc
    ensures NoDup(acc) ==> NoDup(r)
    ensures forall x :: x in r <==> x in acc || (x in xs && keep(x))
  {
    if xs == [] then acc
    else
      var a := AppendNew(acc, xs[..|xs| - 1], keep);
      var x := xs[|xs| - 1];
      assert forall y :: y in xs <==> y in xs[..|xs| - 1] || y == x;
      if keep(x) && x !in a then a + [x] else a
  }

  /** The loop `for (const x of xs) if (keep(x) && !list.includes(x)) list.push(x)`. */
  method PushNew<T(==,!new)>(list: seq<T>, xs: seq<T>, keep: T -> bool) returns (r: seq<T>)
    ensures r == AppendNew(list, xs, keep)
  {
    r := list;
    var i := 0;
    while i < |xs|
      invariant 0 <= i <= |xs|
      invariant r == AppendNew(list, xs[..i], keep)
    {
      PrefixOfPrefix(xs, i);
      if keep(xs[i]) && xs[i] !in r {
        r := r + [xs[i]];
      }
      i := i + 1;
    }
    WholePrefix(xs);
  }

  /** `[...new Set(xs)]`: the distinct elements in order of first occurrence. */
  function Dedup<T(==,!new)>(xs: seq<T>): (r: seq<T>)
    ensures NoDup(r)
    ensures forall x :: x in r <==> x in xs
  {
    AppendNew([], xs, _ => true)
  }

  /** `s` without any occurrence of `k`. */
  function RemoveValue<T(==,!new)>(s: seq<T>, k: T): (r: seq<T>)
    ensures forall x :: x in r <==> x in s && x != k
    ensures NoDup(s) ==> NoDup(r)
    ensures NoDup(s) && k in s ==> |r| == |s| - 1
    ensures k !in s ==> r == s
  {
    if s == [] then []
    else if s[0] == k then RemoveValue(s[1..], k)
    else
      var rest := RemoveValue(s[1..], k);
      assert NoDup(s) ==> s[0] !in s[1..] && NoDup(s[1..]) by {
        if NoDup(s) {
          forall j | 0 <= j < |s[1..]| ensures s[1..][j] != s[0] { assert s[1..][j] == s[j + 1]; }
        }
      }
      [s[0]] + rest
  }

  /** The number of elements of `s` that satisfy `p`. */
  function CountIf<T>(s: seq<T>, p: T -> bool): (n: nat)
    ensures n <= |s|
  {
    if s == [] then 0
    else CountIf(s[..|s| - 1], p) + (if p(s[|s| - 1]) then 1 else 0)
  }

  /** `s.filter(p)`: the elements that satisfy `p`, in order. */
  function Filter<T>(s: seq<T>, p: T -> bool): (r: seq<T>)
    ensures |r| <= |s|
    ensures forall i :: 0 <= i < |r| ==> p(r[i])
  {
    if s == [] then []
    else Filter(s[..|s| - 1], p) + (if p(s[|s| - 1]) then [s[|s| - 1]] else [])
  }

  /** Filtering by a predicate and by its negation splits `s` into two parts that together
      hold exactly its elements. */
  lemma {:induction false} FilterSplits<T>(s: seq<T>, p: T -> bool, q: T -> bool)
    requires forall x :: q(x) == !p(x)
    ensures multiset(Filter(s, p)) + multiset(Filter(s, q)) == multiset(s)
  {
    if s != [] {
      var init := s[..|s| - 1];
      FilterSplits(init, p, q);
      assert s == init + [s[|s| - 1]];
    }
  }

  /** Everything kept comes from `s`. */
  lemma {:induction false} FilterFrom<T>(s: seq<T>, p: T -> bool, x: T)
    requires x in Filter(s, p)
    ensures x in s && p(x)
  {
    if x !in Filter(s[..|s| - 1], p) {
      assert x == s[|s| - 1];
    } else {
      FilterFrom(s[..|s| - 1], p, x);
    }
  }

  /** Everything in `s` that satisfies `p` is kept. */
  lemma {:induction false} FilterHas<T>(s: seq<T>, p: T -> bool, x: T)
    requires x in s && p(x)
    ensures x in Filter(s, p)
  {
    if x != s[|s| - 1] {
      assert x in s[..|s| - 1] by { assert s == s[..|s| - 1] + [s[|s| - 1]]; }
      FilterHas(s[..|s| - 1], p, x);
    }
  }

  /** Filtering distributes over concatenation. */
  lemma {:induction false} FilterConcat<T>(a: seq<T>, b: seq<T>, p: T -> bool)
    ensures Filter(a + b, p) == Filter(a, p) + Filter(b, p)
  {
    if b == [] {
      assert a + b == a;
    } else {
      var init, last := b[..|b| - 1], b[|b| - 1];
      FilterConcat(a, init, p);
      assert (a + b)[..|a + b| - 1] == a + init;
      assert (a + b)[|a + b| - 1] == last;
    }
  }

  /** `s` passes the filter unchanged when all its elements satisfy `p`. */
  lemma {:induction false} FilterAll<T>(s: seq<T>, p: T -> bool)
    requires forall i :: 0 <= i < |s| ==> p(s[i])
    ensures Filter(s, p) == s
  {
    if s != [] {
      FilterAll(s[..|s| - 1], p);
      assert s == s[..|s| - 1] + [s[|s| - 1]];
    }
  }

  /** The concatenation of `f(x)` over `xs` in order: a loop that pushes what `f` yields
      for each element. */
  function ConcatMap<A, B>(xs: seq<A>, f: A -> seq<B>): seq<B> {
    if xs == [] then [] else ConcatMap(xs[..|xs| - 1], f) + f(xs[|xs| - 1])
  }

  lemma {:induction false} ConcatMapAppend<A, B>(xs: seq<A>, ys: seq<A>, f: A -> seq<B>)
    ensures ConcatMap(xs + ys, f) == ConcatMap(xs, f) + ConcatMap(ys, f)
  {
    if ys == [] {
      assert xs + ys == xs;
    } else {
      ConcatMapAppend(xs, ys[..|ys| - 1], f);
      assert (xs + ys)[..|xs + ys| - 1] == xs + ys[..|ys| - 1];
    }
  }

  /** One more element on the right adds its image on the right: the loop step. */
  lemma ConcatMapStep<A, B>(xs: seq<A>, i: nat, f: A -> seq<B>)
    requires i < |xs|
    ensures ConcatMap(xs[..i + 1], f) == ConcatMap(xs[..i], f) + f(xs[i])
  {
    assert xs[..i + 1][..i] == xs[..i];
  }

  /** The prefix of full length is the sequence. */
  lemma WholePrefix<T>(s: seq<T>)
    ensures s[..|s|] == s
  {
  }

  /** The prefix of a longer prefix. */
  lemma PrefixOfPrefix<T>(s: seq<T>, i: nat)
    requires i < |s|
    ensures s[..i + 1][..i] == s[..i]
  {
  }

  /** A sequence is its prefix followed by the rest. */
  lemma SplitAt<T>(s: seq<T>, n: nat)
    requires n <= |s|
    ensures s == s[..n] + s[n..]
  {
  }

  /** The images before, at and after position `i`. */
  lemma ConcatMapAround<A, B>(xs: seq<A>, i: nat, f: A -> seq<B>)
    requires i < |xs|
    ensures ConcatMap(xs, f) == ConcatMap(xs[..i], f) + f(xs[i]) + ConcatMap(xs[i + 1..], f)
  {
    assert xs == xs[..i + 1] + xs[i + 1..];
    ConcatMapAppend(xs[..i + 1], xs[i + 1..], f);
    ConcatMapStep(xs, i, f);
  }

  /** When each element yields at most one result, there are at most as many results as
      elements. */
  lemma {:induction false} ConcatMapShort<A, B>(xs: seq<A>, f: A -> seq<B>)
    requires forall x :: x in xs ==> |f(x)| <= 1
    ensures |ConcatMap(xs, f)| <= |xs|
  {
    if xs != [] {
      assert xs[|xs| - 1] in xs;
      ConcatMapShort(xs[..|xs| - 1], f);
    }
  }

  /** Everything produced comes from some element. */
  lemma {:induction false} ConcatMapFrom<A, B>(xs: seq<A>, f: A -> seq<B>, y: B)
    requires y in ConcatMap(xs, f)
    ensures exists i :: 0 <= i < |xs| && y in f(xs[i])
  {
    var init := xs[..|xs| - 1];
    if y in ConcatMap(init, f) {
      ConcatMapFrom(init, f, y);
      var i :| 0 <= i < |init| && y in f(init[i]);
      assert init[i] == xs[i];
    } else {
      assert y in f(xs[|xs| - 1]);
    }
  }

  /** Everything an element yields is produced. */
  lemma {:induction false} ConcatMapHas<A, B>(xs: seq<A>, f: A -> seq<B>, i: nat, y: B)
    requires i < |xs| && y in f(xs[i])
    ensures y in ConcatMap(xs, f)
  {
    if i < |xs| - 1 {
      ConcatMapHas(xs[..|xs| - 1], f, i, y);
    }
  }

  /** A member of a sequence sits at some index. */
  lemma IndexOfMember<T>(s: seq<T>, x: T) returns (j: nat)
    requires x in s
    ensures j < |s| && s[j] == x
  {
    j :| 0 <= j < |s| && s[j] == x;
  }
}
