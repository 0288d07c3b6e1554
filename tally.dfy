/** The per-key tallies `statsService` keeps in a plain object (`genreStats`, `studioStats`):
    each key maps to a count, a rating total and the titles counted, the keys enumerate in
    JavaScript object order, and the result is re-assembled in count order. */
module Tally {
  import opened Wrappers
  import opened Collections
  import opened StableSort
  import opened JsObject

  /** The names a fresh `{}` inherits from `Object.prototype`. Looking one of them up gives a
      truthy value that is not a tally, so no tally is created for it and the following
      `.titles.push` fails. */
  const InheritedNames: set<string> := {
    "constructor", "__proto__", "toString", "toLocaleString", "valueOf", "hasOwnProperty",
    "isPrototypeOf", "propertyIsEnumerable", "__defineGetter__", "__defineSetter__",
    "__lookupGetter__", "__lookupSetter__" }

  /** Every inherited name is a non-empty key. */
  lemma NoEmptyInherited()
    ensures "" !in InheritedNames
  {
  }

  /** The TypeError that `.titles.push` on an inherited member raises. */
  const PushOnUndefined := "Cannot read properties of undefined (reading 'push')"

  datatype Stat = Stat(count: nat, totalRating: real, titles: seq<string>)

  /** The object's own entries, and the order in which their keys were first added. */
  datatype Tally = Tally(stats: map<string, Stat>, order: seq<string>)

  const Empty := Tally(map[], [])

  /** Every key is listed once, and each tally has one title per count. */
  ghost predicate ValidTally(t: Tally) {
    NoDup(t.order) && (forall k :: k in t.stats <==> k in t.order) &&
    forall k :: k in t.stats ==> 1 <= t.stats[k].count == |t.stats[k].titles|
  }

  /** One record counted under `key`: create the tally on first sight, then add 1, the rating
      and the title. */
  function Add(t: Tally, key: string, title: string, rating: real): (r: Result<Tally>)
    ensures r.Err? <==> key in InheritedNames
  {
    if key in InheritedNames then Err(PushOnUndefined)
    else if key in t.stats then
      var s := t.stats[key];
      Ok(Tally(t.stats[key := Stat(s.count + 1, s.totalRating + rating, s.titles + [title])], t.order))
    else Ok(Tally(t.stats[key := Stat(1, 0.0 + rating, [title])], t.order + [key]))
  }

  /** The sum of the counts over `keys`. */
  function SumOver(keys: seq<string>, stats: map<string, Stat>): nat {
    if keys == [] then 0
    else SumOver(keys[..|keys| - 1], stats) + (if keys[|keys| - 1] in stats then stats[keys[|keys| - 1]].count else 0)
  }

  function Total(t: Tally): nat {
    SumOver(t.order, t.stats)
  }

  lemma {:induction false} SumOverFresh(keys: seq<string>, stats: map<string, Stat>, k: string, v: Stat)
    requires k !in keys
    ensures SumOver(keys, stats[k := v]) == SumOver(keys, stats)
  {
    if keys != [] {
      SumOverFresh(keys[..|keys| - 1], stats, k, v);
      assert keys[|keys| - 1] != k;
    }
  }

  lemma {:induction false} SumOverBump(keys: seq<string>, stats: map<string, Stat>, k: string, v: Stat)
    requires NoDup(keys) && k in keys && k in stats && v.count == stats[k].count + 1
    ensures SumOver(keys, stats[k := v]) == SumOver(keys, stats) + 1
  {
    var init, last := keys[..|keys| - 1], keys[|keys| - 1];
    assert NoDup(init);
    if last == k {
      assert k !in init;
      SumOverFresh(init, stats, k, v);
    } else {
      assert k in init by { assert keys == init + [last]; }
      SumOverBump(init, stats, k, v);
    }
  }

  /** Adding a record keeps the tally well formed and raises the total count by one. */
  lemma AddValid(t: Tally, key: string, title: string, rating: real)
    requires ValidTally(t) && key !in InheritedNames
    ensures ValidTally(Add(t, key, title, rating).value)
    ensures Total(Add(t, key, title, rating).value) == Total(t) + 1
    ensures key in Add(t, key, title, rating).value.stats
  {
    if key in t.stats {
      AddExisting(t, key, title, rating);
    } else {
      AddFresh(t, key, title, rating);
    }
  }

  lemma AddExisting(t: Tally, key: string, title: string, rating: real)
    requires ValidTally(t) && key !in InheritedNames && key in t.stats
    ensures ValidTally(Add(t, key, title, rating).value)
    ensures Total(Add(t, key, title, rating).value) == Total(t) + 1
  {
    var s := t.stats[key];
    var v := Stat(s.count + 1, s.totalRating + rating, s.titles + [title]);
    assert Add(t, key, title, rating).value == Tally(t.stats[key := v], t.order);
    SumOverBump(t.order, t.stats, key, v);
  }

  lemma AddFresh(t: Tally, key: string, title: string, rating: real)
    requires ValidTally(t) && key !in InheritedNames && key !in t.stats
    ensures ValidTally(Add(t, key, title, rating).value)
    ensures Total(Add(t, key, title, rating).value) == Total(t) + 1
  {
    var v := Stat(1, 0.0 + rating, [title]);
    assert Add(t, key, title, rating).value == Tally(t.stats[key := v], t.order + [key]);
    AppendKeyValid(t, key, v);
    AppendKeyTotal(t, key, v);
  }

  lemma AppendKeyValid(t: Tally, key: string, v: Stat)
    requires ValidTally(t) && key !in t.stats && 1 <= v.count == |v.titles|
    ensures ValidTally(Tally(t.stats[key := v], t.order + [key]))
  {
    var u := Tally(t.stats[key := v], t.order + [key]);
    assert NoDup(u.order) by {
      forall i, j | 0 <= i < j < |u.order| ensures u.order[i] != u.order[j] {
        if j == |t.order| { assert u.order[i] == t.order[i]; }
      }
    }
    forall k ensures k in u.stats <==> k in u.order {
      assert k in u.order <==> k in t.order || k == key;
    }
  }

  lemma AppendKeyTotal(t: Tally, key: string, v: Stat)
    requires key !in t.order
    ensures Total(Tally(t.stats[key := v], t.order + [key])) == Total(t) + v.count
  {
    SumOverFresh(t.order, t.stats, key, v);
    assert (t.order + [key])[..|t.order|] == t.order;
  }

  /** One `count++`, `totalRating += rating`, `titles.push(title)` under `key`. */
  datatype Entry = Entry(key: string, title: string, rating: real)

  /** The entries added one after another; the first failure ends the run. */
  function AddAll(t: Tally, es: seq<Entry>): Result<Tally> {
    if es == [] then Ok(t)
    else match AddAll(t, es[..|es| - 1])
      case Err(m) => Err(m)
      case Ok(u) => Add(u, es[|es| - 1].key, es[|es| - 1].title, es[|es| - 1].rating)
  }

  /** One more entry: the loop step. */
  lemma AddAllStep(t: Tally, es: seq<Entry>, e: Entry)
    ensures AddAll(t, es + [e]) ==
      match AddAll(t, es)
      case Err(m) => Err(m)
      case Ok(u) => Add(u, e.key, e.title, e.rating)
  {
    assert (es + [e])[..|es|] == es;
  }

  /** Once a run has failed, later entries change nothing. */
  lemma {:induction false} AddAllErrSticks(t: Tally, a: seq<Entry>, b: seq<Entry>)
    requires AddAll(t, a).Err?
    ensures AddAll(t, a + b) == AddAll(t, a)
  {
    if b == [] {
      assert a + b == a;
    } else {
      var init, last := b[..|b| - 1], b[|b| - 1];
      AddAllErrSticks(t, a, init);
      assert a + b == (a + init) + [last];
      AddAllStep(t, a + init, last);
    }
  }

  /** Running two batches of entries in turn is running them together. */
  lemma {:induction false} AddAllAppend(t: Tally, a: seq<Entry>, b: seq<Entry>)
    ensures AddAll(t, a + b) ==
      match AddAll(t, a)
      case Err(m) => Err(m)
      case Ok(u) => AddAll(u, b)
  {
    if b == [] {
      assert a + b == a;
    } else {
      var init, last := b[..|b| - 1], b[|b| - 1];
      AddAllAppend(t, a, init);
      assert a + b == (a + init) + [last];
      AddAllStep(t, a + init, last);
    }
  }

  /** The loop step over a prefix of the entries. */
  lemma PrefixStep(t: Tally, es: seq<Entry>, i: nat)
    requires i < |es|
    ensures AddAll(t, es[..i + 1]) ==
      match AddAll(t, es[..i])
      case Err(m) => Err(m)
      case Ok(u) => Add(u, es[i].key, es[i].title, es[i].rating)
  {
    assert es[..i + 1] == es[..i] + [es[i]];
    AddAllStep(t, es[..i], es[i]);
  }

  /** A failed prefix fails the whole run. */
  lemma PrefixFails(t: Tally, es: seq<Entry>, n: nat)
    requires n <= |es| && AddAll(t, es[..n]).Err?
    ensures AddAll(t, es) == AddAll(t, es[..n])
  {
    assert es == es[..n] + es[n..];
    AddAllErrSticks(t, es[..n], es[n..]);
  }

  /** A run fails exactly when some entry's key is an inherited name, and then with the
      TypeError of `.titles.push`. */
  lemma {:induction false} AddAllFails(t: Tally, es: seq<Entry>)
    ensures AddAll(t, es).Err? <==> exists i :: 0 <= i < |es| && es[i].key in InheritedNames
    ensures AddAll(t, es).Err? ==> AddAll(t, es).message == PushOnUndefined
  {
    if es != [] {
      var init, last := es[..|es| - 1], es[|es| - 1];
      AddAllFails(t, init);
      if exists i :: 0 <= i < |init| && init[i].key in InheritedNames {
        var i :| 0 <= i < |init| && init[i].key in InheritedNames;
        assert es[i] == init[i];
      }
      if exists i :: 0 <= i < |es| && es[i].key in InheritedNames {
        var i :| 0 <= i < |es| && es[i].key in InheritedNames;
        if i < |init| { assert init[i] == es[i]; }
      }
    }
  }

  /** A successful run keeps the tally well formed and counts every entry once. */
  lemma {:induction false} AddAllValid(t: Tally, es: seq<Entry>)
    requires ValidTally(t) && AddAll(t, es).Ok?
    ensures ValidTally(AddAll(t, es).value)
    ensures Total(AddAll(t, es).value) == Total(t) + |es|
  {
    if es != [] {
      var init, last := es[..|es| - 1], es[|es| - 1];
      AddAllValid(t, init);
      AddValid(AddAll(t, init).value, last.key, last.title, last.rating);
    }
  }

  /** The number of entries under `k`. */
  function Occurrences(es: seq<Entry>, k: string): nat {
    if es == [] then 0
    else Occurrences(es[..|es| - 1], k) + (if es[|es| - 1].key == k then 1 else 0)
  }

  /** The titles of the entries under `k`, in order. */
  function TitlesUnder(es: seq<Entry>, k: string): seq<string> {
    if es == [] then []
    else TitlesUnder(es[..|es| - 1], k) + (if es[|es| - 1].key == k then [es[|es| - 1].title] else [])
  }

  /** The sum of the ratings of the entries under `k`. */
  function RatingUnder(es: seq<Entry>, k: string): real {
    if es == [] then 0.0
    else RatingUnder(es[..|es| - 1], k) + (if es[|es| - 1].key == k then es[|es| - 1].rating else 0.0)
  }

  /** The stat of a key, all zero when absent. */
  function StatOf(t: Tally, k: string): Stat {
    if k in t.stats then t.stats[k] else Stat(0, 0.0, [])
  }

  /** After a successful run each key's stat has grown by exactly the entries under it: their
      number, their ratings and their titles in order. */
  lemma {:induction false} AddAllStat(t: Tally, es: seq<Entry>, k: string)
    requires AddAll(t, es).Ok?
    ensures var s, s0 := StatOf(AddAll(t, es).value, k), StatOf(t, k);
      s.count == s0.count + Occurrences(es, k) &&
      s.totalRating == s0.totalRating + RatingUnder(es, k) &&
      s.titles == s0.titles + TitlesUnder(es, k)
  {
    if es != [] {
      var init, last := es[..|es| - 1], es[|es| - 1];
      AddAllStat(t, init, k);
      var u := AddAll(t, init).value;
      if last.key == k {
        AddStatOf(u, last, k);
      }
    }
  }

  lemma AddStatOf(u: Tally, e: Entry, k: string)
    requires e.key == k && Add(u, e.key, e.title, e.rating).Ok?
    ensures var s, s0 := StatOf(Add(u, e.key, e.title, e.rating).value, k), StatOf(u, k);
      s == Stat(s0.count + 1, s0.totalRating + e.rating, s0.titles + [e.title])
  {
  }

  /** The in-place update both loops of `statsService` perform: `if (!stats[key]) stats[key]
      = {count: 0, totalRating: 0, titles: []}`, then `count++`, `totalRating += rating` and
      `titles.push(title)`. It does what `Add` describes. */
  method Record(stats: map<string, Stat>, order: seq<string>, key: string, title: string, rating: real)
    returns (stats': map<string, Stat>, order': seq<string>)
    requires key !in InheritedNames
    ensures Add(Tally(stats, order), key, title, rating) == Ok(Tally(stats', order'))
  {
    stats', order' := stats, order;
    if key !in stats' {
      stats' := stats'[key := Stat(0, 0.0, [])];
      order' := order' + [key];
    }
    ghost var created := stats';
    var s := stats'[key];
    stats' := stats'[key := Stat(s.count + 1, s.totalRating + rating, s.titles + [title])];
    if key !in stats {
      assert s.titles + [title] == [title];
      assert stats' == stats[key := Stat(1, 0.0 + rating, [title])] by {
        assert created == stats[key := Stat(0, 0.0, [])];
      }
    }
  }

  /** The count of a key, 0 when absent. */
  function CountOf(t: Tally, k: string): nat {
    if k in t.stats then t.stats[k].count else 0
  }

  /** The comparator of the count sort, `b[1].count - a[1].count`: larger counts first. */
  function ByCount(t: Tally): (string, string) -> bool {
    (a, b) => CountOf(t, a) > CountOf(t, b)
  }

  /** The key order of the emitted object: `Object.entries` in object order, stably sorted by
      count, then collected into a fresh object, which enumerates in object order again. */
  function EmittedKeys(t: Tally): seq<string> {
    OwnKeys(Sort(OwnKeys(t.order), ByCount(t)))
  }

  datatype Row = Row(key: string, count: nat, totalRating: real, avgRating: real, titles: seq<string>)

  /** The emitted entry for `k`; `avgRating` is `totalRating / count` before `toFixed(2)`. */
  function RowOf(t: Tally, k: string): Row {
    if k in t.stats && t.stats[k].count > 0 then
      var s := t.stats[k];
      Row(k, s.count, s.totalRating, s.totalRating / s.count as real, s.titles)
    else Row(k, 0, 0.0, 0.0, [])
  }

  lemma EmittedPermutes(t: Tally)
    ensures multiset(EmittedKeys(t)) == multiset(t.order)
  {
    OwnKeysPermutes(t.order);
    SortPermutes(OwnKeys(t.order), ByCount(t));
    OwnKeysPermutes(Sort(OwnKeys(t.order), ByCount(t)));
  }

  /** The emitted object: one row per key, in emission order. */
  function Emitted(t: Tally): (rows: seq<Row>)
    ensures |rows| == |t.order|
  {
    var keys := EmittedKeys(t);
    seq(|keys|, i requires 0 <= i < |keys| => RowOf(t, keys[i]))
  }

  lemma {:induction false} NoDupMultiplicity<T>(s: seq<T>, x: T)
    requires NoDup(s)
    ensures multiset(s)[x] <= 1
  {
    if s != [] {
      var init := s[..|s| - 1];
      assert NoDup(init);
      NoDupMultiplicity(init, x);
      assert s == init + [s[|s| - 1]];
      if x == s[|s| - 1] {
        assert x !in init;
      }
    }
  }

  lemma NoDupOfPermutation<T>(a: seq<T>, b: seq<T>)
    requires NoDup(a) && multiset(a) == multiset(b)
    ensures NoDup(b)
  {
    forall i, j | 0 <= i < j < |b| ensures b[i] != b[j] {
      var x := b[i];
      NoDupMultiplicity(a, x);
      assert b == b[..j] + [b[j]] + b[j + 1..];
      assert x in b[..j];
      assert multiset(b)[x] >= multiset(b[..j])[x] + multiset([b[j]])[x];
    }
  }

  /** Each key is emitted once: `total`, the number of emitted keys, is the number of
      distinct keys counted. */
  lemma EmittedOnce(t: Tally)
    requires ValidTally(t)
    ensures NoDup(EmittedKeys(t))
    ensures forall k :: k in t.stats <==> k in EmittedKeys(t)
  {
    EmittedPermutes(t);
    NoDupOfPermutation(t.order, EmittedKeys(t));
    forall k ensures k in t.stats <==> k in EmittedKeys(t) {
      assert k in t.order <==> k in multiset(t.order);
      assert k in EmittedKeys(t) <==> k in multiset(EmittedKeys(t));
    }
  }

  /** Every emitted row carries one title per count. */
  lemma EmittedRowShape(t: Tally, i: nat)
    requires ValidTally(t) && i < |t.order|
    ensures Emitted(t)[i].key == EmittedKeys(t)[i]
    ensures Emitted(t)[i].count == CountOf(t, EmittedKeys(t)[i]) == |Emitted(t)[i].titles| >= 1
  {
    EmittedOnce(t);
    assert EmittedKeys(t)[i] in EmittedKeys(t);
  }

  /** The rows with named (non-index) keys come out in non-increasing count order. */
  lemma NamedRowsByCount(t: Tally, i: nat, j: nat)
    requires i < j < |t.order|
    requires IsNamedKey(EmittedKeys(t)[i]) && IsNamedKey(EmittedKeys(t)[j])
    ensures CountOf(t, EmittedKeys(t)[i]) >= CountOf(t, EmittedKeys(t)[j])
  {
    var f := ByCount(t);
    var sk := Sort(OwnKeys(t.order), f);
    assert StrictWeakOrder(f);
    StrictWeakOrderEverywhere(OwnKeys(t.order), f);
    SortSorted(OwnKeys(t.order), f);
    OwnKeysNamedOrder(sk, f, i, j);
  }

  /** Index keys are emitted before every named key, whatever their counts. */
  lemma IndexRowsFirst(t: Tally, i: nat, j: nat)
    requires i < j < |t.order| && IsIndexKey(EmittedKeys(t)[j])
    ensures IsIndexKey(EmittedKeys(t)[i])
  {
    OwnKeysIndexFirst(Sort(OwnKeys(t.order), ByCount(t)), i, j);
  }

  /** So the count order breaks down: "Action" counted twice, then "2024" once, are emitted
      as "2024" first. */
  lemma CountOrderBroken()
    ensures var t := Tally(map["Action" := Stat(2, 0.0, ["A", "B"]), "2024" := Stat(1, 0.0, ["C"])],
                           ["Action", "2024"]);
      EmittedKeys(t) == ["2024", "Action"] && CountOf(t, "2024") < CountOf(t, "Action")
  {
    var t := Tally(map["Action" := Stat(2, 0.0, ["A", "B"]), "2024" := Stat(1, 0.0, ["C"])],
                   ["Action", "2024"]);
    IndexKeyJumpsAhead();
    var f := ByCount(t);
    assert f("Action", "2024");
    assert ["2024", "Action"][..1] == ["2024"] && ["2024"][..0] == [];
    assert Sort(["2024", "Action"], f) == Insert(["2024"], "Action", f);
    assert Insert(["2024"], "Action", f) == Insert([], "Action", f) + ["2024"];
  }
}
