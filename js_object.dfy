/** The order in which a plain JavaScript object enumerates its own string keys (what
    `Object.keys`, `Object.entries` and `JSON.stringify` follow): first the keys that are
    array indices, in ascending numeric order, then every other key in the order it was
    first added. */
module JsObject {
  import opened Text
  import opened Collections
  import opened StableSort

  /** The largest array index, 2^32 - 2. */
  const MaxArrayIndex: nat := 4294967294

  /** A canonical decimal numeral (no leading zero) whose value is an array index. */
  predicate IsIndexKey(k: string) {
    |k| > 0 && AllDigits(k) && (|k| == 1 || k[0] != '0') && DigitsValue(k) <= MaxArrayIndex
  }

  predicate IsNamedKey(k: string) { !IsIndexKey(k) }

  /** The numeric value of an index key; 0 for other keys, which are never compared. */
  function IndexValue(k: string): nat {
    if IsIndexKey(k) then DigitsValue(k) else 0
  }

  function IndexLess(a: string, b: string): bool {
    IndexValue(a) < IndexValue(b)
  }

  /** The enumeration order of an object whose keys were first added in `inserted` order. */
  function OwnKeys(inserted: seq<string>): (r: seq<string>)
    ensures |r| == |inserted|
  {
    SortPermutes(Filter(inserted, IsIndexKey), IndexLess);
    FilterSplits(inserted, IsIndexKey, IsNamedKey);
    assert |multiset(Filter(inserted, IsIndexKey))| + |multiset(Filter(inserted, IsNamedKey))| == |multiset(inserted)|;
    Sort(Filter(inserted, IsIndexKey), IndexLess) + Filter(inserted, IsNamedKey)
  }

  /** Enumeration reorders the keys and neither adds nor drops one. */
  lemma OwnKeysPermutes(inserted: seq<string>)
    ensures multiset(OwnKeys(inserted)) == multiset(inserted)
  {
    SortPermutes(Filter(inserted, IsIndexKey), IndexLess);
    FilterSplits(inserted, IsIndexKey, IsNamedKey);
  }

  /** The index keys fill a prefix of the enumeration, and the named keys the rest. */
  lemma OwnKeysSplit(inserted: seq<string>)
    ensures var n := |Filter(inserted, IsIndexKey)|;
      n <= |OwnKeys(inserted)| &&
      (forall k :: 0 <= k < |OwnKeys(inserted)| ==> (IsIndexKey(OwnKeys(inserted)[k]) <==> k < n)) &&
      OwnKeys(inserted)[n..] == Filter(inserted, IsNamedKey)
  {
    var a, b := Sort(Filter(inserted, IsIndexKey), IndexLess), Filter(inserted, IsNamedKey);
    var o := OwnKeys(inserted);
    SortPermutes(Filter(inserted, IsIndexKey), IndexLess);
    forall k | 0 <= k < |o| ensures IsIndexKey(o[k]) <==> k < |a| {
      if k < |a| {
        assert o[k] == a[k];
        assert a[k] in multiset(Filter(inserted, IsIndexKey));
        FilterFrom(inserted, IsIndexKey, a[k]);
      } else {
        assert o[k] == b[k - |a|];
      }
    }
    assert o[|a|..] == b;
  }

  /** Index keys come first: nothing before an index key is a named key. */
  lemma OwnKeysIndexFirst(inserted: seq<string>, i: nat, j: nat)
    requires i < j < |OwnKeys(inserted)| && IsIndexKey(OwnKeys(inserted)[j])
    ensures IsIndexKey(OwnKeys(inserted)[i])
  {
    OwnKeysSplit(inserted);
  }

  /** The index keys come out in ascending numeric order. */
  lemma OwnKeysIndexAscending(inserted: seq<string>, i: nat, j: nat)
    requires i < j < |OwnKeys(inserted)|
    requires IsIndexKey(OwnKeys(inserted)[i]) && IsIndexKey(OwnKeys(inserted)[j])
    ensures DigitsValue(OwnKeys(inserted)[i]) <= DigitsValue(OwnKeys(inserted)[j])
  {
    var a := Sort(Filter(inserted, IsIndexKey), IndexLess);
    var o := OwnKeys(inserted);
    OwnKeysSplit(inserted);
    assert StrictWeakOrder(IndexLess);
    StrictWeakOrderEverywhere(Filter(inserted, IsIndexKey), IndexLess);
    SortSorted(Filter(inserted, IsIndexKey), IndexLess);
    assert o[i] == a[i] && o[j] == a[j];
    assert !IndexLess(a[j], a[i]);
  }

  /** Named keys keep the relative order they had in `inserted`: if that was sorted by some
      comparator, so are they. */
  lemma OwnKeysNamedOrder(inserted: seq<string>, before: (string, string) -> bool, i: nat, j: nat)
    requires Sorted(inserted, before)
    requires i < j < |OwnKeys(inserted)|
    requires IsNamedKey(OwnKeys(inserted)[i]) && IsNamedKey(OwnKeys(inserted)[j])
    ensures !before(OwnKeys(inserted)[j], OwnKeys(inserted)[i])
  {
    var n := |Filter(inserted, IsIndexKey)|;
    var o, b := OwnKeys(inserted), Filter(inserted, IsNamedKey);
    OwnKeysSplit(inserted);
    FilterSorted(inserted, IsNamedKey, before);
    assert o[i] == b[i - n] && o[j] == b[j - n];
  }

  /** Without index keys, enumeration follows insertion. */
  lemma OwnKeysOfNamed(inserted: seq<string>)
    requires forall i :: 0 <= i < |inserted| ==> IsNamedKey(inserted[i])
    ensures OwnKeys(inserted) == inserted
  {
    FilterAll(inserted, IsNamedKey);
    NoneKept(inserted, IsIndexKey);
  }

  lemma {:induction false} NoneKept(s: seq<string>, p: string -> bool)
    requires forall i :: 0 <= i < |s| ==> !p(s[i])
    ensures Filter(s, p) == []
  {
    if s != [] {
      NoneKept(s[..|s| - 1], p);
    }
  }

  /** "2024" is an index key, so a key "2024" added after "Action" is enumerated first. */
  lemma IndexKeyJumpsAhead()
    ensures OwnKeys(["Action", "2024"]) == ["2024", "Action"]
  {
    assert IsNamedKey("Action") by { assert !IsDigit('A'); }
    assert IsIndexKey("2024") by {
      assert "2024"[..3] == "202" && "202"[..2] == "20" && "20"[..1] == "2" && "2"[..0] == "";
      assert DigitsValue("2024") == 2024;
    }
    var s := ["Action", "2024"];
    assert s[..1] == ["Action"] && s[..1][..0] == [];
    assert Filter(s, IsIndexKey) == ["2024"];
    assert Filter(s, IsNamedKey) == ["Action"];
    assert ["2024"][..0] == [];
  }
}
