/**
 * Python's `sorted(items, key=...)`: a stable sort on a real-valued key.
 * Items travel with their key as a pair (key, item); a descending sort with
 * `reverse=True` is the ascending sort on the negated key, which keeps
 * equal keys in their original order exactly as Python's does.
 */
module Sorting {

  /** Keys never decrease from left to right. */
  predicate SortedByKey<T>(s: seq<(real, T)>)
  {
    forall i, j :: 0 <= i < j < |s| ==> s[i].0 <= s[j].0
  }

  /** The items of a keyed sequence, in order. */
  function Items<T>(s: seq<(real, T)>): (r: seq<T>)
    ensures |r| == |s|
    ensures forall i :: 0 <= i < |s| ==> r[i] == s[i].1
  {
    if s == [] then [] else [s[0].1] + Items(s[1..])
  }

  /**
   * Inserts `x` in front of the first element whose key is not smaller, so
   * that `x` precedes every element of `s` with an equal key.
   */
  function Insert<T>(x: (real, T), s: seq<(real, T)>): (r: seq<(real, T)>)
    requires SortedByKey(s)
    ensures |r| == |s| + 1
    ensures r[0] == x || (s != [] && r[0] == s[0])
    ensures SortedByKey(r)
  {
    if s == [] || x.0 <= s[0].0 then
      [x] + s
    else
      [s[0]] + Insert(x, s[1..])
  }

  /** Insertion adds `x` and keeps every other pair. */
  lemma {:induction false} InsertPermutes<T>(x: (real, T), s: seq<(real, T)>)
    requires SortedByKey(s)
    ensures multiset(Insert(x, s)) == multiset(s) + multiset{x}
  {
    if s != [] && x.0 > s[0].0 {
      InsertPermutes(x, s[1..]);
      assert s == [s[0]] + s[1..];
    }
  }

  /** Insertion adds the item of `x` to the items. */
  lemma {:induction false} InsertItems<T>(x: (real, T), s: seq<(real, T)>)
    requires SortedByKey(s)
    ensures multiset(Items(Insert(x, s))) == multiset(Items(s)) + multiset{x.1}
  {
    if s == [] || x.0 <= s[0].0 {
      assert Insert(x, s) == [x] + s;
      ItemsCons(x, s);
    } else {
      var rest := Insert(x, s[1..]);
      assert Insert(x, s) == [s[0]] + rest;
      ItemsCons(s[0], rest);
      InsertItems(x, s[1..]);
      SplitFirst(s);
      assert multiset(Items(Insert(x, s))) == multiset(Items(s[1..])) + multiset{x.1} + multiset{s[0].1};
    }
  }

  /** Stable insertion sort by key: each element goes in front of the equal keys that follow it. */
  function SortByKey<T>(s: seq<(real, T)>): (r: seq<(real, T)>)
    ensures SortedByKey(r)
    ensures multiset(r) == multiset(s)
    ensures |r| == |s|
  {
    if s == [] then []
    else
      var rest := SortByKey(s[1..]);
      assert s == [s[0]] + s[1..];
      InsertPermutes(s[0], rest);
      Insert(s[0], rest)
  }

  /** Sorting permutes the items. */
  lemma {:induction false} SortByKeyItems<T>(s: seq<(real, T)>)
    ensures multiset(Items(SortByKey(s))) == multiset(Items(s))
  {
    if s != [] {
      SortByKeyItems(s[1..]);
      InsertItems(s[0], SortByKey(s[1..]));
      SplitFirst(s);
    }
  }

  /** Taking a sequence apart at its first element, for multisets of pairs and of items. */
  lemma SplitFirst<T>(s: seq<(real, T)>)
    requires s != []
    ensures multiset(s) == multiset(s[1..]) + multiset{s[0]}
    ensures multiset(Items(s)) == multiset(Items(s[1..])) + multiset{s[0].1}
  {
    assert s == [s[0]] + s[1..];
    ItemsCons(s[0], s[1..]);
  }

  lemma ItemsCons<T>(x: (real, T), s: seq<(real, T)>)
    ensures Items([x] + s) == [x.1] + Items(s)
    ensures multiset(Items([x] + s)) == multiset(Items(s)) + multiset{x.1}
  {
    assert ([x] + s)[1..] == s;
    assert multiset([x.1] + Items(s)) == multiset{x.1} + multiset(Items(s));
  }

  /** Every pair of the sorted sequence is one of the input's pairs. */
  lemma {:induction false} SortedPairsComeFromInput<T>(s: seq<(real, T)>, i: nat)
    requires i < |s|
    ensures SortByKey(s)[i] in s
  {
    var r := SortByKey(s);
    assert r[i] in multiset(r);
  }
}
