/** The week-8 lab's data-structure exercises: swapping through a tuple, the common names
    of two sets, and the histogram of a list. */
module LabWeek8 {
  /** `tuple_swap(a, b)`: the pair comes back the other way round. */
  function TupleSwap<T>(a: T, b: T): (r: (T, T))
    ensures r.0 == b && r.1 == a
  {
    (b, a)
  }

  /** Swapping twice gives back the original pair. */
  lemma SwapTwice<T>(a: T, b: T)
    ensures var r := TupleSwap(a, b); TupleSwap(r.0, r.1) == (a, b)
  {
  }

  /** `common_names(set1, set2)`: `set1 & set2`. */
  function CommonNames(set1: set<string>, set2: set<string>): (r: set<string>)
    ensures forall x :: x in r <==> x in set1 && x in set2
  {
    set1 * set2
  }

  /** The common names do not depend on which set comes first, and lie in both. */
  lemma CommonNamesSymmetric(set1: set<string>, set2: set<string>)
    ensures CommonNames(set1, set2) == CommonNames(set2, set1)
    ensures CommonNames(set1, set2) <= set1 && CommonNames(set1, set2) <= set2
  {
  }

  /** The dictionary `histogram` has built after reading `lst` from left to right. */
  function HistogramOf<T(==)>(lst: seq<T>): map<T, int>
  {
    if lst == [] then map[]
    else
      var h := HistogramOf(lst[..|lst| - 1]);
      var item := lst[|lst| - 1];
      h[item := (if item in h then h[item] else 0) + 1]
  }

  /** `histogram(lst)`: one pass, `result[item] = result.get(item, 0) + 1` per item. */
  method Histogram<T(==)>(lst: seq<T>) returns (result: map<T, int>)
    ensures result == HistogramOf(lst)
  {
    result := map[];
    for i := 0 to |lst|
      invariant result == HistogramOf(lst[..i])
    {
      assert lst[..i + 1][..i] == lst[..i];
      var item := lst[i];
      result := result[item := (if item in result then result[item] else 0) + 1];
    }
    assert lst[..|lst|] == lst;
  }

  /** The keys are exactly the distinct elements, and each value is that element's number of
      occurrences. */
  lemma {:induction false} HistogramCounts<T>(lst: seq<T>)
    ensures forall x :: x in HistogramOf(lst) <==> x in lst
    ensures forall x :: x in HistogramOf(lst) ==> HistogramOf(lst)[x] == multiset(lst)[x]
  {
    if lst != [] {
      var init := lst[..|lst| - 1];
      HistogramCounts(init);
      assert lst == init + [lst[|lst| - 1]];
    }
  }

  /** The sum of `h`'s values over `keys`. */
  ghost function SumOver<T>(h: map<T, int>, keys: set<T>): int
    requires keys <= h.Keys
    decreases keys
  {
    if keys == {} then 0
    else
      var k :| k in keys;
      h[k] + SumOver(h, keys - {k})
  }

  /** Any key can be taken out of the sum first. */
  lemma {:induction false} SumOverRemove<T>(h: map<T, int>, keys: set<T>, y: T)
    requires keys <= h.Keys && y in keys
    ensures SumOver(h, keys) == h[y] + SumOver(h, keys - {y})
    decreases keys
  {
    var k :| k in keys && SumOver(h, keys) == h[k] + SumOver(h, keys - {k});
    if k != y {
      SumOverRemove(h, keys - {k}, y);
      SumOverRemove(h, keys - {y}, k);
      assert keys - {k} - {y} == keys - {y} - {k};
    }
  }

  /** The sum only looks at the values of the keys it adds up. */
  lemma {:induction false} SumOverAgree<T>(h1: map<T, int>, h2: map<T, int>, keys: set<T>)
    requires keys <= h1.Keys && keys <= h2.Keys
    requires forall k :: k in keys ==> h1[k] == h2[k]
    ensures SumOver(h1, keys) == SumOver(h2, keys)
    decreases keys
  {
    if keys != {} {
      var k :| k in keys && SumOver(h1, keys) == h1[k] + SumOver(h1, keys - {k});
      SumOverRemove(h2, keys, k);
      SumOverAgree(h1, h2, keys - {k});
    }
  }

  /** The counts add up to the length of the list. */
  lemma {:induction false} HistogramTotal<T>(lst: seq<T>)
    ensures SumOver(HistogramOf(lst), HistogramOf(lst).Keys) == |lst|
  {
    if lst != [] {
      var init := lst[..|lst| - 1];
      var item := lst[|lst| - 1];
      var h := HistogramOf(init);
      var h' := HistogramOf(lst);
      HistogramTotal(init);
      if item in h {
        assert h'.Keys == h.Keys;
        SumOverRemove(h', h'.Keys, item);
        SumOverRemove(h, h.Keys, item);
        SumOverAgree(h, h', h.Keys - {item});
      } else {
        assert h'.Keys - {item} == h.Keys;
        SumOverRemove(h', h'.Keys, item);
        SumOverAgree(h, h', h.Keys);
      }
    }
  }

  /** The lab's own example, one item at a time. */
  lemma HistogramExample()
    ensures HistogramOf([1, 2, 3, 1, 2, 3, 4]) == map[1 := 2, 2 := 2, 3 := 2, 4 := 1]
  {
    assert [1][..0] == [];
    assert [1, 2][..1] == [1];
    assert [1, 2, 3][..2] == [1, 2];
    assert [1, 2, 3, 1][..3] == [1, 2, 3];
    assert [1, 2, 3, 1, 2][..4] == [1, 2, 3, 1];
    assert [1, 2, 3, 1, 2, 3][..5] == [1, 2, 3, 1, 2];
    assert [1, 2, 3, 1, 2, 3, 4][..6] == [1, 2, 3, 1, 2, 3];
    assert HistogramOf([1, 2, 3]) == map[1 := 1, 2 := 1, 3 := 1];
    assert HistogramOf([1, 2, 3, 1, 2, 3]) == map[1 := 2, 2 := 2, 3 := 2];
  }
}
