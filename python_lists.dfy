/** Python list indexing and deletion, as the task lists use them. */
module PyLists {
  import opened Outcomes

  /** The position `xs[ix]` and `del xs[ix]` address in a list of length `n`: a negative
      index counts from the end; anything else out of range is the IndexError. */
  function PyIndex(ix: int, n: nat): (r: Option<nat>)
    ensures r.Some? <==> -(n as int) <= ix < n
    ensures r.Some? ==> r.value < n && (r.value == ix || r.value == n + ix)
  {
    if 0 <= ix < n then Some(ix)
    else if -(n as int) <= ix < 0 then Some(n + ix)
    else None
  }

  /** The list without position `k`. */
  function Delete<T>(xs: seq<T>, k: nat): (r: seq<T>)
    requires k < |xs|
    ensures |r| == |xs| - 1
    ensures forall i :: 0 <= i < k ==> r[i] == xs[i]
    ensures forall i :: k <= i < |r| ==> r[i] == xs[i + 1]
  {
    xs[..k] + xs[k + 1..]
  }

  /** Deleting a position removes exactly that one element. */
  lemma DeleteMultiset<T>(xs: seq<T>, k: nat)
    requires k < |xs|
    ensures multiset(Delete(xs, k)) + multiset{xs[k]} == multiset(xs)
  {
    assert xs == xs[..k] + [xs[k]] + xs[k + 1..];
  }

  /** `del xs[ix]` under Python's index rules; out of range, the list is kept. */
  function DeleteAt<T>(xs: seq<T>, ix: int): (r: seq<T>)
    ensures PyIndex(ix, |xs|).Some? ==> r == Delete(xs, PyIndex(ix, |xs|).value)
    ensures PyIndex(ix, |xs|).None? ==> r == xs
  {
    var k := PyIndex(ix, |xs|);
    if k.Some? then Delete(xs, k.value) else xs
  }

  /** `xs.index(x)`: the first position holding `x`. */
  function IndexOf<T(==)>(xs: seq<T>, x: T): (k: nat)
    requires x in xs
    ensures k < |xs| && xs[k] == x && x !in xs[..k]
  {
    if xs[0] == x then 0
    else
      var k := IndexOf(xs[1..], x);
      assert xs[..k + 1] == [xs[0]] + xs[1..][..k];
      k + 1
  }

  /** `xs.remove(x)` with its ValueError caught: drops the first occurrence, if any. */
  function RemoveFirst<T(==)>(xs: seq<T>, x: T): (r: seq<T>)
    ensures x !in xs ==> r == xs
    ensures |r| == if x in xs then |xs| - 1 else |xs|
  {
    if xs == [] then []
    else if xs[0] == x then xs[1..]
    else [xs[0]] + RemoveFirst(xs[1..], x)
  }

  /** Removing a value deletes exactly the position of its first occurrence. */
  lemma {:induction false} RemoveFirstDeletesFirst<T>(xs: seq<T>, x: T)
    requires x in xs
    ensures RemoveFirst(xs, x) == Delete(xs, IndexOf(xs, x))
  {
    if xs[0] == x {
      assert xs[..0] + xs[1..] == xs[1..];
    } else {
      RemoveFirstDeletesFirst(xs[1..], x);
      DeleteAfterHead(xs, IndexOf(xs[1..], x));
    }
  }

  /** Deleting past the head keeps the head in front. */
  lemma DeleteAfterHead<T>(xs: seq<T>, k: nat)
    requires k + 1 < |xs|
    ensures Delete(xs, k + 1) == [xs[0]] + Delete(xs[1..], k)
  {
    assert xs[..k + 1] == [xs[0]] + xs[1..][..k];
    assert xs[k + 2..] == xs[1..][k + 1..];
  }
}
