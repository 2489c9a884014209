/**
  Values and sources shared by both merge iterators.

  An element is an `Item`: a `key` that decides the order and a `data` payload
  that the order ignores, like the time-stamped records of the crate's tests
  (for plain integers, `key` is the integer itself). A source is a `Cursor`: an
  immutable sequence and the index of the next element to hand out, which is
  what a slice iterator is.
 */
module Items {

  datatype Option<T> = None | Some(value: T)

  /** An element of an input sequence, compared by `key` alone. */
  datatype Item<D> = Item(key: int, data: D)

  /** The sequence holding the value of `h`, if there is one. */
  function Cached<T>(h: Option<T>): (s: seq<T>)
    ensures |s| <= 1
    ensures h.None? <==> s == []
  {
    match h
    case None => []
    case Some(x) => [x]
  }

  /** `s` is non-decreasing by key. */
  ghost predicate Sorted<D>(s: seq<Item<D>>) {
    forall i, j :: 0 <= i < j < |s| ==> s[i].key <= s[j].key
  }

  /** Every element of `m` has a key of at least `k`. */
  ghost predicate AllAtLeast<D>(k: int, m: multiset<Item<D>>) {
    forall x | x in m :: k <= x.key
  }

  /** The head of a sorted sequence is a least element. */
  lemma SortedHeadIsLeast<D>(s: seq<Item<D>>)
    requires Sorted(s) && s != []
    ensures AllAtLeast(s[0].key, multiset(s))
  {
    forall x | x in multiset(s) ensures s[0].key <= x.key {
      var i :| 0 <= i < |s| && s[i] == x;
    }
  }

  /** Putting an element no greater than the rest in front of a sorted sequence keeps it sorted. */
  lemma SortedCons<D>(x: Item<D>, s: seq<Item<D>>)
    requires Sorted(s) && AllAtLeast(x.key, multiset(s))
    ensures Sorted([x] + s)
  {
    forall j | 0 <= j < |s| ensures x.key <= s[j].key {
      assert s[j] in multiset(s);
    }
  }

  /** A non-empty sequence holds its head and the elements of its tail. */
  lemma MultisetHeadTail<T>(s: seq<T>)
    requires s != []
    ensures multiset(s) == multiset{s[0]} + multiset(s[1..])
  {
    assert s == [s[0]] + s[1..];
  }

  /** Putting `x` in front of a sequence adds one `x` to its elements. */
  lemma MultisetCons<T>(x: T, s: seq<T>)
    ensures multiset([x] + s) == multiset{x} + multiset(s)
  {
  }

  /** The elements of `s` whose key is `k`, in the order of `s`. */
  function WithKey<D>(s: seq<Item<D>>, k: int): seq<Item<D>> {
    if s == [] then []
    else (if s[0].key == k then [s[0]] else []) + WithKey(s[1..], k)
  }

  /** In a sorted sequence whose first key exceeds `k`, no element has key `k`. */
  lemma {:induction false} WithKeyAbove<D>(s: seq<Item<D>>, k: int)
    requires Sorted(s)
    requires s != [] ==> k < s[0].key
    ensures WithKey(s, k) == []
  {
    if s != [] {
      assert Sorted(s[1..]);
      WithKeyAbove(s[1..], k);
    }
  }

  /**
    A slice iterator over `data`: `pos` elements have been handed out.
    Once it has run out it keeps answering `None` (it is fused).
   */
  datatype Cursor<T> = Cursor(data: seq<T>, pos: nat) {

    /** What the iterator has not yet handed out. */
    function Rest(): seq<T> {
      if pos <= |data| then data[pos..] else []
    }

    /** `Iterator::next`: the next element and the advanced iterator. */
    function Next(): (r: (Option<T>, Cursor<T>))
      ensures r.1.data == data
      ensures r.0.None? <==> |data| <= pos
      ensures r.0.None? ==> r.1 == this
      ensures r.0.Some? ==> r.1.pos == pos + 1 && r.0.value == data[pos]
    {
      if pos < |data| then (Some(data[pos]), Cursor(data, pos + 1)) else (None, this)
    }
  }

  /** Pulling loses nothing: what was unread is the pulled element, if any, then what is unread after. */
  lemma NextRest<T>(c: Cursor<T>)
    ensures c.Rest() == Cached(c.Next().0) + c.Next().1.Rest()
    ensures c.Next().0.None? <==> c.Rest() == []
  {
  }
}
