/**
  `PrioritySortIterator`: the lazy merge of any number of sources.

  The queue is a vector of slots, each a source and the element last pulled
  from it (its `prio`), ordered by `prio` alone. `next` hands out the `prio`
  of slot 0, refills slot 0 from its source or drops it, and sorts the whole
  queue when slot 0 has become larger than slot 1.

  The specification side is `Drain`, everything the queue hands out from a
  given state on. What a slot still holds is its `Lane`; `Pending` gathers
  the lanes of a queue. When the queue is sorted by `prio` and every lane is
  sorted (`Ordered`), one step keeps it so and hands out a least pending
  element, so the whole output is sorted and a permutation of the inputs.
 */
module PrioritySort {
  import opened Items

  /** `State`: a source and the element last pulled from it. */
  datatype Slot<D> = Slot(src: Cursor<Item<D>>, prio: Item<D>)

  datatype Ordering = Less | Equal | Greater

  /** `Ord for State`: slots compare by their `prio` alone, which compares by key. */
  function Cmp<D>(s: Slot<D>, t: Slot<D>): (o: Ordering) {
    if s.prio.key < t.prio.key then Less
    else if s.prio.key == t.prio.key then Equal
    else Greater
  }

  /** `Cmp` is a total order on slots by key: equal exactly on equal keys, and flipping the arguments flips the answer. */
  lemma CmpIsTotalOrder<D>(s: Slot<D>, t: Slot<D>, u: Slot<D>)
    ensures Cmp(s, t) == Equal <==> s.prio.key == t.prio.key
    ensures Cmp(s, t) == Less <==> Cmp(t, s) == Greater
    ensures Cmp(s, t) != Greater && Cmp(t, u) != Greater ==> Cmp(s, u) != Greater
  {
  }

  /** Everything slot `s` still holds: its `prio`, then what its source has not handed out. */
  function Lane<D>(s: Slot<D>): (l: seq<Item<D>>)
    ensures l != [] && l[0] == s.prio
  {
    [s.prio] + s.src.Rest()
  }

  /** Everything the queue `q` still holds. */
  ghost function Pending<D>(q: seq<Slot<D>>): multiset<Item<D>> {
    if q == [] then multiset{} else multiset(Lane(q[0])) + Pending(q[1..])
  }

  /** The slots of `q` are in non-decreasing `prio` order. */
  ghost predicate SortedByPrio<D>(q: seq<Slot<D>>) {
    forall i, j :: 0 <= i < j < |q| ==> q[i].prio.key <= q[j].prio.key
  }

  /** Every slot of `q` holds a sorted lane. */
  ghost predicate LanesSorted<D>(q: seq<Slot<D>>) {
    forall s | s in q :: Sorted(Lane(s))
  }

  /** The invariant under which the queue hands out its elements in order. */
  ghost predicate Ordered<D>(q: seq<Slot<D>>) {
    SortedByPrio(q) && LanesSorted(q)
  }

  /** Replacing the first slot of a queue replaces that slot's lane in what the queue holds. */
  lemma PendingReplaceFirst<D>(q: seq<Slot<D>>, s: Slot<D>)
    requires q != []
    ensures Pending(q[0 := s]) == multiset(Lane(s)) + Pending(q[1..])
  {
    assert q[0 := s][1..] == q[1..];
  }

  /** The slots of `q` whose `prio` has key `k`, in the order of `q`. */
  function SlotsWithKey<D>(q: seq<Slot<D>>, k: int): seq<Slot<D>> {
    if q == [] then []
    else (if q[0].prio.key == k then [q[0]] else []) + SlotsWithKey(q[1..], k)
  }

  /** A slot put in front of a queue adds its lane to what the queue holds. */
  lemma PendingCons<D>(x: Slot<D>, q: seq<Slot<D>>)
    ensures Pending([x] + q) == multiset(Lane(x)) + Pending(q)
  {
    assert ([x] + q)[1..] == q;
  }

  /**
    Puts `x` into `q` just before the first slot that does not compare below
    it: into a sorted queue, at its place, and ahead of the slots it ties with.
   */
  function Insert<D>(x: Slot<D>, q: seq<Slot<D>>): (r: seq<Slot<D>>)
    ensures |r| == |q| + 1
    ensures r[0] == x || (q != [] && r[0] == q[0])
  {
    if q == [] || Cmp(x, q[0]) != Greater then [x] + q
    else [q[0]] + Insert(x, q[1..])
  }

  /** Inserting adds exactly `x` to the slots. */
  lemma {:induction false} InsertPermutation<D>(x: Slot<D>, q: seq<Slot<D>>)
    ensures multiset(Insert(x, q)) == multiset{x} + multiset(q)
  {
    if q == [] || Cmp(x, q[0]) != Greater {
      MultisetCons(x, q);
    } else {
      InsertPermutation(x, q[1..]);
      MultisetCons(q[0], Insert(x, q[1..]));
      MultisetHeadTail(q);
    }
  }

  /** Inserting adds the lane of `x` to what the queue holds. */
  lemma {:induction false} InsertPending<D>(x: Slot<D>, q: seq<Slot<D>>)
    ensures Pending(Insert(x, q)) == multiset(Lane(x)) + Pending(q)
  {
    if q == [] || Cmp(x, q[0]) != Greater {
      PendingCons(x, q);
    } else {
      InsertPending(x, q[1..]);
      PendingCons(q[0], Insert(x, q[1..]));
    }
  }

  /** Inserting into a queue sorted by `prio` keeps it sorted. */
  lemma {:induction false} InsertSorted<D>(x: Slot<D>, q: seq<Slot<D>>)
    requires SortedByPrio(q)
    ensures SortedByPrio(Insert(x, q))
  {
    if q == [] || Cmp(x, q[0]) != Greater {
    } else {
      assert SortedByPrio(q[1..]);
      InsertSorted(x, q[1..]);
      var r := Insert(x, q[1..]);
      assert q[0].prio.key <= r[0].prio.key;
      assert forall j | 0 < j < |[q[0]] + r| :: ([q[0]] + r)[j] == r[j - 1];
    }
  }

  /**
    `Vec::sort` on the queue, by `Cmp`: a stable sort, written as an
    insertion sort that inserts each slot into the sorted rest.
   */
  function SortByPrio<D>(q: seq<Slot<D>>): (r: seq<Slot<D>>)
    ensures |r| == |q|
  {
    if q == [] then [] else Insert(q[0], SortByPrio(q[1..]))
  }

  /** The sort yields a queue sorted by `prio`. */
  lemma {:induction false} SortByPrioSorted<D>(q: seq<Slot<D>>)
    ensures SortedByPrio(SortByPrio(q))
  {
    if q != [] {
      SortByPrioSorted(q[1..]);
      InsertSorted(q[0], SortByPrio(q[1..]));
    }
  }

  /** The sort keeps every slot, hence everything the queue holds. */
  lemma {:induction false} SortByPrioPermutation<D>(q: seq<Slot<D>>)
    ensures multiset(SortByPrio(q)) == multiset(q)
    ensures Pending(SortByPrio(q)) == Pending(q)
  {
    if q != [] {
      SortByPrioPermutation(q[1..]);
      InsertPermutation(q[0], SortByPrio(q[1..]));
      InsertPending(q[0], SortByPrio(q[1..]));
      MultisetHeadTail(q);
    }
  }

  /** A slot put in front of a queue comes first among the slots of its key. */
  lemma SlotsWithKeyCons<D>(x: Slot<D>, q: seq<Slot<D>>, k: int)
    ensures SlotsWithKey([x] + q, k) == (if x.prio.key == k then [x] else []) + SlotsWithKey(q, k)
  {
    assert ([x] + q)[1..] == q;
  }

  /** Inserting never moves a slot past one of the same key: among slots of key `k`, `x` comes first. */
  lemma {:induction false} InsertKeepsTies<D>(x: Slot<D>, q: seq<Slot<D>>, k: int)
    ensures SlotsWithKey(Insert(x, q), k) == (if x.prio.key == k then [x] else []) + SlotsWithKey(q, k)
  {
    if q == [] || Cmp(x, q[0]) != Greater {
      SlotsWithKeyCons(x, q, k);
    } else {
      var cx: seq<Slot<D>> := if x.prio.key == k then [x] else [];
      var c0: seq<Slot<D>> := if q[0].prio.key == k then [q[0]] else [];
      InsertKeepsTies(x, q[1..], k);
      SlotsWithKeyCons(q[0], Insert(x, q[1..]), k);
      // x lies above q[0], so at most one of them has key k
      assert cx == [] || c0 == [];
      assert c0 + (cx + SlotsWithKey(q[1..], k)) == cx + (c0 + SlotsWithKey(q[1..], k));
    }
  }

  /** The sort is stable: slots of equal key keep their relative order. */
  lemma {:induction false} SortByPrioStable<D>(q: seq<Slot<D>>, k: int)
    ensures SlotsWithKey(SortByPrio(q), k) == SlotsWithKey(q, k)
  {
    if q != [] {
      SortByPrioStable(q[1..], k);
      InsertKeepsTies(q[0], SortByPrio(q[1..]), k);
    }
  }

  /** Slot `s` after its source has handed out its next element, which becomes the new `prio`. */
  function Refilled<D>(s: Slot<D>): (r: Slot<D>)
    requires s.src.Rest() != []
    ensures Lane(r) == Lane(s)[1..]
  {
    NextRest(s.src);
    Slot(s.src.Next().1, s.src.Rest()[0])
  }

  /**
    The update of slot 0 in `next`: hand out its `prio` and pull once from its
    source; a pulled element becomes the new `prio` of slot 0 in place, and an
    exhausted source has its slot removed. No other slot changes.
   */
  function Advance<D>(q: seq<Slot<D>>): (r: (Item<D>, seq<Slot<D>>))
    requires q != []
    ensures r.0 == q[0].prio
    ensures q[0].src.Rest() != [] ==> r.1 == q[0 := Refilled(q[0])]
    ensures q[0].src.Rest() == [] ==> r.1 == q[1..]
  {
    NextRest(q[0].src);
    var pulled := q[0].src.Next();
    if pulled.0.Some? then (q[0].prio, q[0 := Slot(pulled.1, pulled.0.value)])
    else (q[0].prio, q[1..])
  }

  /** Refilling slot 0 gives up exactly its old `prio`. */
  lemma PendingRefill<D>(q: seq<Slot<D>>)
    requires q != [] && q[0].src.Rest() != []
    ensures Pending(q[0 := Refilled(q[0])]) + multiset{q[0].prio} == Pending(q)
  {
    var l := Lane(q[0]);
    MultisetHeadTail(l);
    PendingReplaceFirst(q, Refilled(q[0]));
  }

  /** Advancing gives up exactly the element handed out. */
  lemma AdvancePending<D>(q: seq<Slot<D>>)
    requires q != []
    ensures Pending(Advance(q).1) + multiset{Advance(q).0} == Pending(q)
  {
    if q[0].src.Rest() != [] {
      PendingRefill(q);
    } else {
      assert Lane(q[0]) == [q[0].prio];
    }
  }

  /**
    The conditional sort of `next`: the queue is sorted only when slot 0
    compares above slot 1, and otherwise left as it is.
   */
  function Reorder<D>(q: seq<Slot<D>>): (r: seq<Slot<D>>)
    ensures |r| == |q|
  {
    if |q| >= 2 && Cmp(q[0], q[1]) == Greater then SortByPrio(q) else q
  }

  /** Reordering keeps every slot, hence everything the queue holds. */
  lemma ReorderPermutation<D>(q: seq<Slot<D>>)
    ensures multiset(Reorder(q)) == multiset(q)
    ensures Pending(Reorder(q)) == Pending(q)
  {
    SortByPrioPermutation(q);
  }

  /**
    A queue whose slots after the first are sorted by `prio` is sorted after
    reordering, and an already sorted queue is left untouched.
   */
  lemma ReorderSorted<D>(q: seq<Slot<D>>)
    requires q == [] || SortedByPrio(q[1..])
    ensures SortedByPrio(Reorder(q))
    ensures SortedByPrio(q) ==> Reorder(q) == q
  {
    SortByPrioSorted(q);
    if q != [] && !(|q| >= 2 && Cmp(q[0], q[1]) == Greater) {
      forall i, j | 0 <= i < j < |q| ensures q[i].prio.key <= q[j].prio.key {
        if 0 < i {
          assert q[i] == q[1..][i - 1] && q[j] == q[1..][j - 1];
        } else if 1 < j {
          assert q[1] == q[1..][0] && q[j] == q[1..][j - 1];
        }
      }
    }
  }

  /** One call of `next` on a non-empty queue: the element handed out and the queue after it. */
  function Step<D>(q: seq<Slot<D>>): (r: (Item<D>, seq<Slot<D>>))
    requires q != []
    ensures r.0 == q[0].prio
    ensures |r.1| <= |q|
  {
    var a := Advance(q);
    (a.0, Reorder(a.1))
  }

  /** A step gives up exactly the element it hands out. */
  lemma StepPending<D>(q: seq<Slot<D>>)
    requires q != []
    ensures Pending(Step(q).1) + multiset{Step(q).0} == Pending(q)
  {
    AdvancePending(q);
    ReorderPermutation(Advance(q).1);
  }

  /** Everything the queue hands out from `q` on, one step at a time, until it is empty. */
  ghost function Drain<D>(q: seq<Slot<D>>): seq<Item<D>>
    decreases |Pending(q)|
  {
    if q == [] then []
    else
      StepPending(q);
      [Step(q).0] + Drain(Step(q).1)
  }

  /** The queue hands out everything it holds, each element exactly as often as it is held. */
  lemma {:induction false} DrainPermutation<D>(q: seq<Slot<D>>)
    ensures multiset(Drain(q)) == Pending(q)
    decreases |Pending(q)|
  {
    if q != [] {
      StepPending(q);
      DrainPermutation(Step(q).1);
      MultisetCons(Step(q).0, Drain(Step(q).1));
    }
  }

  /** When every slot's `prio` is at least `k` and every lane is sorted, everything the queue holds is at least `k`. */
  lemma {:induction false} PendingAtLeast<D>(q: seq<Slot<D>>, k: int)
    requires forall i | 0 <= i < |q| :: k <= q[i].prio.key
    requires LanesSorted(q)
    ensures AllAtLeast(k, Pending(q))
  {
    if q != [] {
      assert q[0] in q;
      SortedHeadIsLeast(Lane(q[0]));
      assert forall i | 0 <= i < |q[1..]| :: q[1..][i] == q[i + 1];
      PendingAtLeast(q[1..], k);
    }
  }

  /** In an ordered queue, the `prio` of slot 0 is a least element of everything the queue holds. */
  lemma OrderedHeadIsLeast<D>(q: seq<Slot<D>>)
    requires Ordered(q) && q != []
    ensures AllAtLeast(q[0].prio.key, Pending(q))
  {
    PendingAtLeast(q, q[0].prio.key);
  }

  /** Reordering keeps the lanes, so it keeps them sorted. */
  lemma ReorderKeepsLanes<D>(q: seq<Slot<D>>)
    requires LanesSorted(q)
    ensures LanesSorted(Reorder(q))
  {
    ReorderPermutation(q);
    forall s | s in Reorder(q) ensures Sorted(Lane(s)) {
      assert s in multiset(Reorder(q));
    }
  }

  /**
    Advancing an ordered queue keeps every lane sorted, since the new lane of
    slot 0 is the tail of its old one, and leaves the slots after the first
    sorted by `prio`.
   */
  lemma AdvanceKeepsOrder<D>(q: seq<Slot<D>>)
    requires Ordered(q) && q != []
    ensures LanesSorted(Advance(q).1)
    ensures Advance(q).1 == [] || SortedByPrio(Advance(q).1[1..])
  {
    var r := Advance(q).1;
    assert q[0] in q;
    if q[0].src.Rest() != [] {
      assert r[1..] == q[1..];
      forall s | s in r ensures Sorted(Lane(s)) {
        if s != r[0] {
          var i :| 0 <= i < |r| && r[i] == s;
          assert s == q[i];
        }
      }
    }
  }

  /** One step keeps an ordered queue ordered, and hands out a least element of what it held. */
  lemma StepKeepsOrdered<D>(q: seq<Slot<D>>)
    requires Ordered(q) && q != []
    ensures Ordered(Step(q).1)
    ensures AllAtLeast(Step(q).0.key, Pending(q))
  {
    AdvanceKeepsOrder(q);
    ReorderSorted(Advance(q).1);
    ReorderKeepsLanes(Advance(q).1);
    OrderedHeadIsLeast(q);
  }

  /** An ordered queue hands out its elements in sorted order. */
  lemma {:induction false} DrainSorted<D>(q: seq<Slot<D>>)
    requires Ordered(q)
    ensures Sorted(Drain(q))
    decreases |Pending(q)|
  {
    if q != [] {
      var x, q' := Step(q).0, Step(q).1;
      StepPending(q);
      StepKeepsOrdered(q);
      DrainSorted(q');
      DrainPermutation(q');
      assert AllAtLeast(x.key, multiset(Drain(q')));
      SortedCons(x, Drain(q'));
    }
  }

  /**
    `PrioritySortIterator::new`: pull once from each input; an input that
    yields an element becomes a slot with that element as its `prio`, and an
    empty one is dropped. The slots keep the order of the inputs: nothing is
    sorted.
   */
  function BuildQueue<D>(inputs: seq<seq<Item<D>>>): (q: seq<Slot<D>>)
    ensures |q| <= |inputs|
  {
    if inputs == [] then []
    else
      var pulled := Cursor(inputs[0], 0).Next();
      (if pulled.0.Some? then [Slot(pulled.1, pulled.0.value)] else []) + BuildQueue(inputs[1..])
  }

  /** The inputs that are not empty, in their order. */
  function NonEmpty<D>(inputs: seq<seq<Item<D>>>): seq<seq<Item<D>>> {
    if inputs == [] then []
    else (if inputs[0] != [] then [inputs[0]] else []) + NonEmpty(inputs[1..])
  }

  /** The lanes of the slots of `q`, in order. */
  function Lanes<D>(q: seq<Slot<D>>): (ls: seq<seq<Item<D>>>)
    ensures |ls| == |q|
  {
    if q == [] then [] else [Lane(q[0])] + Lanes(q[1..])
  }

  /** All elements of all inputs, with multiplicity. */
  ghost function Union<D>(inputs: seq<seq<Item<D>>>): multiset<Item<D>> {
    if inputs == [] then multiset{} else multiset(inputs[0]) + Union(inputs[1..])
  }

  /** The heads of the non-empty inputs are in non-decreasing order. */
  ghost predicate HeadsInOrder<D>(inputs: seq<seq<Item<D>>>) {
    forall i, j :: 0 <= i < j < |inputs| && inputs[i] != [] && inputs[j] != [] ==> inputs[i][0].key <= inputs[j][0].key
  }

  /** The slot `new` makes of a non-empty input holds exactly that input, with its first element as `prio`. */
  lemma FirstPullLane<D>(xs: seq<Item<D>>)
    requires xs != []
    ensures Cursor(xs, 0).Next().0 == Some(xs[0])
    ensures Lane(Slot(Cursor(xs, 0).Next().1, xs[0])) == xs
  {
    assert [xs[0]] + xs[1..] == xs;
  }

  /** `new` makes one slot per non-empty input, in input order, each holding the whole of its input. */
  lemma {:induction false} BuildQueueLanes<D>(inputs: seq<seq<Item<D>>>)
    ensures Lanes(BuildQueue(inputs)) == NonEmpty(inputs)
  {
    if inputs != [] {
      BuildQueueLanes(inputs[1..]);
      var rest := BuildQueue(inputs[1..]);
      if inputs[0] != [] {
        FirstPullLane(inputs[0]);
        var x := Slot(Cursor(inputs[0], 0).Next().1, inputs[0][0]);
        assert BuildQueue(inputs) == [x] + rest;
        assert ([x] + rest)[1..] == rest;
      } else {
        assert BuildQueue(inputs) == rest;
      }
    }
  }

  /** The queue `new` makes holds every element of every input. */
  lemma {:induction false} BuildQueuePending<D>(inputs: seq<seq<Item<D>>>)
    ensures Pending(BuildQueue(inputs)) == Union(inputs)
  {
    if inputs != [] {
      BuildQueuePending(inputs[1..]);
      var rest := BuildQueue(inputs[1..]);
      if inputs[0] != [] {
        FirstPullLane(inputs[0]);
        PendingCons(Slot(Cursor(inputs[0], 0).Next().1, inputs[0][0]), rest);
      } else {
        assert BuildQueue(inputs) == rest;
      }
    }
  }

  /** Every slot `new` makes has as `prio` the head of some input, so no less than a bound on all heads. */
  lemma {:induction false} BuildQueueHeadsAtLeast<D>(inputs: seq<seq<Item<D>>>, k: int)
    requires forall i | 0 <= i < |inputs| && inputs[i] != [] :: k <= inputs[i][0].key
    ensures forall s | s in BuildQueue(inputs) :: k <= s.prio.key
  {
    if inputs != [] {
      BuildQueueHeadsAtLeast(inputs[1..], k);
      assert forall i | 0 <= i < |inputs[1..]| :: inputs[1..][i] == inputs[i + 1];
    }
  }

  /** With sorted inputs, every lane `new` makes is sorted. */
  lemma {:induction false} BuildQueueLanesSorted<D>(inputs: seq<seq<Item<D>>>)
    requires forall i | 0 <= i < |inputs| :: Sorted(inputs[i])
    ensures LanesSorted(BuildQueue(inputs))
  {
    if inputs != [] {
      assert forall i | 0 <= i < |inputs[1..]| :: inputs[1..][i] == inputs[i + 1];
      BuildQueueLanesSorted(inputs[1..]);
      if inputs[0] != [] {
        FirstPullLane(inputs[0]);
      }
    }
  }

  /** With the heads of the inputs in order, the queue `new` makes is sorted by `prio`. */
  lemma {:induction false} BuildQueueSortedByPrio<D>(inputs: seq<seq<Item<D>>>)
    requires HeadsInOrder(inputs)
    ensures SortedByPrio(BuildQueue(inputs))
  {
    if inputs != [] {
      var rest := BuildQueue(inputs[1..]);
      assert HeadsInOrder(inputs[1..]);
      BuildQueueSortedByPrio(inputs[1..]);
      if inputs[0] != [] {
        var x := Slot(Cursor(inputs[0], 0).Next().1, inputs[0][0]);
        assert forall i | 0 <= i < |inputs[1..]| && inputs[1..][i] != [] :: inputs[0][0].key <= inputs[1..][i][0].key;
        BuildQueueHeadsAtLeast(inputs[1..], inputs[0][0].key);
        assert BuildQueue(inputs) == [x] + rest;
        forall i, j | 0 <= i < j < |[x] + rest| ensures ([x] + rest)[i].prio.key <= ([x] + rest)[j].prio.key {
          assert rest[j - 1] in rest;
          if 0 < i {
            assert ([x] + rest)[i] == rest[i - 1];
          }
        }
      } else {
        assert BuildQueue(inputs) == rest;
      }
    }
  }

  /** The head of every non-empty input is the `prio` of some slot `new` makes. */
  lemma {:induction false} HeadIsPrio<D>(inputs: seq<seq<Item<D>>>, i: int)
    requires 0 <= i < |inputs| && inputs[i] != []
    ensures exists s :: s in BuildQueue(inputs) && s.prio == inputs[i][0]
  {
    var rest := BuildQueue(inputs[1..]);
    if inputs[0] != [] {
      var x := Slot(Cursor(inputs[0], 0).Next().1, inputs[0][0]);
      assert BuildQueue(inputs) == [x] + rest;
      if i == 0 {
        assert x in BuildQueue(inputs);
      } else {
        assert inputs[1..][i - 1] == inputs[i];
        HeadIsPrio(inputs[1..], i - 1);
        var t :| t in rest && t.prio == inputs[i][0];
        assert t in BuildQueue(inputs);
      }
    } else {
      assert BuildQueue(inputs) == rest;
      assert inputs[1..][i - 1] == inputs[i];
      HeadIsPrio(inputs[1..], i - 1);
    }
  }

  /** The tail of a queue sorted by `prio` is sorted, and its first slot compares below none of the rest. */
  lemma SortedByPrioCons<D>(x: Slot<D>, rest: seq<Slot<D>>)
    requires SortedByPrio([x] + rest)
    ensures SortedByPrio(rest)
    ensures forall t | t in rest :: x.prio.key <= t.prio.key
  {
    var q := [x] + rest;
    forall i, j | 0 <= i < j < |rest| ensures rest[i].prio.key <= rest[j].prio.key {
      assert rest[i] == q[i + 1] && rest[j] == q[j + 1];
    }
    forall t | t in rest ensures x.prio.key <= t.prio.key {
      var k :| 0 <= k < |rest| && rest[k] == t;
      assert q[0] == x && q[k + 1] == t;
    }
  }

  /** Heads in order after the first input, and a first head no greater than the others, are heads in order. */
  lemma HeadsInOrderCons<D>(inputs: seq<seq<Item<D>>>)
    requires inputs != [] && HeadsInOrder(inputs[1..])
    requires forall j | 1 <= j < |inputs| && inputs[0] != [] && inputs[j] != [] :: inputs[0][0].key <= inputs[j][0].key
    ensures HeadsInOrder(inputs)
  {
    forall i, j | 0 <= i < j < |inputs| && inputs[i] != [] && inputs[j] != []
      ensures inputs[i][0].key <= inputs[j][0].key
    {
      if 0 < i {
        assert inputs[i] == inputs[1..][i - 1] && inputs[j] == inputs[1..][j - 1];
      }
    }
  }

  /** The queue `new` makes is sorted by `prio` only when the inputs come in order of their heads. */
  lemma {:induction false} BuildQueueSortedOnlyIfHeadsInOrder<D>(inputs: seq<seq<Item<D>>>)
    requires SortedByPrio(BuildQueue(inputs))
    ensures HeadsInOrder(inputs)
  {
    if inputs != [] {
      var rest := BuildQueue(inputs[1..]);
      if inputs[0] != [] {
        var x := Slot(Cursor(inputs[0], 0).Next().1, inputs[0][0]);
        assert BuildQueue(inputs) == [x] + rest;
        SortedByPrioCons(x, rest);
        BuildQueueSortedOnlyIfHeadsInOrder(inputs[1..]);
        forall j | 1 <= j < |inputs| && inputs[0] != [] && inputs[j] != []
          ensures inputs[0][0].key <= inputs[j][0].key
        {
          assert inputs[1..][j - 1] == inputs[j];
          HeadIsPrio(inputs[1..], j - 1);
        }
      } else {
        assert BuildQueue(inputs) == rest;
        BuildQueueSortedOnlyIfHeadsInOrder(inputs[1..]);
      }
      HeadsInOrderCons(inputs);
    }
  }

  /** The queue `new` makes is sorted by `prio` exactly when the inputs come in order of their heads. */
  lemma BuildQueueSortedIffHeadsInOrder<D>(inputs: seq<seq<Item<D>>>)
    ensures SortedByPrio(BuildQueue(inputs)) <==> HeadsInOrder(inputs)
  {
    if HeadsInOrder(inputs) {
      BuildQueueSortedByPrio(inputs);
    }
    if SortedByPrio(BuildQueue(inputs)) {
      BuildQueueSortedOnlyIfHeadsInOrder(inputs);
    }
  }

  /** Sorting a queue already sorted by `prio` leaves it as it is. */
  lemma {:induction false} SortByPrioOfSorted<D>(q: seq<Slot<D>>)
    requires SortedByPrio(q)
    ensures SortByPrio(q) == q
  {
    if q != [] {
      assert SortedByPrio(q[1..]);
      SortByPrioOfSorted(q[1..]);
      assert [q[0]] + q[1..] == q;
    }
  }

  /** `new` and then `next` until None hands out every element of every input, whatever their order. */
  lemma MergedIsPermutation<D>(inputs: seq<seq<Item<D>>>)
    ensures multiset(Drain(BuildQueue(inputs))) == Union(inputs)
  {
    DrainPermutation(BuildQueue(inputs));
    BuildQueuePending(inputs);
  }

  /** `new` and then `next` until None hands out a sorted sequence when the inputs are sorted and given in order of their heads. */
  lemma MergedIsSortedWhenHeadsInOrder<D>(inputs: seq<seq<Item<D>>>)
    requires forall i | 0 <= i < |inputs| :: Sorted(inputs[i])
    requires HeadsInOrder(inputs)
    ensures Sorted(Drain(BuildQueue(inputs)))
  {
    BuildQueueLanesSorted(inputs);
    BuildQueueSortedByPrio(inputs);
    DrainSorted(BuildQueue(inputs));
  }

  /**
    Because `new` does not sort, two sorted inputs whose heads are out of
    order give an unsorted output: `[5]` and then `[1, 2]` come out as 5, 1, 2.
   */
  lemma UnorderedHeadsGiveUnsortedOutput()
    ensures Sorted([Item(5, ())]) && Sorted([Item(1, ()), Item(2, ())])
    ensures Drain(BuildQueue([[Item(5, ())], [Item(1, ()), Item(2, ())]]))
         == [Item(5, ()), Item(1, ()), Item(2, ())]
    ensures !Sorted(Drain(BuildQueue([[Item(5, ())], [Item(1, ()), Item(2, ())]])))
  {
    var xs, ys := [Item(5, ())], [Item(1, ()), Item(2, ())];
    var q0 := [Slot(Cursor(xs, 1), Item(5, ())), Slot(Cursor(ys, 1), Item(1, ()))];
    var q1 := [Slot(Cursor(ys, 1), Item(1, ()))];
    var q2 := [Slot(Cursor(ys, 2), Item(2, ()))];
    assert BuildQueue([ys]) == q1 + BuildQueue([]);
    assert BuildQueue([xs, ys]) == q0;
    assert Step(q2) == (Item(2, ()), []);
    assert ys[1] == Item(2, ()) && q1[0 := Slot(Cursor(ys, 2), Item(2, ()))] == q2;
    assert Step(q1) == (Item(1, ()), q2);
    assert Step(q0) == (Item(5, ()), q1);
    assert Drain(q2) == [Item(2, ())];
    assert Drain(q1) == [Item(1, ()), Item(2, ())];
    assert Drain(q0) == [Item(5, ()), Item(1, ()), Item(2, ())];
    assert Drain(q0)[0].key > Drain(q0)[1].key;
  }

  /** `new` with the slots sorted by `prio`, as sorted output needs. */
  function BuildSortedQueue<D>(inputs: seq<seq<Item<D>>>): (q: seq<Slot<D>>)
    ensures |q| <= |inputs|
  {
    SortByPrio(BuildQueue(inputs))
  }

  /** The sorted construction holds every input element and, with sorted inputs, is ordered whatever the order of the heads. */
  lemma BuildSortedQueueOrdered<D>(inputs: seq<seq<Item<D>>>)
    requires forall i | 0 <= i < |inputs| :: Sorted(inputs[i])
    ensures Ordered(BuildSortedQueue(inputs))
    ensures Pending(BuildSortedQueue(inputs)) == Union(inputs)
  {
    var q := BuildQueue(inputs);
    BuildQueueLanesSorted(inputs);
    ReorderKeepsLanes(q);
    SortByPrioSorted(q);
    SortByPrioPermutation(q);
    BuildQueuePending(inputs);
    forall s | s in SortByPrio(q) ensures Sorted(Lane(s)) {
      assert s in multiset(SortByPrio(q));
    }
  }

  /** With the sorted construction, any sorted inputs merge into their sorted union. */
  lemma SortedBuildMergesSorted<D>(inputs: seq<seq<Item<D>>>)
    requires forall i | 0 <= i < |inputs| :: Sorted(inputs[i])
    ensures Sorted(Drain(BuildSortedQueue(inputs)))
    ensures multiset(Drain(BuildSortedQueue(inputs))) == Union(inputs)
  {
    BuildSortedQueueOrdered(inputs);
    DrainSorted(BuildSortedQueue(inputs));
    DrainPermutation(BuildSortedQueue(inputs));
  }

  /** Where the heads already come in order, the sorted construction is the construction as written. */
  lemma BuildSortedQueueAgrees<D>(inputs: seq<seq<Item<D>>>)
    requires HeadsInOrder(inputs)
    ensures BuildSortedQueue(inputs) == BuildQueue(inputs)
  {
    BuildQueueSortedByPrio(inputs);
    SortByPrioOfSorted(BuildQueue(inputs));
  }

  /**
    The iterator itself: the queue, updated in place by `next`. The ghost
    `emitted` is what it has handed out and `total` is everything it hands
    out from construction on, so `Valid` says that nothing is lost or made
    up along the way.
   */
  class PrioritySortIterator<D> {
    var queue: seq<Slot<D>>
    ghost var emitted: seq<Item<D>>
    ghost var total: seq<Item<D>>

    ghost predicate Valid()
      reads this
    {
      emitted + Drain(queue) == total
    }

    /** What has been handed out so far is a prefix of the whole output, so it is sorted when the whole output is. */
    lemma EmittedSorted()
      requires Valid() && Sorted(total)
      ensures Sorted(emitted)
      ensures multiset(emitted) <= multiset(total)
    {
      assert forall i | 0 <= i < |emitted| :: emitted[i] == total[i];
      assert total == emitted + Drain(queue);
    }

    /** `new` as written: one slot per non-empty input, in input order. */
    constructor(inputs: seq<seq<Item<D>>>)
      ensures Valid() && emitted == []
      ensures queue == BuildQueue(inputs)
      ensures multiset(total) == Union(inputs)
    {
      var q := BuildQueue(inputs);
      queue, emitted, total := q, [], Drain(q);
      MergedIsPermutation(inputs);
      assert [] + Drain(q) == Drain(q);
    }

    /** `new` followed by a sort of the queue, which any sorted inputs need for sorted output. */
    constructor WithSortedQueue(inputs: seq<seq<Item<D>>>)
      requires forall i | 0 <= i < |inputs| :: Sorted(inputs[i])
      ensures Valid() && emitted == []
      ensures queue == BuildSortedQueue(inputs) && Ordered(queue)
      ensures multiset(total) == Union(inputs) && Sorted(total)
    {
      var q := BuildSortedQueue(inputs);
      queue, emitted, total := q, [], Drain(q);
      assert [] + Drain(q) == Drain(q);
      BuildSortedQueueOrdered(inputs);
      SortedBuildMergesSorted(inputs);
    }

    /**
      `next`: on an empty queue, `None`. Otherwise hand out the `prio` of
      slot 0, pull once from its source, replace the `prio` in place or drop
      the slot, and sort the queue when slot 0 has come to compare above
      slot 1. An ordered queue stays ordered, and what is handed out is no
      greater than anything still pending.
     */
    method Next() returns (r: Option<Item<D>>)
      requires Valid()
      modifies this
      ensures Valid() && total == old(total)
      ensures emitted == old(emitted) + Cached(r)
      ensures r.None? <==> old(queue) == []
      ensures r.None? ==> queue == old(queue)
      ensures r.Some? ==> r.value == old(queue)[0].prio && queue == Step(old(queue)).1
      ensures r.Some? && Ordered(old(queue)) ==> Ordered(queue) && AllAtLeast(r.value.key, old(Pending(queue)))
    {
      if |queue| == 0 {
        return None;
      }
      ghost var q := queue;
      var res := PullFirst();
      SortIfNeeded();
      r := Some(res);
      emitted := emitted + [res];
      NextKeepsTotal(q, old(emitted));
      if Ordered(q) {
        StepKeepsOrdered(q);
      }
    }

    /** The first half of `next`: take the `prio` of slot 0 and refill slot 0 in place, or drop it. */
    method PullFirst() returns (res: Item<D>)
      requires queue != []
      modifies this
      ensures res == old(queue)[0].prio && queue == Advance(old(queue)).1
      ensures emitted == old(emitted) && total == old(total)
    {
      var needsPop := false;
      var pulled := queue[0].src.Next();
      res := queue[0].prio;
      NextRest(queue[0].src);
      if pulled.0.Some? {
        queue := queue[0 := Slot(pulled.1, pulled.0.value)];
      } else {
        needsPop := true;
      }
      if needsPop {
        queue := queue[1..];
      }
    }

    /** The second half of `next`: sort the queue when slot 0 compares above slot 1. */
    method SortIfNeeded()
      modifies this
      ensures queue == Reorder(old(queue))
      ensures emitted == old(emitted) && total == old(total)
    {
      var needsSort := |queue| >= 2 && Cmp(queue[0], queue[1]) == Greater;
      if needsSort {
        queue := SortByPrio(queue);
      }
    }
  }

  /** Handing out one step's element and keeping the queue after it loses nothing of the total. */
  lemma NextKeepsTotal<D>(q: seq<Slot<D>>, emitted: seq<Item<D>>)
    requires q != []
    ensures (emitted + [Step(q).0]) + Drain(Step(q).1) == emitted + Drain(q)
  {
    DrainUnfold(q);
  }

  /** Draining a non-empty queue hands out the element of one step, then drains the queue after it. */
  lemma DrainUnfold<D>(q: seq<Slot<D>>)
    requires q != []
    ensures Drain(q) == [Step(q).0] + Drain(Step(q).1)
  {
  }

  // The scenarios below take the test data as parameters fixed by `requires`
  // rather than as literal arguments: Dafny unfolds recursive functions applied
  // to literals eagerly, which makes these proofs much slower.

  /** Sorting two slots of which the first compares above the second swaps them. */
  lemma SortTwoSwapped<D>(x: Slot<D>, y: Slot<D>)
    requires Cmp(x, y) == Greater
    ensures SortByPrio([x, y]) == [y, x]
  {
    assert [x, y][1..] == [y];
    assert SortByPrio([y]) == Insert(y, []) == [y];
    assert Insert(x, [y]) == [y] + Insert(x, []);
  }

  /** The crate's integer test: `[1, 3, 5]` and `[2, 4]` come out as 1, 2, 3, 4, 5. */
  lemma IntegerScenario(xs: seq<Item<()>>, ys: seq<Item<()>>)
    requires xs == [Item(1, ()), Item(3, ()), Item(5, ())] && ys == [Item(2, ()), Item(4, ())]
    ensures Drain(BuildQueue([xs, ys]))
         == [Item(1, ()), Item(2, ()), Item(3, ()), Item(4, ()), Item(5, ())]
  {
    var i1, i2, i3, i4, i5 := Item(1, ()), Item(2, ()), Item(3, ()), Item(4, ()), Item(5, ());
    var a1, a2 := Slot(Cursor(xs, 1), i1), Slot(Cursor(xs, 2), i3);
    var b1, b2 := Slot(Cursor(ys, 1), i2), Slot(Cursor(ys, 2), i4);
    assert BuildQueue([ys]) == [b1] + BuildQueue([]);
    assert BuildQueue([xs, ys]) == [a1, b1];
    // 1 is handed out; slot a moves on to 3 and the queue is sorted
    assert [a1, b1][0 := a2] == [a2, b1];
    SortTwoSwapped(a2, b1);
    assert Step([a1, b1]) == (i1, [b1, a2]);
    // 2; slot b moves on to 4, sorted again
    assert [b1, a2][0 := b2] == [b2, a2];
    SortTwoSwapped(b2, a2);
    assert Step([b1, a2]) == (i2, [a2, b2]);
    IntegerLastSteps(xs, ys, a2, b2);
    DrainUnfold([b1, a2]);
    DrainUnfold([a1, b1]);
  }

  /** The end of the integer test: 3, then each source runs out after its last element, 4 and 5. */
  lemma IntegerLastSteps(xs: seq<Item<()>>, ys: seq<Item<()>>, a2: Slot<()>, b2: Slot<()>)
    requires xs == [Item(1, ()), Item(3, ()), Item(5, ())] && ys == [Item(2, ()), Item(4, ())]
    requires a2 == Slot(Cursor(xs, 2), Item(3, ())) && b2 == Slot(Cursor(ys, 2), Item(4, ()))
    ensures Drain([a2, b2]) == [Item(3, ()), Item(4, ()), Item(5, ())]
  {
    var i3, i4, i5 := Item(3, ()), Item(4, ()), Item(5, ());
    var a3 := Slot(Cursor(xs, 3), i5);
    // 3; slot a moves on to 5, sorted again
    assert [a2, b2][0 := a3] == [a3, b2];
    SortTwoSwapped(a3, b2);
    assert Step([a2, b2]) == (i3, [b2, a3]);
    // 4 and 5: each source runs out and its slot goes
    assert Step([b2, a3]) == (i4, [a3]);
    assert Step([a3]) == (i5, []);
    assert Drain([a3]) == [i5];
    assert Drain([b2, a3]) == [i4, i5];
    DrainUnfold([a2, b2]);
  }

  /** When slot 0 is sorted in among the others, the sort places it at the first slot it does not compare above. */
  lemma SortFirstIntoSorted<D>(q: seq<Slot<D>>)
    requires q != [] && SortedByPrio(q[1..])
    ensures SortByPrio(q) == Insert(q[0], q[1..])
  {
    SortByPrioOfSorted(q[1..]);
  }

  /**
    The first step of the time-stamped test: slot a moves on to its 2, above
    slot b's 1, and the sort moves slot b to the front.
   */
  lemma TimeStampFirstStep(a1: Slot<string>, a2: Slot<string>, b1: Slot<string>, c1: Slot<string>, d1: Slot<string>)
    requires a1 == Slot(Cursor([Item(0, "h"), Item(2, "l")], 1), Item(0, "h"))
    requires a2 == Slot(Cursor([Item(0, "h"), Item(2, "l")], 2), Item(2, "l"))
    requires b1.prio.key == 1 && c1.prio.key == 8 && d1.prio.key == 9
    ensures Step([a1, b1, c1, d1]) == (Item(0, "h"), [b1, a2, c1, d1])
  {
    var q := [a1, b1, c1, d1];
    assert Refilled(a1) == a2;
    assert q[0 := a2] == [a2, b1, c1, d1];
    assert [a2, b1, c1, d1][1..] == [b1, c1, d1];
    assert SortedByPrio([b1, c1, d1]);
    SortFirstIntoSorted([a2, b1, c1, d1]);
    assert Insert(a2, [d1]) == [a2, d1];
    assert Insert(a2, [c1, d1]) == [a2, c1, d1];
    assert Insert(a2, [b1, c1, d1]) == [b1] + Insert(a2, [c1, d1]);
    assert Reorder([a2, b1, c1, d1]) == [b1, a2, c1, d1];
  }

  /** A non-empty input in front adds its slot in front. */
  lemma BuildQueueCons<D>(xs: seq<Item<D>>, rest: seq<seq<Item<D>>>)
    requires xs != []
    ensures BuildQueue([xs] + rest) == [Slot(Cursor(xs, 1), xs[0])] + BuildQueue(rest)
  {
    assert ([xs] + rest)[1..] == rest;
  }

  /** The queue `new` makes in the time-stamped test: one slot per input, in input order. */
  lemma TimeStampBuild(xa: seq<Item<string>>, xb: seq<Item<string>>, xc: seq<Item<string>>, xd: seq<Item<string>>)
    requires xa == [Item(0, "h"), Item(2, "l")] && xb == [Item(1, "e"), Item(2, "l")]
    requires xc == [Item(8, "o")] && xd == [Item(9, " "), Item(10, "world")]
    ensures BuildQueue([xa, xb, xc, xd])
         == [Slot(Cursor(xa, 1), Item(0, "h")), Slot(Cursor(xb, 1), Item(1, "e")),
             Slot(Cursor(xc, 1), Item(8, "o")), Slot(Cursor(xd, 1), Item(9, " "))]
  {
    BuildQueueCons(xd, []);
    BuildQueueCons(xc, [xd]);
    BuildQueueCons(xb, [xc, xd]);
    BuildQueueCons(xa, [xb, xc, xd]);
  }

  /** The middle of the time-stamped test: slot b refills to its 2 without a sort, then the two 2s leave. */
  lemma TimeStampMiddleSteps(a2: Slot<string>, b1: Slot<string>, b2: Slot<string>, c1: Slot<string>, d1: Slot<string>)
    requires a2 == Slot(Cursor([Item(0, "h"), Item(2, "l")], 2), Item(2, "l"))
    requires b1 == Slot(Cursor([Item(1, "e"), Item(2, "l")], 1), Item(1, "e"))
    requires b2 == Slot(Cursor([Item(1, "e"), Item(2, "l")], 2), Item(2, "l"))
    requires c1.prio.key == 8 && d1.prio.key == 9
    ensures Drain([b1, a2, c1, d1]) == [Item(1, "e"), Item(2, "l"), Item(2, "l")] + Drain([c1, d1])
  {
    assert Refilled(b1) == b2;
    assert [b1, a2, c1, d1][0 := b2] == [b2, a2, c1, d1];
    assert Step([b1, a2, c1, d1]) == (Item(1, "e"), [b2, a2, c1, d1]);
    assert [b2, a2, c1, d1][1..] == [a2, c1, d1];
    assert Step([b2, a2, c1, d1]) == (Item(2, "l"), [a2, c1, d1]);
    assert [a2, c1, d1][1..] == [c1, d1];
    assert Step([a2, c1, d1]) == (Item(2, "l"), [c1, d1]);
    DrainUnfold([a2, c1, d1]);
    DrainUnfold([b2, a2, c1, d1]);
    DrainUnfold([b1, a2, c1, d1]);
  }

  /** The end of the time-stamped test: 8, then 9 and 10. */
  lemma TimeStampLastSteps(c1: Slot<string>, d1: Slot<string>, d2: Slot<string>)
    requires c1 == Slot(Cursor([Item(8, "o")], 1), Item(8, "o"))
    requires d1 == Slot(Cursor([Item(9, " "), Item(10, "world")], 1), Item(9, " "))
    requires d2 == Slot(Cursor([Item(9, " "), Item(10, "world")], 2), Item(10, "world"))
    ensures Drain([c1, d1]) == [Item(8, "o"), Item(9, " "), Item(10, "world")]
  {
    assert Step([c1, d1]) == (Item(8, "o"), [d1]);
    assert Refilled(d1) == d2;
    assert [d1][0 := d2] == [d2];
    assert Step([d1]) == (Item(9, " "), [d2]);
    assert Step([d2]) == (Item(10, "world"), []);
    DrainUnfold([d2]);
    DrainUnfold([d1]);
    DrainUnfold([c1, d1]);
  }

  /**
    The crate's time-stamped test: stamps 0, 2 / 1, 2 / 8 / 9, 10 come out in
    stamp order. The two elements stamped 2 are equal, so either may lead.
   */
  lemma TimeStampScenario(xa: seq<Item<string>>, xb: seq<Item<string>>, xc: seq<Item<string>>, xd: seq<Item<string>>)
    requires xa == [Item(0, "h"), Item(2, "l")] && xb == [Item(1, "e"), Item(2, "l")]
    requires xc == [Item(8, "o")] && xd == [Item(9, " "), Item(10, "world")]
    ensures Drain(BuildQueue([xa, xb, xc, xd]))
         == [Item(0, "h"), Item(1, "e"), Item(2, "l"), Item(2, "l"), Item(8, "o"), Item(9, " "), Item(10, "world")]
  {
    var a1, a2 := Slot(Cursor(xa, 1), Item(0, "h")), Slot(Cursor(xa, 2), Item(2, "l"));
    var b1, b2 := Slot(Cursor(xb, 1), Item(1, "e")), Slot(Cursor(xb, 2), Item(2, "l"));
    var c1 := Slot(Cursor(xc, 1), Item(8, "o"));
    var d1, d2 := Slot(Cursor(xd, 1), Item(9, " ")), Slot(Cursor(xd, 2), Item(10, "world"));
    TimeStampBuild(xa, xb, xc, xd);
    TimeStampFirstStep(a1, a2, b1, c1, d1);
    TimeStampMiddleSteps(a2, b1, b2, c1, d1);
    TimeStampLastSteps(c1, d1, d2);
    DrainUnfold([a1, b1, c1, d1]);
  }
}
