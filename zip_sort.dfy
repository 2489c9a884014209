/**
  `ZipSortIterator`: the lazy merge of exactly two sources.

  The specification side is `Merge`, the whole output of merging what is still
  to come from side `a` and side `b`. The iterator's ghost field `emitted`
  followed by `Merge` of its two pending sequences is always the merge of the
  two inputs, so every property proved of `Merge` (sorted, a permutation,
  ties go to `a`) is a property of what `Next` hands out.
 */
module ZipSort {
  import opened Items

  /** The next element comes from `a`: `a` has one, and `b` has none or a head no smaller (ties go to `a`). */
  predicate TakesA<D>(pa: seq<Item<D>>, pb: seq<Item<D>>) {
    pa != [] && (pb == [] || pa[0].key <= pb[0].key)
  }

  /** The next element comes from `b`. */
  predicate TakesB<D>(pa: seq<Item<D>>, pb: seq<Item<D>>) {
    pb != [] && !TakesA(pa, pb)
  }

  /**
    The `match` on the two cached heads: the head to hand out, and whether to
    refill side `a` or side `b`. It makes the choice `Merge` makes: the smaller
    head, `a`'s on a tie, and nothing when both heads are gone. Its contract
    describes the choice on the heads alone; `SelectStep` ties it to `Merge`.
   */
  function Select<D>(aHead: Option<Item<D>>, bHead: Option<Item<D>>): (s: (Option<Item<D>>, bool, bool))
    ensures s.1 <==> aHead.Some? && (bHead.None? || aHead.value.key <= bHead.value.key)
    ensures s.2 <==> bHead.Some? && !s.1
    ensures s.0 == (if s.1 then aHead else if s.2 then bHead else None)
  {
    match (aHead, bHead)
    case (Some(x), Some(y)) => if x.key <= y.key then (Some(x), true, false) else (Some(y), false, true)
    case (Some(x), None) => (Some(x), true, false)
    case (None, Some(y)) => (Some(y), false, true)
    case (None, None) => (None, false, false)
  }

  /** Everything the merge hands out when `pa` and `pb` are still to come. */
  ghost function Merge<D>(pa: seq<Item<D>>, pb: seq<Item<D>>): seq<Item<D>>
    decreases |pa| + |pb|
  {
    if TakesA(pa, pb) then [pa[0]] + Merge(pa[1..], pb)
    else if pb != [] then [pb[0]] + Merge(pa, pb[1..])
    else []
  }

  /** One step of the merge: the side `TakesA`/`TakesB` picks gives up its head. */
  lemma MergeStep<D>(pa: seq<Item<D>>, pb: seq<Item<D>>)
    ensures TakesA(pa, pb) ==> Merge(pa, pb) == [pa[0]] + Merge(pa[1..], pb)
    ensures TakesB(pa, pb) ==> Merge(pa, pb) == [pb[0]] + Merge(pa, pb[1..])
    ensures Merge(pa, pb) == [] <==> pa == [] && pb == []
  {
  }

  /** `h` is the first of the elements of `xs` that follow the `i` handed out, if there is one. */
  ghost predicate HeadOf<D>(h: Option<Item<D>>, xs: seq<Item<D>>, i: nat) {
    i <= |xs| && (h.Some? <==> i < |xs|) && (h.Some? ==> h.value == xs[i])
  }

  /** `e` is handed out, and what remains is the merge of what follows `i` in `xs` and `j` in `ys`. */
  ghost predicate Accounted<D>(e: seq<Item<D>>, xs: seq<Item<D>>, ys: seq<Item<D>>, i: nat, j: nat) {
    i <= |xs| && j <= |ys| && e + Merge(xs[i..], ys[j..]) == Merge(xs, ys)
  }

  /**
    Choosing between the two heads is one step of the merge: `Select` picks the
    side `Merge` picks, hands out that side's next element, and once it has
    been appended to what was handed out, the rest is still the merge of what
    follows.
   */
  lemma SelectStep<D>(e: seq<Item<D>>, xs: seq<Item<D>>, ys: seq<Item<D>>, i: nat, j: nat,
                      ha: Option<Item<D>>, hb: Option<Item<D>>, i': nat, j': nat)
    requires Accounted(e, xs, ys, i, j) && HeadOf(ha, xs, i) && HeadOf(hb, ys, j)
    requires i' == (if Select(ha, hb).1 then i + 1 else i)
    requires j' == (if Select(ha, hb).2 then j + 1 else j)
    ensures Select(ha, hb).1 <==> TakesA(xs[i..], ys[j..])
    ensures Select(ha, hb).2 <==> TakesB(xs[i..], ys[j..])
    ensures Select(ha, hb).1 ==> Select(ha, hb).0 == Some(xs[i])
    ensures Select(ha, hb).2 ==> Select(ha, hb).0 == Some(ys[j])
    ensures Select(ha, hb).0.None? <==> i == |xs| && j == |ys|
    ensures Accounted(e + Cached(Select(ha, hb).0), xs, ys, i', j')
  {
    var pa, pb := xs[i..], ys[j..];
    MergeStep(pa, pb);
    if TakesA(pa, pb) {
      assert pa[1..] == xs[i + 1..];
      assert (e + [pa[0]]) + Merge(pa[1..], pb) == e + ([pa[0]] + Merge(pa[1..], pb));
    } else if TakesB(pa, pb) {
      assert pb[1..] == ys[j + 1..];
      assert (e + [pb[0]]) + Merge(pa, pb[1..]) == e + ([pb[0]] + Merge(pa, pb[1..]));
    }
  }

  /** The merge hands out every element of both sides, each exactly as often as it occurs. */
  lemma {:induction false} MergePermutation<D>(pa: seq<Item<D>>, pb: seq<Item<D>>)
    ensures multiset(Merge(pa, pb)) == multiset(pa) + multiset(pb)
    decreases |pa| + |pb|
  {
    if TakesA(pa, pb) {
      MergePermutation(pa[1..], pb);
      MultisetHeadTail(pa);
      MultisetCons(pa[0], Merge(pa[1..], pb));
    } else if pb != [] {
      MergePermutation(pa, pb[1..]);
      MultisetHeadTail(pb);
      MultisetCons(pb[0], Merge(pa, pb[1..]));
    }
  }

  /** The merge is exactly as long as both sides together. */
  lemma MergeLength<D>(pa: seq<Item<D>>, pb: seq<Item<D>>)
    ensures |Merge(pa, pb)| == |pa| + |pb|
  {
    MergePermutation(pa, pb);
    assert |multiset(Merge(pa, pb))| == |multiset(pa) + multiset(pb)|;
  }

  /** When both sides are sorted, so is the merge. */
  lemma {:induction false} MergeSorted<D>(pa: seq<Item<D>>, pb: seq<Item<D>>)
    requires Sorted(pa) && Sorted(pb)
    ensures Sorted(Merge(pa, pb))
    decreases |pa| + |pb|
  {
    if TakesA(pa, pb) {
      assert Sorted(pa[1..]);
      MergeSorted(pa[1..], pb);
      MergePermutation(pa[1..], pb);
      SortedHeadIsLeast(pa);
      MultisetHeadTail(pa);
      if pb != [] {
        SortedHeadIsLeast(pb);
      }
      SortedCons(pa[0], Merge(pa[1..], pb));
    } else if pb != [] {
      assert Sorted(pb[1..]);
      MergeSorted(pa, pb[1..]);
      MergePermutation(pa, pb[1..]);
      SortedHeadIsLeast(pb);
      MultisetHeadTail(pb);
      if pa != [] {
        SortedHeadIsLeast(pa);
      }
      SortedCons(pb[0], Merge(pa, pb[1..]));
    }
  }

  /**
    Among elements of equal key, all of `a`'s come first, each side in its own
    order: the tie-break toward `a` makes the merge deterministic.
   */
  lemma {:induction false} MergeTiesFavourA<D>(pa: seq<Item<D>>, pb: seq<Item<D>>, k: int)
    requires Sorted(pa) && Sorted(pb)
    ensures WithKey(Merge(pa, pb), k) == WithKey(pa, k) + WithKey(pb, k)
    decreases |pa| + |pb|
  {
    if TakesA(pa, pb) {
      assert Sorted(pa[1..]);
      MergeTiesFavourA(pa[1..], pb, k);
      assert ([pa[0]] + Merge(pa[1..], pb))[1..] == Merge(pa[1..], pb);
    } else if pb != [] {
      assert Sorted(pb[1..]);
      MergeTiesFavourA(pa, pb[1..], k);
      assert ([pb[0]] + Merge(pa, pb[1..]))[1..] == Merge(pa, pb[1..]);
      if pb[0].key == k {
        WithKeyAbove(pa, k);
      }
    }
  }

  // The scenarios below take the test data as parameters fixed by `requires`
  // rather than as literal arguments: Dafny unfolds recursive functions applied
  // to literals eagerly, which makes these proofs much slower.

  /** The concrete run of the crate's first integer test. */
  lemma MergeIntegerScenario(pa: seq<Item<()>>, pb: seq<Item<()>>)
    requires pa == [Item(1, ()), Item(3, ()), Item(5, ())] && pb == [Item(2, ()), Item(4, ())]
    ensures Merge(pa, pb)
         == [Item(1, ()), Item(2, ()), Item(3, ()), Item(4, ()), Item(5, ())]
  {
    var i1, i2, i3, i4, i5 := Item(1, ()), Item(2, ()), Item(3, ()), Item(4, ()), Item(5, ());
    MergeStep([i5], []);
    assert Merge([i5], []) == [i5] + Merge([], []);
    MergeStep([i5], [i4]);
    assert Merge([i5], [i4]) == [i4] + Merge([i5], []);
    MergeStep([i3, i5], [i4]);
    assert Merge([i3, i5], [i4]) == [i3] + Merge([i5], [i4]);
    MergeStep([i3, i5], [i2, i4]);
    assert Merge([i3, i5], [i2, i4]) == [i2] + Merge([i3, i5], [i4]);
    MergeStep([i1, i3, i5], [i2, i4]);
    assert Merge([i1, i3, i5], [i2, i4]) == [i1] + Merge([i3, i5], [i2, i4]);
  }

  /** The concrete run of the crate's integer test with repeated values: the 4 of `a` comes before those of `b`. */
  lemma MergeDuplicatesScenario(pa: seq<Item<char>>, pb: seq<Item<char>>)
    requires pa == [Item(1, 'a'), Item(3, 'a'), Item(4, 'a'), Item(5, 'a')]
    requires pb == [Item(2, 'b'), Item(4, 'b'), Item(4, 'b'), Item(4, 'b'), Item(4, 'b')]
    ensures Merge(pa, pb)
         == [Item(1, 'a'), Item(2, 'b'), Item(3, 'a'), Item(4, 'a'), Item(4, 'b'),
             Item(4, 'b'), Item(4, 'b'), Item(4, 'b'), Item(5, 'a')]
  {
    var a1, a3, a4, a5 := Item(1, 'a'), Item(3, 'a'), Item(4, 'a'), Item(5, 'a');
    var b2, b4 := Item(2, 'b'), Item(4, 'b');
    MergeFourFours(a5, b4);
    MergeStep([a4, a5], [b4, b4, b4, b4]);
    assert Merge([a4, a5], [b4, b4, b4, b4]) == [a4] + Merge([a5], [b4, b4, b4, b4]);
    MergeStep([a3, a4, a5], [b4, b4, b4, b4]);
    assert Merge([a3, a4, a5], [b4, b4, b4, b4]) == [a3] + Merge([a4, a5], [b4, b4, b4, b4]);
    MergeStep([a3, a4, a5], [b2, b4, b4, b4, b4]);
    assert Merge([a3, a4, a5], [b2, b4, b4, b4, b4]) == [b2] + Merge([a3, a4, a5], [b4, b4, b4, b4]);
    MergeStep([a1, a3, a4, a5], [b2, b4, b4, b4, b4]);
    assert Merge([a1, a3, a4, a5], [b2, b4, b4, b4, b4]) == [a1] + Merge([a3, a4, a5], [b2, b4, b4, b4, b4]);
  }

  /** The tail of the run with repeated values: `b`'s four 4s all come before `a`'s 5. */
  lemma MergeFourFours(a5: Item<char>, b4: Item<char>)
    requires a5 == Item(5, 'a') && b4 == Item(4, 'b')
    ensures Merge([a5], [b4, b4, b4, b4]) == [b4, b4, b4, b4, a5]
  {
    MergeStep([a5], []);
    assert Merge([a5], []) == [a5] + Merge([], []);
    MergeStep([a5], [b4]);
    assert Merge([a5], [b4]) == [b4] + Merge([a5], []);
    MergeStep([a5], [b4, b4]);
    assert Merge([a5], [b4, b4]) == [b4] + Merge([a5], [b4]);
    MergeStep([a5], [b4, b4, b4]);
    assert Merge([a5], [b4, b4, b4]) == [b4] + Merge([a5], [b4, b4]);
    MergeStep([a5], [b4, b4, b4, b4]);
    assert Merge([a5], [b4, b4, b4, b4]) == [b4] + Merge([a5], [b4, b4, b4]);
  }

  /** The time-stamped test: equal stamps come out `a`'s first. */
  lemma MergeTimeStampScenario(pa: seq<Item<string>>, pb: seq<Item<string>>)
    requires pa == [Item(0, "h"), Item(2, "l1")] && pb == [Item(1, "e"), Item(2, "l2")]
    ensures Merge(pa, pb)
         == [Item(0, "h"), Item(1, "e"), Item(2, "l1"), Item(2, "l2")]
  {
    var h, e, l1, l2 := Item(0, "h"), Item(1, "e"), Item(2, "l1"), Item(2, "l2");
    MergeStep([], [l2]);
    assert Merge([], [l2]) == [l2] + Merge([], []);
    MergeStep([l1], [l2]);
    assert Merge([l1], [l2]) == [l1] + Merge([], [l2]);
    MergeStep([l1], [e, l2]);
    assert Merge([l1], [e, l2]) == [e] + Merge([l1], [l2]);
    MergeStep([h, l1], [e, l2]);
    assert Merge([h, l1], [e, l2]) == [h] + Merge([l1], [e, l2]);
  }

  /**
    One side of the iterator, seen as values: `head` is the element pulled from
    cursor `c` and not yet handed out, and `consumed` elements of `input` have
    been handed out. Before the first call nothing has been pulled; after it,
    a present head is the element last read, and a missing head means the
    side has run out.
   */
  ghost predicate SideOk<D>(init: bool, head: Option<Item<D>>, c: Cursor<Item<D>>, input: seq<Item<D>>, consumed: nat) {
    && c.data == input && c.pos <= |input|
    && if !init then c.pos == 0 && head == None && consumed == 0
       else if head.Some? then 0 < c.pos && head.value == input[c.pos - 1] && consumed == c.pos - 1
       else c.pos == |input| && consumed == |input|
  }

  /** A side with its first pull done, as a step of `next` finds it. */
  function Primed<D>(init: bool, head: Option<Item<D>>, c: Cursor<Item<D>>): (Option<Item<D>>, Cursor<Item<D>>) {
    if init then (head, c) else c.Next()
  }

  /** Once primed, a side's head is exactly the first of its pending elements. */
  lemma PrimeSide<D>(init: bool, head: Option<Item<D>>, c: Cursor<Item<D>>, input: seq<Item<D>>, consumed: nat)
    requires SideOk(init, head, c, input, consumed)
    ensures SideOk(true, Primed(init, head, c).0, Primed(init, head, c).1, input, consumed)
    ensures HeadOf(Primed(init, head, c).0, input, consumed)
    ensures consumed <= |input| && Primed(init, head, c) == Settled(input, consumed)
  {
  }

  /**
    A primed side once `consumed` of its elements have been handed out: the
    next element cached, and the cursor just past it; or, with nothing left,
    no head and the cursor at the end.
   */
  function Settled<D>(input: seq<Item<D>>, consumed: nat): (Option<Item<D>>, Cursor<Item<D>>) {
    if consumed < |input| then (Some(input[consumed]), Cursor(input, consumed + 1))
    else (None, Cursor(input, |input|))
  }

  /**
    The iterator. `a` and `b` are the two sources; `aNext` and `bNext` the heads
    pulled from them and not yet handed out; `initialized` records that the
    first call has pulled the two initial heads.
   */
  class ZipSortIterator<D> {
    var a: Cursor<Item<D>>
    var b: Cursor<Item<D>>
    var aNext: Option<Item<D>>
    var bNext: Option<Item<D>>
    var initialized: bool

    ghost const inputA: seq<Item<D>>
    ghost const inputB: seq<Item<D>>
    /** Everything `Next` has handed out so far. */
    ghost var emitted: seq<Item<D>>
    /** How many elements of each side have been handed out. */
    ghost var consumedA: nat
    ghost var consumedB: nat

    ghost predicate Valid()
      reads this
    {
      && SideOk(initialized, aNext, a, inputA, consumedA)
      && SideOk(initialized, bNext, b, inputB, consumedB)
      && Accounted(emitted, inputA, inputB, consumedA, consumedB)
    }

    /** What side `a` has still to hand out: its cached head, if any, then its unread rest. */
    ghost function PendingA(): seq<Item<D>>
      reads this
    {
      if consumedA <= |inputA| then inputA[consumedA..] else []
    }

    ghost function PendingB(): seq<Item<D>>
      reads this
    {
      if consumedB <= |inputB| then inputB[consumedB..] else []
    }

    /** `ZipSortIterator::new`: nothing is pulled yet. */
    constructor (xs: seq<Item<D>>, ys: seq<Item<D>>)
      ensures Valid()
      ensures inputA == xs && inputB == ys && emitted == []
      ensures !initialized && a == Cursor(xs, 0) && b == Cursor(ys, 0)
      ensures PendingA() == xs && PendingB() == ys
    {
      a, b := Cursor(xs, 0), Cursor(ys, 0);
      aNext, bNext := None, None;
      initialized := false;
      inputA, inputB := xs, ys;
      emitted := [];
      consumedA, consumedB := 0, 0;
    }

    /** The lazy first pull of `next`: on the first call only, one element from each side. */
    method PrimeHeads()
      requires Valid()
      modifies this
      ensures Valid() && initialized
      ensures emitted == old(emitted) && consumedA == old(consumedA) && consumedB == old(consumedB)
      ensures HeadOf(aNext, inputA, consumedA) && HeadOf(bNext, inputB, consumedB)
      ensures old(initialized) ==> a == old(a) && b == old(b) && aNext == old(aNext) && bNext == old(bNext)
    {
      PrimeSide(initialized, aNext, a, inputA, consumedA);
      PrimeSide(initialized, bNext, b, inputB, consumedB);
      if !initialized {
        var pulledA := a.Next();
        aNext, a := pulledA.0, pulledA.1;
        var pulledB := b.Next();
        bNext, b := pulledB.0, pulledB.1;
        initialized := true;
      }
    }

    /**
      The `match` arm of `next`: hand out the smaller cached head (`a`'s on a
      tie) and refill that side only; with both heads gone, return None and
      change nothing.
     */
    method TakeSmaller() returns (r: Option<Item<D>>)
      requires Valid() && initialized
      modifies this
      ensures Valid() && initialized
      ensures r.None? <==> old(PendingA()) == [] && old(PendingB()) == []
      ensures TakesA(old(PendingA()), old(PendingB())) ==>
        r == Some(inputA[old(consumedA)]) && consumedA == old(consumedA) + 1 && consumedB == old(consumedB)
      ensures TakesB(old(PendingA()), old(PendingB())) ==>
        r == Some(inputB[old(consumedB)]) && consumedB == old(consumedB) + 1 && consumedA == old(consumedA)
      ensures r.None? ==> consumedA == old(consumedA) && consumedB == old(consumedB)
      ensures emitted == old(emitted) + Cached(r)
    {
      PrimeSide(true, aNext, a, inputA, consumedA);
      PrimeSide(true, bNext, b, inputB, consumedB);
      ghost var i, j, ha, hb := consumedA, consumedB, aNext, bNext;
      var choice := Select(aNext, bNext);
      r := choice.0;
      if choice.1 {
        var pulled := a.Next();
        aNext, a := pulled.0, pulled.1;
        consumedA := consumedA + 1;
      }
      if choice.2 {
        var pulled := b.Next();
        bNext, b := pulled.0, pulled.1;
        consumedB := consumedB + 1;
      }
      SelectStep(emitted, inputA, inputB, i, j, ha, hb, consumedA, consumedB);
      emitted := emitted + Cached(r);
    }

    /**
      `Iterator::next`. The first call pulls one element from each side; every
      call then hands out the smaller cached head. Every element of the merge
      of the inputs is handed out once, in the merge's order, and then None
      for ever.
     */
    method Next() returns (r: Option<Item<D>>)
      requires Valid()
      modifies this
      ensures Valid() && initialized
      ensures r.None? <==> old(PendingA()) == [] && old(PendingB()) == []
      ensures TakesA(old(PendingA()), old(PendingB())) ==>
        r == Some(inputA[old(consumedA)]) && consumedA == old(consumedA) + 1 && consumedB == old(consumedB)
      ensures TakesB(old(PendingA()), old(PendingB())) ==>
        r == Some(inputB[old(consumedB)]) && consumedB == old(consumedB) + 1 && consumedA == old(consumedA)
      ensures r.None? ==> consumedA == old(consumedA) && consumedB == old(consumedB)
      ensures emitted == old(emitted) + Cached(r)
    {
      PrimeHeads();
      r := TakeSmaller();
    }

    /** Once the first pull is done, the sources are fixed by how much of each side has been handed out. */
    lemma SidesSettled()
      requires Valid() && initialized
      ensures (aNext, a) == Settled(inputA, consumedA) && (bNext, b) == Settled(inputB, consumedB)
    {
    }

    /** The iterator answers None exactly when it has handed out the whole merge of its inputs. */
    lemma ExhaustedIffAllEmitted()
      requires Valid()
      ensures PendingA() == [] && PendingB() == [] <==> emitted == Merge(inputA, inputB)
    {
      MergePermutation(inputA[consumedA..], inputB[consumedB..]);
    }

    /** With sorted inputs, what has been handed out so far is sorted and drawn from the inputs. */
    lemma EmittedSorted()
      requires Valid() && Sorted(inputA) && Sorted(inputB)
      ensures Sorted(emitted)
      ensures multiset(emitted) <= multiset(inputA) + multiset(inputB)
    {
      var m := Merge(inputA, inputB);
      MergeSorted(inputA, inputB);
      MergePermutation(inputA, inputB);
      var rest := Merge(inputA[consumedA..], inputB[consumedB..]);
      assert m == emitted + rest;
      assert forall i | 0 <= i < |emitted| :: emitted[i] == m[i];
    }
  }

  /**
    The first integer test, run through the iterator: `[1, 3, 5]` and `[2, 4]`
    give 1, 2, 3, 4, 5 and then None on every later call.
   */
  method IntegerScenario() returns (out: seq<Option<Item<()>>>)
    ensures out == [Some(Item(1, ())), Some(Item(2, ())), Some(Item(3, ())), Some(Item(4, ())),
                    Some(Item(5, ())), None, None]
  {
    var it := new ZipSortIterator([Item(1, ()), Item(3, ()), Item(5, ())], [Item(2, ()), Item(4, ())]);
    var r1 := it.Next();
    var r2 := it.Next();
    var r3 := it.Next();
    var r4 := it.Next();
    var r5 := it.Next();
    var r6 := it.Next();
    var r7 := it.Next();
    out := [r1, r2, r3, r4, r5, r6, r7];
  }
}
