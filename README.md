# iter_zip_sort, modelled in Dafny

The crate merges sequences that are already sorted into one sorted stream, lazily, one element per
call of `next`. It has two iterators:

- `ZipSortIterator` merges exactly two sources. It caches one head per side and hands out the
  smaller one, taking side `a`'s head on a tie. Then it refills the side it took from. The two
  initial heads are pulled on the first call of `next`, not at construction.
- `PrioritySortIterator` merges any number of sources. It keeps a vector of slots. Each slot is
  a source plus the element last pulled from it, its `prio`. `next` hands out slot 0's `prio`.
  It then refills slot 0 in place, or removes it once its source is exhausted. When slot 0 has
  come to compare above slot 1, it sorts the whole vector.

The project has three modules:

- `Items` (`items.dfy`) holds what both iterators share:
  - an element is an `Item(key, data)`, ordered by `key` alone, like the time-stamped records of
    the crate's tests;
  - a source is a `Cursor`, an immutable sequence plus a position, which is what a slice
    iterator is.
- `ZipSort` (`zip_sort.dfy`) models the two-way merge:
  - `Merge` is the whole output of the two-way merge, defined by recursion.
  - The class `ZipSortIterator` has the fields of the Rust struct. Its `Next` method changes
    them the way `next` does.
  - Its invariant `Valid` keeps what has been handed out so far, followed by `Merge` of what is
    still pending, equal to `Merge` of the two inputs. So every property proved of `Merge` is a
    property of the iterator: sorted output, a permutation of the inputs, ties to `a`.
- `PrioritySort` (`priority_sort.dfy`) models the k-way merge:
  - `Step` is one call of `next` as a function on the queue. `Drain` is everything the queue
    hands out from a given state on.
  - The class `PrioritySortIterator` holds the queue as a field. Its `Next` method updates the
    queue the way `next` does and is proved to follow `Step`.
  - The queue invariant `Ordered` says the slots are sorted by `prio` and every source is
    sorted. It is proved to be kept by every step, and to make every step hand out a least
    pending element.

## Model

| member | source | states |
|---|---|---|
| Items.Cursor.Next | src/lib.rs:43-44 | pulling from a source yields its next element and moves past it, or yields None and stays put once it has run out (fused) |
| ZipSort.Select | src/lib.rs:48-71 | the `match` on the cached heads takes `a` exactly when `a` has a head and `b` has none or one no smaller; it takes `b` exactly when `b` has a head and `a` is not taken; the element returned is the taken head, and None when neither side has one |
| ZipSort.SelectStep | src/lib.rs:48-77 | the side `Select` takes is the side `Merge` takes next, the element handed out is that side's next input element, and after refilling that side what is handed out plus the merge of what remains is still the merge of the inputs |
| ZipSort.PrimeSide | src/lib.rs:42-46 | after the lazy first pull, each cached head is exactly the first element of that side not yet handed out, and None exactly when the side is exhausted |
| ZipSort.MergePermutation | src/lib.rs:41-79 | the merge hands out every element of both inputs, each as often as it occurs |
| ZipSort.MergeLength | src/lib.rs:41-79 | the merge is exactly as long as both inputs together |
| ZipSort.MergeSorted | src/lib.rs:53-59 | the merge of two sorted inputs is sorted |
| ZipSort.MergeTiesFavourA | src/lib.rs:53-56 | among elements of equal key, all of `a`'s come before all of `b`'s, each side in its own order (the `a <= b` test) |
| ZipSort.MergeIntegerScenario | src/lib.rs:87-98 | `[1, 3, 5]` and `[2, 4]` merge into 1, 2, 3, 4, 5 |
| ZipSort.MergeDuplicatesScenario | src/lib.rs:101-116 | `[1, 3, 4, 5]` and `[2, 4, 4, 4, 4]` merge into 1, 2, 3, 4, 4, 4, 4, 4, 5, with `a`'s 4 first |
| ZipSort.MergeTimeStampScenario | src/lib.rs:119-135 | stamps 0, 2 and 1, 2 merge into stamps 0, 1, 2, 2, with `a`'s stamp 2 ahead of `b`'s |
| ZipSort.ZipSortIterator.constructor | src/lib.rs:19-30 | `new` pulls nothing: both sources at their start, no cached heads, not initialized, nothing handed out |
| ZipSort.ZipSortIterator.PrimeHeads | src/lib.rs:42-46 | on the first call only, one element is pulled from each side, and an initialized iterator keeps its sources and cached heads; afterwards each cached head is the next pending element of its side |
| ZipSort.ZipSortIterator.TakeSmaller | src/lib.rs:48-78 | hands out `a`'s next element and advances only `a` when `Merge` takes from `a`, symmetrically for `b`, and None with nothing changed once both sides are exhausted; the invariant is kept |
| ZipSort.ZipSortIterator.Next | src/lib.rs:41-79 | one call of `next`: None exactly when both sides have nothing pending; otherwise the next element of the merge, taken from the side the merge takes, advancing that side by one; what is handed out grows by exactly the result |
| ZipSort.ZipSortIterator.SidesSettled | src/lib.rs:43-44 | after the first call, each side's cached head and source are fixed by how many of its elements have been handed out |
| ZipSort.ZipSortIterator.ExhaustedIffAllEmitted | src/lib.rs:69-78 | both sides have nothing pending exactly when the whole merge of the inputs has been handed out |
| ZipSort.ZipSortIterator.EmittedSorted | src/lib.rs:41-79 | with sorted inputs, what has been handed out at any point is sorted and drawn from the inputs |
| ZipSort.IntegerScenario | src/lib.rs:87-98 | calling `Next` on the iterator built from `[1, 3, 5]` and `[2, 4]` yields 1, 2, 3, 4, 5, then None on each later call |
| PrioritySort.CmpIsTotalOrder | src/priority_sort_iterator.rs:12-47 | slots compare by `prio` alone: equal exactly on equal keys, antisymmetric and transitive |
| PrioritySort.SortByPrioSorted | src/priority_sort_iterator.rs:109-111 | `Vec::sort` leaves the queue sorted by `prio` |
| PrioritySort.SortByPrioPermutation | src/priority_sort_iterator.rs:109-111 | `Vec::sort` keeps every slot, and so everything the queue holds |
| PrioritySort.SortByPrioStable | src/priority_sort_iterator.rs:109-111 | `Vec::sort` is stable: slots with equal `prio` keep their relative order |
| PrioritySort.SortByPrioOfSorted | src/priority_sort_iterator.rs:109-111 | sorting a queue already sorted by `prio` changes nothing |
| PrioritySort.Refilled | src/priority_sort_iterator.rs:92-95 | overwriting slot 0's `prio` with the pulled element drops exactly the old `prio` from what the slot holds |
| PrioritySort.Advance | src/priority_sort_iterator.rs:90-104 | hands out slot 0's `prio`; refills slot 0 in place when its source has more, and otherwise removes slot 0; no other slot changes |
| PrioritySort.AdvancePending | src/priority_sort_iterator.rs:90-104 | the slot-0 update gives up exactly the element handed out |
| PrioritySort.ReorderPermutation | src/priority_sort_iterator.rs:105-111 | the conditional sort keeps every slot and everything the queue holds |
| PrioritySort.ReorderSorted | src/priority_sort_iterator.rs:105-111 | if the slots after the first are sorted, the queue is sorted after the conditional sort, and a sorted queue is left untouched |
| PrioritySort.ReorderKeepsLanes | src/priority_sort_iterator.rs:105-111 | the conditional sort keeps every source sorted |
| PrioritySort.Step | src/priority_sort_iterator.rs:85-113 | one call of `next` on a non-empty queue hands out slot 0's `prio` and never grows the queue |
| PrioritySort.StepPending | src/priority_sort_iterator.rs:85-113 | one call of `next` gives up exactly the element it hands out |
| PrioritySort.OrderedHeadIsLeast | src/priority_sort_iterator.rs:90-93 | in an ordered queue, slot 0's `prio` is no greater than anything the queue holds |
| PrioritySort.AdvanceKeepsOrder | src/priority_sort_iterator.rs:90-104 | the slot-0 update of an ordered queue keeps every source sorted and the slots after the first sorted by `prio` |
| PrioritySort.StepKeepsOrdered | src/priority_sort_iterator.rs:85-113 | one call of `next` keeps an ordered queue ordered and hands out a least element of what it held |
| PrioritySort.DrainPermutation | src/priority_sort_iterator.rs:85-113 | calling `next` until None hands out everything the queue holds, each element as often as it is held |
| PrioritySort.DrainSorted | src/priority_sort_iterator.rs:85-113 | an ordered queue hands out a sorted sequence |
| PrioritySort.BuildQueue | src/priority_sort_iterator.rs:63-75 | `new` makes at most one slot per input |
| PrioritySort.BuildQueueLanes | src/priority_sort_iterator.rs:67-74 | `new` makes one slot per non-empty input, in input order, each holding the whole of its input with its first element as `prio`; empty inputs are dropped |
| PrioritySort.BuildQueuePending | src/priority_sort_iterator.rs:67-74 | the queue `new` makes holds every element of every input |
| PrioritySort.BuildQueueLanesSorted | src/priority_sort_iterator.rs:67-74 | with sorted inputs, every source in the queue `new` makes is sorted |
| PrioritySort.BuildQueueSortedByPrio | src/priority_sort_iterator.rs:72-74 | the queue `new` makes is sorted by `prio` when the inputs come in order of their heads |
| PrioritySort.BuildQueueSortedOnlyIfHeadsInOrder | src/priority_sort_iterator.rs:72-74 | the queue `new` makes is sorted by `prio` only when the inputs come in order of their heads |
| PrioritySort.BuildQueueSortedIffHeadsInOrder | src/priority_sort_iterator.rs:72-74 | the queue `new` makes is sorted by `prio` exactly when the inputs come in order of their heads |
| PrioritySort.HeadIsPrio | src/priority_sort_iterator.rs:67-70 | the head of every non-empty input becomes the `prio` of a slot of the queue `new` makes |
| PrioritySort.MergedIsPermutation | src/priority_sort_iterator.rs:63-113 | `new` and then `next` until None hand out every element of every input, with multiplicity, whatever the inputs |
| PrioritySort.MergedIsSortedWhenHeadsInOrder | src/priority_sort_iterator.rs:63-113 | `new` and then `next` until None hand out a sorted sequence when the inputs are sorted and come in order of their heads |
| PrioritySort.UnorderedHeadsGiveUnsortedOutput | src/priority_sort_iterator.rs:72-74 | the sorted inputs `[5]` and `[1, 2]` come out as 5, 1, 2, which is not sorted |
| PrioritySort.BuildSortedQueue | src/priority_sort_iterator.rs:63-75 | `new` followed by a sort of the queue makes at most one slot per input |
| PrioritySort.BuildSortedQueueOrdered | src/priority_sort_iterator.rs:63-75 | with sorted inputs, the sorted construction is ordered whatever the order of the heads, and holds every input element |
| PrioritySort.SortedBuildMergesSorted | src/priority_sort_iterator.rs:63-113 | with the sorted construction, any sorted inputs come out sorted and as a permutation of their union |
| PrioritySort.BuildSortedQueueAgrees | src/priority_sort_iterator.rs:63-75 | where the heads already come in order, the sorted construction equals `new` as written |
| PrioritySort.PrioritySortIterator.EmittedSorted | src/priority_sort_iterator.rs:85-113 | what has been handed out at any point is a prefix of the whole output, so it is sorted when the whole output is |
| PrioritySort.PrioritySortIterator.constructor | src/priority_sort_iterator.rs:63-75 | `new` sets the queue to one slot per non-empty input in input order, and the whole output is a permutation of the inputs |
| PrioritySort.PrioritySortIterator.WithSortedQueue | src/priority_sort_iterator.rs:63-75 | with the queue sorted at construction, the queue is ordered and the whole output is the sorted permutation of the inputs |
| PrioritySort.PrioritySortIterator.Next | src/priority_sort_iterator.rs:85-113 | None on an empty queue, which stays empty; otherwise slot 0's `prio`, with the queue after one `Step`; an ordered queue stays ordered and the element handed out is no greater than anything pending; nothing of the whole output is lost |
| PrioritySort.PrioritySortIterator.PullFirst | src/priority_sort_iterator.rs:86-104 | takes slot 0's `prio`, then refills slot 0 in place or removes it |
| PrioritySort.PrioritySortIterator.SortIfNeeded | src/priority_sort_iterator.rs:105-111 | sorts the queue only when slot 0 compares above slot 1 |
| PrioritySort.IntegerScenario | src/priority_sort_iterator.rs:152-163 | `[1, 3, 5]` and `[2, 4]` come out as 1, 2, 3, 4, 5 |
| PrioritySort.TimeStampScenario | src/priority_sort_iterator.rs:120-149 | stamps 0, 2 / 1, 2 / 8 / 9, 10 come out in stamp order, with payloads h, e, l, l, o, " ", world |

## Left out

- Both iterators compare elements by an integer key. `ZipSortIterator` only asks for `PartialOrd`
  (src/lib.rs:36). The model assumes a total order. With incomparable heads, the `a <= b` test
  fails and the `else` branch hands out `b`'s head; the model does not cover that case.
- Element widths (`u64` stamps) are not modelled; keys are unbounded integers, and nothing in the
  merge does arithmetic on them.
- References, lifetimes and the `Copy`/`IntoIterator` bounds are not modelled. The iterators hand
  out values where the crate hands out `&T`.
- Sources are slices, modelled by `Cursor`. General iterators, including ones whose `next` can
  fail, are not modelled.
- `Vec::sort` is library code. It is modelled as the function `SortByPrio`, a stable insertion
  sort, and `SortIfNeeded` assigns its result to the queue. The model does not capture sorting
  in place, nor the sort's running time.
- `Vec::remove(0)` is modelled as dropping the head of the queue sequence.
- The test-only `TimeStamp`/`TimeStampNoCopy` types and their trait impls (src/lib.rs:157-192,
  src/priority_sort_iterator.rs:165-188) are not modelled. An `Item` with a key and a payload
  stands in for them.
- `ZipSort.MergeTimeStampScenario` uses payloads "l1" and "l2" for the two stamps 2, so that it
  can show that `a`'s comes first; the test's payloads are both "l".
- The `TimeStampNoCopy` copy of the two-way test (src/lib.rs:138-154) is the same run as
  src/lib.rs:119-135 and has no separate member.
- The iterator scenarios of `PrioritySortIterator` are stated on `Drain`, the function the
  iterator's `Next` is proved to follow, rather than by calling `Next` repeatedly.
- The benchmark (benches/my_benchmark.rs) measures time only and is not modelled.
- PrioritySort.MergedIsSortedWhenHeadsInOrder: sortedness of the output of `new` as written is
  claimed only when the inputs come in order of their heads. Without that condition it does not
  hold; see Findings.
- PrioritySort.CmpIsTotalOrder: its facts follow from integer order alone, so it records the
  ordering of `State` rather than proving anything about the iterator.

## Findings

| source | as written | input that shows it | evidently intended | confidence | as-written member | corrected member |
|---|---|---|---|---|---|---|
| src/priority_sort_iterator.rs:67-74 | `new` builds the queue in input order and does not sort it. `next` sorts only after slot 0 has come to compare above slot 1, so a least head further back can be overtaken. | the sorted inputs `[5]` and `[1, 2]` come out as 5, 1, 2 (benches/my_benchmark.rs:9-21 also passes inputs whose heads, 0, 1000000 and 0, are not in order) | sorted output for any sorted inputs, which needs the queue sorted by `prio` once it is built | not executed | PrioritySort.UnorderedHeadsGiveUnsortedOutput | PrioritySort.SortedBuildMergesSorted |
