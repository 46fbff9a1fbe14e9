/**
 * The pure part of the pagination controller shared by both infinite lists:
 * the initial item list, the batch a completed load appends, and the scroll
 * position at which the scroll handler asks for more.
 */
module Pagination {

  /** Items arrive ten at a time, and the list starts with one batch. */
  const BatchSize: nat := 10
  const InitialCount: nat := 10
  /** A load is asked for once the viewport is within this many pixels of the document's end. */
  const Margin: int := 100

  /** The reference list of item ids 1, 2, ..., n. */
  function Ids(n: nat): (r: seq<nat>)
    ensures |r| == n
    ensures forall i :: 0 <= i < n ==> r[i] == i + 1
  {
    if n == 0 then [] else Ids(n - 1) + [n]
  }

  /** The initial `items` state, `Array.from({ length: 10 }, (_, i) => i + 1)`. */
  function InitialItems(): (r: seq<nat>)
    ensures r == Ids(InitialCount)
  {
    seq(InitialCount, i requires 0 <= i < InitialCount => i + 1)
  }

  /** The ten ids a completed load builds from the current length: `prev.length + i + 1`. */
  function NextBatch(length: nat): (r: seq<nat>)
    ensures r == Ids(length + BatchSize)[length..]
  {
    seq(BatchSize, i requires 0 <= i < BatchSize => length + i + 1)
  }

  /**
   * The state updater of a completed load, `prev => [...prev, ...NextBatch(prev.length)]`.
   * Nothing is removed or reordered, and a list 1..n becomes 1..n+10.
   */
  function Append(prev: seq<nat>): (r: seq<nat>)
    ensures |r| == |prev| + BatchSize
    ensures r[..|prev|] == prev
    ensures prev == Ids(|prev|) ==> r == Ids(|prev| + BatchSize)
  {
    prev + NextBatch(|prev|)
  }

  /** The shape every `items` state has: 1..n, whole batches only, at least the first batch. */
  ghost predicate WellFormed(items: seq<nat>)
  {
    && items == Ids(|items|)
    && |items| >= InitialCount
    && |items| % BatchSize == 0
  }

  /** A well-formed list is strictly increasing, so it holds no duplicate id. */
  lemma WellFormedDistinct(items: seq<nat>)
    requires WellFormed(items)
    ensures forall i, j :: 0 <= i < j < |items| ==> items[i] < items[j]
  {
  }

  /** The list after `k` completed loads, starting from the initial list. */
  function AfterLoads(k: nat): seq<nat>
  {
    if k == 0 then InitialItems() else Append(AfterLoads(k - 1))
  }

  /** After `k` completed loads the list is exactly 1..10+10k. */
  lemma {:induction false} AfterLoadsIsIds(k: nat)
    ensures AfterLoads(k) == Ids(InitialCount + BatchSize * k)
    ensures WellFormed(AfterLoads(k))
  {
    if k > 0 {
      AfterLoadsIsIds(k - 1);
    }
  }

  /** The DOM metrics the scroll handler reads, in whole pixels. */
  datatype Metrics = Metrics(innerHeight: int, scrollTop: int, offsetHeight: int)

  /**
   * The scroll handler's trigger, `innerHeight + scrollTop >= offsetHeight - 100`:
   * at most `Margin` pixels of the document lie below the viewport.
   */
  predicate NearBottom(m: Metrics)
    ensures NearBottom(m) <==> m.offsetHeight - (m.innerHeight + m.scrollTop) <= Margin
  {
    m.innerHeight + m.scrollTop >= m.offsetHeight - Margin
  }

  /** Once the trigger holds, scrolling further down or a taller viewport keeps it holding. */
  lemma NearBottomMonotone(m: Metrics, further: nat, taller: nat)
    ensures NearBottom(m) ==> NearBottom(Metrics(m.innerHeight + taller, m.scrollTop + further, m.offsetHeight))
  {
  }
}
