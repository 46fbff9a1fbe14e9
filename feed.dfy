/**
 * The `loadMore` state machine both infinite lists share: the `items` list,
 * the `loading` guard, and the one completion timer a started load schedules.
 */
module Loading {
  import opened Pagination

  class Feed {
    /** The `items` state. */
    var items: seq<nat>
    /** The `loading` state. */
    var loading: bool
    /** Completion timers that `loadMore` scheduled and that have not fired yet. */
    var scheduled: nat

    /** Items are always 1..n in whole batches, and a load is in flight exactly when one completion is pending. */
    ghost predicate Valid()
      reads this
    {
      && WellFormed(items)
      && scheduled == (if loading then 1 else 0)
    }

    /** The initial state: items 1..10, not loading, nothing scheduled. */
    constructor ()
      ensures Valid()
      ensures items == Ids(InitialCount) && !loading && scheduled == 0
    {
      items := InitialItems();
      loading := false;
      scheduled := 0;
    }

    /**
     * `loadMore`: while a load is in flight it does nothing; otherwise it sets
     * `loading` and schedules exactly one completion. It never touches `items`.
     */
    method LoadMore() returns (started: bool)
      requires Valid()
      modifies this
      ensures Valid()
      ensures started <==> !old(loading)
      ensures loading && items == old(items)
      ensures scheduled == old(scheduled) + (if started then 1 else 0)
    {
      if loading {
        return false;
      }
      loading := true;
      scheduled := scheduled + 1;
      started := true;
    }

    /**
     * The completion timer of a started load: appends the next ten ids after
     * the current length and clears `loading`, so another load can start.
     */
    method Complete()
      requires Valid()
      requires scheduled > 0
      modifies this
      ensures Valid()
      ensures items == Append(old(items)) && items == Ids(|old(items)| + BatchSize)
      ensures !loading && scheduled == old(scheduled) - 1
    {
      items := Append(items);
      loading := false;
      scheduled := scheduled - 1;
    }
  }
}
