/**
 * The unoptimised infinite list. Every `scroll` event runs the handler; it
 * asks for a load when the viewport is near the document's end. The listener
 * is removed and registered again each time `loading` changes, because the
 * effect depends on `loading`.
 */
module BeforeList {
  import opened Pagination
  import opened Loading
  import opened Window

  class InfiniteList {
    const feed: Feed
    /** The window's `scroll` listeners that belong to this list. */
    var listeners: set<Listener>
    /** The `handleScroll` closure the latest effect run registered. */
    var current: Listener
    var mounted: bool

    /** While mounted exactly the current handler listens, and after unmount none does. */
    ghost predicate Valid()
      reads this, feed
    {
      && feed.Valid()
      && listeners == (if mounted then {current} else {})
    }

    /** Mounting: items 1..10, not loading, and the effect has registered one listener. */
    constructor ()
      ensures Valid() && fresh(feed)
      ensures feed.items == Ids(InitialCount) && !feed.loading && feed.scheduled == 0
      ensures mounted && |listeners| == 1
    {
      feed := new Feed();
      current := 0;
      listeners := {0};
      mounted := true;
    }

    /** The effect re-runs after `loading` changed: its cleanup removes the old listener before a new one is added. */
    method Resubscribe()
      requires mounted && listeners == {current}
      modifies this
      ensures mounted && listeners == {current} && current != old(current)
    {
      listeners := listeners - {current};
      assert listeners == {};
      current := current + 1;
      listeners := listeners + {current};
    }

    /**
     * A `scroll` event with metrics `m`. With the listener registered, the
     * handler calls `loadMore` exactly when the viewport is near the end,
     * and a load starts when none is in flight. Starting one changes
     * `loading`, so the listener is replaced.
     */
    method Scroll(m: Metrics) returns (called: bool, started: bool)
      requires Valid()
      modifies this, feed
      ensures Valid()
      ensures called <==> old(mounted) && NearBottom(m)
      ensures started <==> called && !old(feed.loading)
      ensures feed.items == old(feed.items)
      ensures feed.loading == (old(feed.loading) || started)
      ensures feed.scheduled == old(feed.scheduled) + (if started then 1 else 0)
      ensures mounted == old(mounted) && |listeners| <= 1
      ensures started ==> current != old(current)
      ensures !started ==> current == old(current) && listeners == old(listeners)
    {
      called := mounted && NearBottom(m);
      started := false;
      if called {
        started := feed.LoadMore();
        if started {
          Resubscribe();
        }
      }
    }

    /** The completion timer of the load in flight: the next batch is appended, `loading` clears, and the listener is replaced. */
    method Complete()
      requires Valid()
      requires feed.scheduled > 0
      modifies this, feed
      ensures Valid()
      ensures feed.items == Ids(|old(feed.items)| + BatchSize) && !feed.loading && feed.scheduled == 0
      ensures mounted == old(mounted) && |listeners| <= 1
      ensures mounted ==> current != old(current)
    {
      feed.Complete();
      if mounted {
        Resubscribe();
      }
    }

    /** Unmounting: the effect's cleanup removes the listener. */
    method Unmount()
      requires Valid()
      modifies this
      ensures Valid()
      ensures !mounted && listeners == {}
    {
      listeners := listeners - {current};
      mounted := false;
    }
  }

  /** Mount, scroll to the end once, and let the load complete: the list is 1..20 and idle again. */
  method OneLoadScenario()
  {
    var list := new InfiniteList();
    var called, started := list.Scroll(Metrics(800, 1200, 2000));
    assert called && started && list.feed.loading;
    var again, startedAgain := list.Scroll(Metrics(800, 1250, 2000));
    assert again && !startedAgain;
    list.Complete();
    assert list.feed.items == Ids(20) && !list.feed.loading;
    list.Unmount();
    var late, startedLate := list.Scroll(Metrics(800, 1300, 2000));
    assert !late && !startedLate;
  }
}
