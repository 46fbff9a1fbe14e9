/**
 * The optimised infinite list. The `scroll` listener is the handler wrapped
 * in the throttle closure, so a scroll event runs the handler at once or
 * leaves a deferred call whose timer runs it later, reading the metrics of
 * that later moment. `loading` feeds `loadMore`, `loadMore` feeds the
 * handler and the handler feeds the effect, so each change of `loading`
 * removes the listener and registers a new one around a fresh closure.
 * The list is built with the deferred call's check as written (the captured
 * call time) or as intended (the firing time); see `Throttling`.
 */
module AfterList {
  import opened Pagination
  import opened Loading
  import opened Throttling
  import opened Window
  import opened Optional

  class InfiniteList {
    const feed: Feed
    /** The throttle closure around the current handler. */
    const throttle: Throttle
    /** Which check the throttle's deferred call makes. */
    const variant: Variant
    /** The window's `scroll` listeners that belong to this list. */
    var listeners: set<Listener>
    /** The `throttledScroll` closure the latest effect run registered. */
    var current: Listener
    var mounted: bool

    /** While mounted exactly the current throttled handler listens, and after unmount none does. */
    ghost predicate Valid()
      reads this, feed, throttle
    {
      && feed.Valid()
      && listeners == (if mounted then {current} else {})
    }

    /** Mounting: items 1..10, not loading, and one throttled listener with window `limit` (the list passes 50). */
    constructor (limit: int, variant: Variant)
      ensures Valid() && fresh(feed) && fresh(throttle)
      ensures feed.items == Ids(InitialCount) && !feed.loading && feed.scheduled == 0
      ensures throttle.limit == limit && throttle.State() == Start && this.variant == variant
      ensures mounted && |listeners| == 1
    {
      feed := new Feed();
      throttle := new Throttle(limit);
      this.variant := variant;
      current := 0;
      listeners := {0};
      mounted := true;
    }

    /** The effect re-runs: its cleanup removes the old listener, then a fresh throttle closure is registered. */
    method Resubscribe()
      requires mounted && listeners == {current}
      modifies this, throttle
      ensures mounted && listeners == {current} && current != old(current)
      ensures throttle.State() == Start
    {
      listeners := listeners - {current};
      assert listeners == {};
      throttle.Reset();
      current := current + 1;
      listeners := listeners + {current};
    }

    /** The handler ran with metrics `m`: it calls `loadMore` when near the end; a started load re-runs the effect. */
    method HandleScroll(m: Metrics) returns (started: bool)
      requires Valid()
      modifies this, feed, throttle
      ensures Valid()
      ensures started <==> NearBottom(m) && !old(feed.loading)
      ensures feed.items == old(feed.items)
      ensures feed.loading == (old(feed.loading) || started)
      ensures feed.scheduled == old(feed.scheduled) + (if started then 1 else 0)
      ensures mounted == old(mounted)
      ensures started && mounted ==> current != old(current) && throttle.State() == Start
      ensures !(started && mounted) ==> current == old(current) && listeners == old(listeners) && throttle.State() == old(throttle.State())
    {
      started := false;
      if NearBottom(m) {
        started := feed.LoadMore();
        if started && mounted {
          Resubscribe();
        }
      }
    }

    /**
     * A `scroll` event at clock reading `now` with metrics `m`. With no
     * listener registered nothing happens; otherwise the throttle takes the
     * call, and a load starts only when the handler ran at once, the viewport
     * is near the end and no load is in flight.
     */
    method Scroll(now: int, m: Metrics) returns (started: bool)
      requires Valid()
      modifies this, feed, throttle
      ensures Valid()
      ensures !old(mounted) ==> !started && throttle.State() == old(throttle.State())
      ensures started <==> old(mounted) && OnCall(old(throttle.State()), throttle.limit, now).ran && NearBottom(m) && !old(feed.loading)
      ensures old(mounted) && !started ==> throttle.State() == OnCall(old(throttle.State()), throttle.limit, now).state
      ensures started ==> throttle.State() == Start && current != old(current)
      ensures !started ==> current == old(current) && listeners == old(listeners)
      ensures feed.items == old(feed.items)
      ensures feed.loading == (old(feed.loading) || started)
      ensures mounted == old(mounted) && |listeners| <= 1
    {
      started := false;
      if mounted {
        var ran := throttle.Call(now);
        if ran {
          started := HandleScroll(m);
        }
      }
    }

    /**
     * The throttle's pending timer fires at `at`, no earlier than it is due,
     * with the metrics `m` of that moment. The timer outlives the listener's
     * removal, so this can happen after unmount too.
     */
    method ThrottleTimerFires(at: int, m: Metrics) returns (started: bool)
      requires Valid()
      requires throttle.pending.Some? && at >= throttle.pending.value.due
      modifies this, feed, throttle
      ensures Valid()
      ensures started <==> OnFire(old(throttle.State()), throttle.limit, at, variant).ran && NearBottom(m) && !old(feed.loading)
      ensures started && mounted ==> current != old(current) && throttle.State() == Start
      ensures !(started && mounted) ==> throttle.State() == OnFire(old(throttle.State()), throttle.limit, at, variant).state
      ensures !(started && mounted) ==> current == old(current) && listeners == old(listeners)
      ensures feed.items == old(feed.items)
      ensures feed.loading == (old(feed.loading) || started)
      ensures mounted == old(mounted) && |listeners| <= 1
    {
      var ran;
      if variant == AsWritten {
        ran := throttle.Fire();
      } else {
        ran := throttle.FireAt(at);
      }
      started := false;
      if ran {
        started := HandleScroll(m);
      }
    }

    /** The completion timer of the load in flight: the next batch is appended, `loading` clears, and the effect re-runs. */
    method Complete()
      requires Valid()
      requires feed.scheduled > 0
      modifies this, feed, throttle
      ensures Valid()
      ensures feed.items == Ids(|old(feed.items)| + BatchSize) && !feed.loading && feed.scheduled == 0
      ensures mounted == old(mounted) && |listeners| <= 1
      ensures mounted ==> current != old(current) && throttle.State() == Start
      ensures !mounted ==> current == old(current) && throttle.State() == old(throttle.State())
    {
      feed.Complete();
      if mounted {
        Resubscribe();
      }
    }

    /** Unmounting: the effect's cleanup removes the listener; the throttle's pending timer is left alone. */
    method Unmount()
      requires Valid()
      modifies this
      ensures Valid()
      ensures !mounted && listeners == {}
    {
      listeners := listeners - {current};
      mounted := false;
    }
  }

  /**
   * Mount with a 50 ms window and scroll to the end: the first call runs the
   * handler and starts a load; later calls find it in flight; its completion
   * gives 1..20.
   */
  method OneLoadScenario()
  {
    var list := new InfiniteList(50, AsWritten);
    var started := list.Scroll(1000, Metrics(800, 1200, 2000));
    assert started && list.feed.loading;
    started := list.Scroll(1010, Metrics(800, 1250, 2000));
    assert !started;
    list.Complete();
    assert list.feed.items == Ids(20) && !list.feed.loading;
  }

  /**
   * The window's end comes into reach 10 ms after the last run. As written,
   * the deferred call is dropped and no load starts; as intended, it runs
   * when its timer fires and starts the load.
   */
  method DroppedScrollScenario()
  {
    var far, near := Metrics(800, 0, 2000), Metrics(800, 1200, 2000);
    var written := new InfiniteList(50, AsWritten);
    var started := written.Scroll(1000, far);
    started := written.Scroll(1010, near);
    assert !started && written.throttle.pending == Some(Timer(1010, 1050));
    started := written.ThrottleTimerFires(1050, near);
    assert !started && !written.feed.loading;

    var intended := new InfiniteList(50, Intended);
    started := intended.Scroll(1000, far);
    started := intended.Scroll(1010, near);
    started := intended.ThrottleTimerFires(1050, near);
    assert started && intended.feed.loading;
  }
}
