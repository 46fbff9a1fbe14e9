# Infinite scroll with lazy rendering: a Dafny model

This project models the logic of a small React demo that shows a list two ways.
The unoptimised list renders every item at once. The optimised list defers each
item, and each image inside it, until it enters the viewport. Both lists load
more items as the user scrolls near the bottom of the page. The model covers
four small state machines:

- **Pagination** (`Pagination`, `Loading.Feed`). The list starts as ids 1..10.
  `loadMore` does nothing while a load is in flight. Otherwise it sets `loading`
  and schedules one completion. The completion appends the ten ids that follow
  the current length and clears `loading`. So the list is always 1..n, with n a
  multiple of ten and no duplicates, and after k loads it is 1..10+10k.
- **Scroll controllers** (`BeforeList.InfiniteList`, `AfterList.InfiniteList`).
  The scroll trigger is `innerHeight + scrollTop >= offsetHeight - 100`, over
  integer metrics. Each change of `loading` removes the window's scroll listener
  and then registers a new one, so at most one listener is ever registered.
  Unmounting removes it.
- **Throttle** (`Throttling`). This is the closure with captured `lastRan` and
  `lastFunc`. The clock is an explicit integer, and each timer firing is an
  explicit step. Each closure holds a single `lastFunc` slot, and every call
  clears it before refilling it, so one closure has at most one deferred call
  pending. Trace lemmas over the pure step functions show:
  - the `lastRan` values recorded at successive runs are at least `limit` apart;
  - with the intended check, the run times themselves are at least `limit`
    apart;
  - as written, a call made inside the window never runs, and a late timer
    can make two runs closer than `limit` (see Findings).
- **Visibility gate** (`Visibility`, used by `ListItem` and `LazyImage`).
  `isVisible` starts false. Observation starts only when the element's ref is
  non-null. The first intersecting entry sets the flag and disconnects the
  observer, and unmounting always disconnects it. The flag therefore never goes
  back to false. The rendered payload, background and image `src` depend only on
  the flag.

Browser primitives are inputs. Clock readings are parameters, and timers firing
are method calls. The IntersectionObserver delivers batches of boolean
`isIntersecting` entries. Scroll metrics are integer arguments.

## Model

| member | source | states |
|---|---|---|
| `Pagination.InitialItems` | src/components/AfterOptimization/elements/InfiniteList.jsx:8 | the initial list is exactly the ids 1..10 |
| `Pagination.NextBatch` | src/components/AfterOptimization/elements/InfiniteList.jsx:20 | a completion builds the ten ids that follow the current length, length+1..length+10 |
| `Pagination.Append` | src/components/AfterOptimization/elements/InfiniteList.jsx:20 | the updater adds ten items and keeps the old list as a prefix (it never shrinks); it turns 1..n into 1..n+10 |
| `Pagination.WellFormedDistinct` | src/components/AfterOptimization/elements/InfiniteList.jsx:20 | a list 1..n is strictly increasing, so it has no duplicate id |
| `Pagination.AfterLoadsIsIds` | src/components/BeforeOptimization/elements/InfiniteList.jsx:13-14 | after k completed loads the list is 1..10+10k: whole batches, contiguous |
| `Pagination.NearBottom` | src/components/AfterOptimization/elements/InfiniteList.jsx:49-52 | the trigger `innerHeight + scrollTop >= offsetHeight - 100` holds iff at most 100 px of the document lie below the viewport |
| `Pagination.NearBottomMonotone` | src/components/BeforeOptimization/elements/InfiniteList.jsx:20-23 | once the trigger holds, scrolling further down or a taller viewport keeps it true |
| `Loading.Feed.constructor` | src/components/AfterOptimization/elements/InfiniteList.jsx:8-10 | the feed starts with items 1..10, not loading, no completion scheduled |
| `Loading.Feed.LoadMore` | src/components/AfterOptimization/elements/InfiniteList.jsx:14-23 | while loading nothing changes; while idle `loading` becomes true and exactly one completion is scheduled; items are untouched |
| `Loading.Feed.Complete` | src/components/AfterOptimization/elements/InfiniteList.jsx:18-22 | the completion appends the next ten ids, clears `loading` and consumes its timer; the invariant "1..n, whole batches, at most one load in flight" is kept |
| `BeforeList.InfiniteList.constructor` | src/components/BeforeOptimization/elements/InfiniteList.jsx:5-6 | mounting gives items 1..10, not loading, and exactly one scroll listener |
| `BeforeList.InfiniteList.Resubscribe` | src/components/BeforeOptimization/elements/InfiniteList.jsx:28-30 | an effect re-run removes the old listener before adding a new one, so exactly one is registered |
| `BeforeList.InfiniteList.Scroll` | src/components/BeforeOptimization/elements/InfiniteList.jsx:19-26 | with no throttle, `loadMore` is called iff mounted and the trigger holds; a load starts iff it is called while idle, and only then is the listener replaced |
| `BeforeList.InfiniteList.Complete` | src/components/BeforeOptimization/elements/InfiniteList.jsx:12-15 | completion gives 1..n+10 and idle, and re-registers the listener (still at most one) |
| `BeforeList.InfiniteList.Unmount` | src/components/BeforeOptimization/elements/InfiniteList.jsx:29 | unmounting leaves no listener; later scrolls do nothing |
| `AfterList.InfiniteList.constructor` | src/components/AfterOptimization/elements/InfiniteList.jsx:58-60 | mounting gives items 1..10, not loading, a fresh throttle with the given window and deferred-call check, and one listener |
| `AfterList.InfiniteList.Resubscribe` | src/components/AfterOptimization/elements/InfiniteList.jsx:58-62 | an effect re-run removes the old listener, wraps the handler in a fresh throttle (`lastRan` unset), and registers exactly one new listener |
| `AfterList.InfiniteList.HandleScroll` | src/components/AfterOptimization/elements/InfiniteList.jsx:47-55 | the handler starts a load iff the trigger holds and no load is in flight |
| `AfterList.InfiniteList.Scroll` | src/components/AfterOptimization/elements/InfiniteList.jsx:29-43 | a scroll event goes through the throttle; a load starts iff a listener is registered, the throttle runs the handler at once, the trigger holds and no load is in flight; the listener and throttle are replaced iff a load starts |
| `AfterList.InfiniteList.ThrottleTimerFires` | src/components/AfterOptimization/elements/InfiniteList.jsx:36-41 | the deferred call, with the list's check (as written or as intended), runs the handler with the metrics of its firing time; a load starts iff it runs, the trigger holds and no load is in flight; a started load while mounted re-runs the effect (new listener, fresh throttle), otherwise listener and throttle state are as the firing leaves them |
| `AfterList.InfiniteList.Complete` | src/components/AfterOptimization/elements/InfiniteList.jsx:18-22 | completion gives 1..n+10 and idle; while mounted the effect re-runs with a fresh throttle, after unmount the listener and the throttle (with its pending timer) are untouched |
| `AfterList.InfiniteList.Unmount` | src/components/AfterOptimization/elements/InfiniteList.jsx:61 | unmounting leaves no listener |
| `Throttling.TimerDelay` | src/components/AfterOptimization/elements/InfiniteList.jsx:41 | the delay `limit - (now - lastRan)` is treated as zero when negative, as `setTimeout` does |
| `Throttling.OnCall` | src/components/AfterOptimization/elements/InfiniteList.jsx:29-43 | with `lastRan` falsy (undefined or 0) the function runs and `lastRan := now`; otherwise nothing runs, and the pending call is replaced by one that captured `now` and fires at max(now, lastRan + limit) |
| `Throttling.OnFire` | src/components/AfterOptimization/elements/InfiniteList.jsx:36-41 | firing consumes the pending call; it runs iff its checked time is at least `limit` after a defined `lastRan`, and then records that time |
| `Throttling.RunsAreSpaced` | src/components/AfterOptimization/elements/InfiniteList.jsx:26-44 | over any sequence of calls and firings with positive clock readings, the `lastRan` values recorded at successive runs are at least `limit` apart, in both variants |
| `Throttling.IntendedRecordsRunTimes` | src/components/AfterOptimization/elements/InfiniteList.jsx:31-40 | with the intended check, the value each run records in `lastRan` is the time at which it runs |
| `Throttling.RunTimesAreSpaced` | src/components/AfterOptimization/elements/InfiniteList.jsx:26-44 | with the intended check, the times at which the function runs are at least `limit` apart |
| `Throttling.LateTimerRunsClose` | src/components/AfterOptimization/elements/InfiniteList.jsx:36-41 | as written, window 50, calls at 1000 and 1060, that timer firing late at 1100, a call at 1110 fired at once: runs at 1000, 1100 and 1110, while `lastRan` records 1000, 1060, 1110 |
| `Throttling.CallInWindowDropped` | src/components/AfterOptimization/elements/InfiniteList.jsx:36-41 | as written, a call made less than `limit` after the last run never runs, whatever timer firings follow |
| `Throttling.CallInWindowRunsWhenDue` | src/components/AfterOptimization/elements/InfiniteList.jsx:36-41 | with the intended check, such a call runs when its timer fires and `lastRan` becomes the firing time |
| `Throttling.CallAfterWindowRuns` | src/components/AfterOptimization/elements/InfiniteList.jsx:35-41 | in both variants, a call made once the window has passed gets a timer due at once, and that timer runs it |
| `Throttling.DroppedCallExample` | src/components/AfterOptimization/elements/InfiniteList.jsx:30-41 | window 50, calls at 1000 and 1010, timer at 1050: as written the function runs once (1000); as intended twice (1000, 1050) |
| `Throttling.Throttle.constructor` | src/components/AfterOptimization/elements/InfiniteList.jsx:26-28 | a new closure has `lastRan` and `lastFunc` undefined |
| `Throttling.Throttle.Call` | src/components/AfterOptimization/elements/InfiniteList.jsx:29-43 | the in-place call updates the captured variables as `OnCall` says |
| `Throttling.Throttle.Fire` | src/components/AfterOptimization/elements/InfiniteList.jsx:36-41 | the in-place timer, as written, follows `OnFire` with the captured call time |
| `Throttling.Throttle.FireAt` | src/components/AfterOptimization/elements/InfiniteList.jsx:36-41 | the in-place timer, as intended, follows `OnFire` with the firing time |
| `Throttling.Throttle.Reset` | src/components/AfterOptimization/elements/InfiniteList.jsx:59 | a re-run effect starts from a fresh closure: both variables undefined |
| `Visibility.Mounted` | src/components/AfterOptimization/elements/ListItem.jsx:28 | after mounting the gate is hidden, and it observes iff the element ref is non-null |
| `Visibility.OnNotify` | src/components/AfterOptimization/elements/ListItem.jsx:14-20 | a callback acts only while observing; an intersecting first entry makes the gate visible and disconnects it, and a non-intersecting one changes nothing |
| `Visibility.OnUnmount` | src/components/AfterOptimization/elements/ListItem.jsx:31 | cleanup disconnects whether or not the gate fired, and keeps the flag |
| `Visibility.VisibleStays` | src/components/AfterOptimization/elements/ListItem.jsx:18 | once visible, the gate stays visible after any signals |
| `Visibility.RunKeepsSingleShot` | src/components/AfterOptimization/elements/ListItem.jsx:16-19 | the callback sets the flag at most once, exactly when the gate is visible, and a visible gate no longer observes |
| `Visibility.VisibleIffHit` | src/components/AfterOptimization/elements/ListItem.jsx:11-32 | from hidden, the gate ends visible iff it was observing and some callback before unmount had an intersecting first entry |
| `Visibility.NullRefStaysHidden` | src/components/AfterOptimization/elements/ListItem.jsx:28 | a gate whose ref was null at mount never becomes visible |
| `Visibility.Gate.constructor` | src/components/AfterOptimization/elements/ListItem.jsx:6 | `isVisible` starts false, with no observation yet |
| `Visibility.Gate.Mount` | src/components/AfterOptimization/elements/ListItem.jsx:28 | the in-place mount effect follows `Mounted` |
| `Visibility.Gate.Notify` | src/components/AfterOptimization/elements/ListItem.jsx:14-20 | the in-place callback follows `OnNotify` |
| `Visibility.Gate.Unmount` | src/components/AfterOptimization/elements/ListItem.jsx:31 | the in-place cleanup follows `OnUnmount` |
| `LazyImage.Attributes` | src/components/AfterOptimization/elements/LazyImage.jsx:33-34 | `src` is set iff visible, and is then the given URL; `alt` always passes through |
| `LazyImage.RequestIffHit` | src/components/AfterOptimization/elements/LazyImage.jsx:9-28 | after mounting and any signals, the image requests its URL iff the ref was present and an intersecting entry came before unmount |
| `LazyImage.SrcStays` | src/components/AfterOptimization/elements/LazyImage.jsx:16 | once `src` is set it stays set |
| `ListItem.ImageUrl` | src/components/AfterOptimization/elements/ListItem.jsx:50 | the URL is `https://via.placeholder.com/150?text=Image+` followed by digits that read back as the item id |
| `ListItem.Render` | src/components/AfterOptimization/elements/ListItem.jsx:42-56 | content is rendered iff visible; the background is `#ffffff` iff visible, otherwise `#f1f1f1` |
| `ListItem.HiddenShowsNothing` | src/components/AfterOptimization/elements/ListItem.jsx:47-56 | every hidden item renders the same bare placeholder: no title, description or image |
| `ListItem.TitleNamesItem` | src/components/AfterOptimization/elements/ListItem.jsx:53 | a visible title is "Item " followed by digits that read back as the item id |
| `ListItem.VisibleIdentifiesItem` | src/components/AfterOptimization/elements/ListItem.jsx:49-54 | visible boxes, and image URLs, of different items differ |
| `ListItem.ImageNeedsBothGates` | src/components/AfterOptimization/elements/ListItem.jsx:47-52 | an item's image URL is requested iff both the item's and the image's gates are open |
| `Decimal.Show` | src/components/AfterOptimization/elements/ListItem.jsx:50 | `${item}` is non-empty decimal digits without a leading zero |
| `Decimal.ReadShow` | src/components/AfterOptimization/elements/ListItem.jsx:50 | reading the decimal text of an id gives the id back |

## Findings

| source | as written | input that shows it | evidently intended | confidence | as-written member | corrected member |
|---|---|---|---|---|---|---|
| src/components/AfterOptimization/elements/InfiniteList.jsx:37 | the deferred call tests `now - lastRan >= limit` with the `now` captured when the call was made. A call inside the window fails the test when its timer fires and is dropped, and so is the final call of a burst. | window 50: calls at 1000 and 1010, timer fires at 1050. The call at 1010 never runs. | test the time at which the timer fires, as the usual throttle does, so the trailing call runs at 1050 | high that the trailing call is dropped; not executed | `Throttling.CallInWindowDropped` | `Throttling.CallInWindowRunsWhenDue` |
| src/components/AfterOptimization/elements/InfiniteList.jsx:39 | a deferred call that runs records the captured call time in `lastRan`, not the time it runs. The next window is measured from a moment before the run. | window 50: calls at 1000 and 1060, the 1060 timer fires late at 1100 and runs, then a call at 1110 gets a timer due at once and runs at 1110, 10 ms after the previous run | record the time of the run, so runs are at least `limit` apart | medium (needs a late timer); not executed | `Throttling.LateTimerRunsClose` | `Throttling.RunTimesAreSpaced` |

The optimised list controller takes the check as a parameter. Built with
`AsWritten`, its timer goes through `Throttling.Throttle.Fire`; built with
`Intended`, through `Throttling.Throttle.FireAt`.
`AfterList.DroppedScrollScenario` runs the same scrolls through both: as
written no load starts, and as intended one does.

## Left out

- AfterList.InfiniteList.Resubscribe: when the effect re-runs, the source leaves the old closure's pending timer scheduled. That timer later runs the old handler. The model drops it with the old closure.
- React rendering, hooks, memoisation and batching are not modelled. A state change and the effect re-run that follows it are one atomic step. So a scroll event that arrives between them and sees a stale `loading` is not modelled.
- Real timers and `Date.now()` are not modelled. Clock readings are parameters, and the 1000 ms load delay is not modelled: a completion is a `Complete` step that may come at any time after its load started.
- A completion after unmount still updates the feed in the model. React's handling of updates to an unmounted component is host-framework behaviour.
- IntersectionObserver geometry and the 0.1 threshold are browser-internal and use floating point. Each entry is a boolean `isIntersecting`.
- DOM scroll metrics are floating point in browsers. Here they are integers.
- The throttle window is a parameter. The optimised list passes 50, although the comment beside it says 200.
- Listener identity: each effect run's closure is a numbered `Listener` in a set, and `addEventListener` of a registered listener is a no-op.
- React.lazy and Suspense module loading, the `stateChanged` button, `console.log` output, styles other than the item background, and StrictMode's double effect runs are not modelled. `src/App.js`, `src/index.js` and the unoptimised ListItem and LazyImage (pure rendering) are not part of this model.
- A missing ref leaves a gate hidden forever (`Visibility.NullRefStaysHidden`). The code does not fall back to rendering eagerly.
