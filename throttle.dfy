/**
 * The `throttle` closure of the optimised infinite list. It captures two
 * variables, `lastRan` (undefined or a clock reading) and `lastFunc` (the one
 * deferred call whose timer is pending). A call either runs the wrapped
 * function at once or cancels the pending deferred call and schedules a new one.
 *
 * As written, the deferred call compares the `now` captured when the call was
 * made with `lastRan`, so a call made inside the window never runs. The
 * `Intended` variant compares the time at which the timer fires instead.
 */
module Throttling {
  import opened Optional

  /** A deferred call: the clock reading it captured and the time its timer fires. */
  datatype Timer = Timer(captured: int, due: int)

  /** The closure's captured variables: `lastRan` and the pending `lastFunc`. */
  datatype ThrottleState = ThrottleState(lastRan: Option<int>, pending: Option<Timer>)

  /** The state of a freshly created closure: both variables undefined. */
  const Start: ThrottleState := ThrottleState(None, None)

  /** Which time the deferred call checks: the captured call time, or the firing time. */
  datatype Variant = AsWritten | Intended

  /** An input to the throttle: a call at a clock reading, or the pending timer firing at one. */
  datatype Event = Called(now: int) | Fired(at: int)

  /** The effect of one event: the new state and whether the wrapped function ran. */
  datatype Outcome = Outcome(state: ThrottleState, ran: bool)

  /** JavaScript's `!lastRan`: both undefined and 0 are falsy. */
  predicate Unset(lastRan: Option<int>)
  {
    lastRan.None? || lastRan.value == 0
  }

  /** `setTimeout` treats a negative delay as zero. */
  function TimerDelay(delay: int): (d: nat)
    ensures d >= delay
    ensures d == 0 || d == delay
  {
    if delay < 0 then 0 else delay
  }

  /**
   * A call at `now`. With `lastRan` unset the function runs at once and
   * `lastRan` becomes `now`. Otherwise nothing runs now: whatever deferred
   * call was pending is replaced by one that captured `now` and fires at
   * `lastRan + limit`, or immediately when that moment has passed.
   */
  function OnCall(s: ThrottleState, limit: int, now: int): (o: Outcome)
    ensures o.ran <==> Unset(s.lastRan)
    ensures o.ran ==> o.state == ThrottleState(Some(now), s.pending)
    ensures !o.ran ==> o.state.lastRan == s.lastRan
    ensures !o.ran ==> o.state.pending.Some? && o.state.pending.value.captured == now
    ensures !o.ran ==> o.state.pending.value.due == if now <= s.lastRan.value + limit then s.lastRan.value + limit else now
  {
    if Unset(s.lastRan) then
      Outcome(ThrottleState(Some(now), s.pending), true)
    else
      var delay := limit - (now - s.lastRan.value);
      Outcome(ThrottleState(s.lastRan, Some(Timer(now, now + TimerDelay(delay)))), false)
  }

  /** The time the deferred call compares with `lastRan` and records when it runs. */
  function Stamp(t: Timer, at: int, v: Variant): int
  {
    match v
    case AsWritten => t.captured
    case Intended => at
  }

  /**
   * The pending timer fires at `at`. It runs the function only when its
   * stamp is at least `limit` after `lastRan` (an undefined `lastRan` makes
   * the difference NaN, and the comparison fails). Either way nothing is
   * pending afterwards. With no timer pending nothing happens.
   */
  function OnFire(s: ThrottleState, limit: int, at: int, v: Variant): (o: Outcome)
    ensures o.state.pending == None
    ensures o.ran <==> s.pending.Some? && s.lastRan.Some? && Stamp(s.pending.value, at, v) - s.lastRan.value >= limit
    ensures o.state.lastRan == if o.ran then Some(Stamp(s.pending.value, at, v)) else s.lastRan
  {
    match s.pending
    case None => Outcome(s, false)
    case Some(t) =>
      var stamp := Stamp(t, at, v);
      if s.lastRan.Some? && stamp - s.lastRan.value >= limit then
        Outcome(ThrottleState(Some(stamp), None), true)
      else
        Outcome(ThrottleState(s.lastRan, None), false)
  }

  function Step(s: ThrottleState, limit: int, e: Event, v: Variant): Outcome
  {
    match e
    case Called(now) => OnCall(s, limit, now)
    case Fired(at) => OnFire(s, limit, at, v)
  }

  /**
   * The final state of a run of events; the value `lastRan` took at each run
   * of the function; and the time of each run (the call for an immediate run,
   * the firing for a deferred one).
   */
  datatype Trace = Trace(final: ThrottleState, stamps: seq<int>, runs: seq<int>)

  function Run(s: ThrottleState, limit: int, events: seq<Event>, v: Variant): Trace
    decreases |events|
  {
    if events == [] then Trace(s, [], [])
    else
      var o := Step(s, limit, events[0], v);
      var rest := Run(o.state, limit, events[1..], v);
      if o.ran then Trace(rest.final, [o.state.lastRan.value] + rest.stamps, [TimeOf(events[0])] + rest.runs)
      else rest
  }

  function TimeOf(e: Event): int
  {
    match e
    case Called(now) => now
    case Fired(at) => at
  }

  /** Every clock reading is positive, as `Date.now()` is. */
  ghost predicate PositiveTimes(events: seq<Event>)
  {
    forall i :: 0 <= i < |events| ==> TimeOf(events[i]) > 0
  }

  /** Every time the state holds is a positive clock reading. */
  ghost predicate PositiveState(s: ThrottleState)
  {
    && (s.lastRan.Some? ==> s.lastRan.value > 0)
    && (s.pending.Some? ==> s.pending.value.captured > 0)
  }

  /** Successive runs, and the first run after `last`, are at least `limit` apart. */
  ghost predicate Spaced(last: Option<int>, stamps: seq<int>, limit: int)
  {
    && (last.Some? && |stamps| > 0 ==> stamps[0] - last.value >= limit)
    && forall i :: 0 < i < |stamps| ==> stamps[i] - stamps[i - 1] >= limit
  }

  /**
   * With a positive clock, the values `lastRan` records at successive runs
   * are at least `limit` apart, in either variant. As written these are the
   * captured call times, not the times the function runs; see
   * `LateTimerRunsClose`.
   */
  lemma {:induction false} RunsAreSpaced(s: ThrottleState, limit: int, events: seq<Event>, v: Variant)
    requires PositiveState(s) && PositiveTimes(events)
    ensures Spaced(s.lastRan, Run(s, limit, events, v).stamps, limit)
    decreases |events|
  {
    if events != [] {
      var o := Step(s, limit, events[0], v);
      assert TimeOf(events[0]) > 0;
      assert PositiveState(o.state);
      assert PositiveTimes(events[1..]) by {
        forall i | 0 <= i < |events| - 1 ensures TimeOf(events[1..][i]) > 0 {
          assert events[1..][i] == events[i + 1];
        }
      }
      RunsAreSpaced(o.state, limit, events[1..], v);
      var rest := Run(o.state, limit, events[1..], v).stamps;
      if o.ran {
        var stamps := [o.state.lastRan.value] + rest;
        forall i | 0 < i < |stamps| ensures stamps[i] - stamps[i - 1] >= limit {
          if i > 1 {
            assert stamps[i] == rest[i - 1] && stamps[i - 1] == rest[i - 2];
          }
        }
      }
    }
  }

  /** With the intended check, each run records its own time in `lastRan`. */
  lemma {:induction false} IntendedRecordsRunTimes(s: ThrottleState, limit: int, events: seq<Event>)
    ensures Run(s, limit, events, Intended).runs == Run(s, limit, events, Intended).stamps
    decreases |events|
  {
    if events != [] {
      IntendedRecordsRunTimes(Step(s, limit, events[0], Intended).state, limit, events[1..]);
    }
  }

  /**
   * Rate limiting as intended: with a positive clock, the wrapped function
   * runs at times at least `limit` apart, and its first run comes at least
   * `limit` after the last one the state records.
   */
  lemma RunTimesAreSpaced(s: ThrottleState, limit: int, events: seq<Event>)
    requires PositiveState(s) && PositiveTimes(events)
    ensures Spaced(s.lastRan, Run(s, limit, events, Intended).runs, limit)
  {
    IntendedRecordsRunTimes(s, limit, events);
    RunsAreSpaced(s, limit, events, Intended);
  }

  /**
   * As written, a late timer lets runs come closer than `limit`: with a
   * 50 ms window, calls at 1000 and 1060, the 1060 timer firing late at 1100,
   * and a call at 1110 whose timer fires at once, the function runs at 1100
   * and again at 1110, while `lastRan` records 1060 and 1110.
   */
  lemma LateTimerRunsClose()
    ensures var t := Run(Start, 50, [Called(1000), Called(1060), Fired(1100), Called(1110), Fired(1110)], AsWritten);
            t.runs == [1000, 1100, 1110] && t.stamps == [1000, 1060, 1110]
  {
    var events := [Called(1000), Called(1060), Fired(1100), Called(1110), Fired(1110)];
    assert events[1..] == [Called(1060), Fired(1100), Called(1110), Fired(1110)];
    assert events[1..][1..] == [Fired(1100), Called(1110), Fired(1110)];
    assert events[1..][1..][1..] == [Called(1110), Fired(1110)];
    assert events[1..][1..][1..][1..] == [Fired(1110)];
    assert events[1..][1..][1..][1..][1..] == [];
  }

  /** With nothing pending, timer firings do nothing. */
  lemma {:induction false} IdleFiringsRunNothing(s: ThrottleState, limit: int, fires: seq<Event>, v: Variant)
    requires s.pending == None
    requires forall i :: 0 <= i < |fires| ==> fires[i].Fired?
    ensures Run(s, limit, fires, v) == Trace(s, [], [])
    decreases |fires|
  {
    if fires != [] {
      IdleFiringsRunNothing(s, limit, fires[1..], v);
    }
  }

  /**
   * As written, a call made less than `limit` after the last run never runs:
   * if no call follows it, no later firing of any timer runs the function.
   */
  lemma {:induction false} CallInWindowDropped(s: ThrottleState, limit: int, now: int, fires: seq<Event>)
    requires !Unset(s.lastRan) && now - s.lastRan.value < limit
    requires forall i :: 0 <= i < |fires| ==> fires[i].Fired?
    ensures Run(OnCall(s, limit, now).state, limit, fires, AsWritten).runs == []
  {
    if fires != [] {
      var o := OnFire(OnCall(s, limit, now).state, limit, fires[0].at, AsWritten);
      assert !o.ran && o.state.pending == None;
      IdleFiringsRunNothing(o.state, limit, fires[1..], AsWritten);
    }
  }

  /**
   * The evidently intended behaviour: a call made inside the window runs when
   * its timer fires, and `lastRan` becomes the firing time.
   */
  lemma CallInWindowRunsWhenDue(s: ThrottleState, limit: int, now: int, at: int)
    requires !Unset(s.lastRan) && now - s.lastRan.value < limit
    requires at >= OnCall(s, limit, now).state.pending.value.due
    ensures OnFire(OnCall(s, limit, now).state, limit, at, Intended) == Outcome(ThrottleState(Some(at), None), true)
  {
  }

  /** In both variants a call made once the window has passed runs, from a timer due at once. */
  lemma CallAfterWindowRuns(s: ThrottleState, limit: int, now: int, at: int, v: Variant)
    requires !Unset(s.lastRan) && now - s.lastRan.value >= limit
    requires at >= now
    ensures OnCall(s, limit, now).state.pending == Some(Timer(now, now))
    ensures OnFire(OnCall(s, limit, now).state, limit, at, v).ran
  {
  }

  /**
   * The dropped call on concrete values: with a 50 ms window, calls at 1000
   * and 1010 and the timer at 1050 run the function once as written, and
   * twice as intended.
   */
  lemma DroppedCallExample()
    ensures Run(Start, 50, [Called(1000), Called(1010), Fired(1050)], AsWritten).runs == [1000]
    ensures Run(Start, 50, [Called(1000), Called(1010), Fired(1050)], Intended).runs == [1000, 1050]
  {
    var events := [Called(1000), Called(1010), Fired(1050)];
    assert events[1..] == [Called(1010), Fired(1050)];
    assert events[1..][1..] == [Fired(1050)];
    assert events[1..][1..][1..] == [];
  }

  /** The closure itself: its two captured variables, updated in place. */
  class Throttle {
    /** The window in milliseconds; the optimised list passes 50. */
    const limit: int
    /** `lastRan`. */
    var lastRan: Option<int>
    /** `lastFunc`: the one deferred call whose timer is pending, if any. */
    var pending: Option<Timer>

    function State(): ThrottleState
      reads this
    {
      ThrottleState(lastRan, pending)
    }

    /** `throttle(func, limit)`: a new closure with both variables undefined. */
    constructor (limit: int)
      ensures this.limit == limit && State() == Start
    {
      this.limit := limit;
      lastRan := None;
      pending := None;
    }

    /** The throttled function called at clock reading `now`; `ran` says whether `func` ran. */
    method Call(now: int) returns (ran: bool)
      modifies this
      ensures Outcome(State(), ran) == OnCall(old(State()), limit, now)
    {
      if lastRan.None? || lastRan.value == 0 {
        ran := true;
        lastRan := Some(now);
      } else {
        var delay := limit - (now - lastRan.value);
        pending := Some(Timer(now, now + TimerDelay(delay)));
        ran := false;
      }
    }

    /** The pending timer fires, as written: it checks the `now` its call captured. */
    method Fire() returns (ran: bool)
      requires pending.Some?
      modifies this
      ensures Outcome(State(), ran) == OnFire(old(State()), limit, old(pending.value.due), AsWritten)
    {
      var t := pending.value;
      pending := None;
      ran := lastRan.Some? && t.captured - lastRan.value >= limit;
      if ran {
        lastRan := Some(t.captured);
      }
    }

    /** The pending timer fires at `at`, as intended: it checks the firing time. */
    method FireAt(at: int) returns (ran: bool)
      requires pending.Some? && at >= pending.value.due
      modifies this
      ensures Outcome(State(), ran) == OnFire(old(State()), limit, at, Intended)
    {
      pending := None;
      ran := lastRan.Some? && at - lastRan.value >= limit;
      if ran {
        lastRan := Some(at);
      }
    }

    /** The effect re-runs and wraps the handler in a fresh closure. */
    method Reset()
      modifies this
      ensures State() == Start
    {
      lastRan := None;
      pending := None;
    }
  }
}
