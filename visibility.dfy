/**
 * The one-way visibility gate of a list item and of a lazy image. The flag
 * `isVisible` starts false. The mount effect creates an observer and observes
 * the element only when its ref is non-null. The observer's callback reads
 * only the first entry of each batch; if that entry intersects, the callback
 * sets the flag and disconnects. Unmounting disconnects in any case.
 */
module Visibility {

  /**
   * One gate: the `isVisible` flag, whether the observer still watches the
   * element, and how often the callback has set the flag.
   */
  datatype GateState = GateState(visible: bool, observing: bool, activations: nat)

  /** What can reach a mounted gate: an observer callback with a non-empty batch of entries, or unmounting. */
  datatype Signal = Entries(entry: bool, others: seq<bool>) | Unmounted

  /** `useState(false)`, before the mount effect runs. */
  const Initial: GateState := GateState(false, false, 0)

  /** The mount effect: `if (ref.current) observer.observe(ref.current)`. */
  function Mounted(refPresent: bool): (g: GateState)
    ensures !g.visible && g.activations == 0
    ensures g.observing <==> refPresent
  {
    Initial.(observing := refPresent)
  }

  /**
   * One observer callback with entries `[entry, ...others]`. A disconnected
   * observer delivers nothing; a connected one makes the gate visible and
   * disconnects when the first entry intersects, and otherwise changes nothing.
   */
  function OnNotify(g: GateState, entry: bool, others: seq<bool>): (r: GateState)
    ensures g.visible ==> r.visible
    ensures r.visible <==> g.visible || (g.observing && entry)
    ensures r.observing <==> g.observing && !entry
    ensures r.activations == g.activations + (if g.observing && entry then 1 else 0)
  {
    if g.observing && entry then GateState(true, false, g.activations + 1) else g
  }

  /** The effect's cleanup: the observer is disconnected, fired or not. */
  function OnUnmount(g: GateState): (r: GateState)
    ensures !r.observing && r.visible == g.visible && r.activations == g.activations
  {
    g.(observing := false)
  }

  function Step(g: GateState, s: Signal): GateState
  {
    match s
    case Entries(entry, others) => OnNotify(g, entry, others)
    case Unmounted => OnUnmount(g)
  }

  function Run(g: GateState, signals: seq<Signal>): GateState
    decreases |signals|
  {
    if signals == [] then g else Run(Step(g, signals[0]), signals[1..])
  }

  /** Once visible, a gate stays visible whatever follows. */
  lemma {:induction false} VisibleStays(g: GateState, signals: seq<Signal>)
    requires g.visible
    ensures Run(g, signals).visible
    decreases |signals|
  {
    if signals != [] {
      VisibleStays(Step(g, signals[0]), signals[1..]);
    }
  }

  /** The gate's invariant: the callback set the flag at most once, exactly when visible, and a visible gate no longer observes. */
  ghost predicate SingleShot(g: GateState)
  {
    && g.activations <= 1
    && (g.visible <==> g.activations == 1)
    && (g.visible ==> !g.observing)
  }

  /** Every gate reached from mounting is single-shot. */
  lemma {:induction false} RunKeepsSingleShot(g: GateState, signals: seq<Signal>)
    requires SingleShot(g)
    ensures SingleShot(Run(g, signals))
    decreases |signals|
  {
    if signals != [] {
      RunKeepsSingleShot(Step(g, signals[0]), signals[1..]);
    }
  }

  /** Signal `i` is a callback whose first entry intersects, and no unmount came before it. */
  ghost predicate HitAt(signals: seq<Signal>, i: int)
  {
    && 0 <= i < |signals|
    && signals[i].Entries? && signals[i].entry
    && forall j :: 0 <= j < i ==> signals[j].Entries?
  }

  /**
   * From a hidden gate, the flag ends true exactly when the gate was
   * observing and some callback before unmounting had an intersecting
   * first entry.
   */
  lemma {:induction false} VisibleIffHit(g: GateState, signals: seq<Signal>)
    requires !g.visible
    ensures Run(g, signals).visible <==> g.observing && exists i :: HitAt(signals, i)
    decreases |signals|
  {
    if signals != [] {
      var next := Step(g, signals[0]);
      var tail := signals[1..];
      if next.visible {
        VisibleStays(next, tail);
        assert HitAt(signals, 0);
      } else {
        VisibleIffHit(next, tail);
        if exists i :: HitAt(signals, i) {
          var i :| HitAt(signals, i);
          if g.observing {
            assert i > 0;
            assert next.observing == !signals[0].Unmounted?;
            assert HitAt(tail, i - 1) by {
              forall j | 0 <= j < i - 1 ensures tail[j].Entries? {
                assert tail[j] == signals[j + 1];
              }
            }
          }
        }
        if next.observing && exists k :: HitAt(tail, k) {
          var k :| HitAt(tail, k);
          assert HitAt(signals, k + 1) by {
            forall j | 0 <= j < k + 1 ensures signals[j].Entries? {
              if j > 0 {
                assert signals[j] == tail[j - 1];
              }
            }
          }
        }
      }
    }
  }

  /** A gate whose element ref was null at mount never becomes visible. */
  lemma NullRefStaysHidden(signals: seq<Signal>)
    ensures !Run(Mounted(false), signals).visible
  {
    VisibleIffHit(Mounted(false), signals);
  }

  /** The gate as the component holds it, updated in place. */
  class Gate {
    /** `isVisible`. */
    var visible: bool
    /** Whether the observer is connected and watching the element. */
    var observing: bool
    /** How often the callback set the flag (each time it also logs). */
    ghost var activations: nat

    ghost function State(): GateState
      reads this
    {
      GateState(visible, observing, activations)
    }

    /** The component renders for the first time: hidden, not yet observed. */
    constructor ()
      ensures State() == Initial
    {
      visible := false;
      observing := false;
      activations := 0;
    }

    /** The mount effect runs; the ref may be null. */
    method Mount(refPresent: bool)
      requires State() == Initial
      modifies this
      ensures State() == Mounted(refPresent)
    {
      observing := refPresent;
    }

    /** The observer calls back with entries `[entry, ...others]`. */
    method Notify(entry: bool, others: seq<bool>)
      modifies this
      ensures State() == OnNotify(old(State()), entry, others)
    {
      if observing && entry {
        visible := true;
        activations := activations + 1;
        observing := false;
      }
    }

    /** The effect's cleanup runs. */
    method Unmount()
      modifies this
      ensures State() == OnUnmount(old(State()))
    {
      observing := false;
    }
  }
}
