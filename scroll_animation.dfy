/**
 * The one-shot visibility latch of `useScrollAnimation` (src/hooks/useScrollAnimation.js).
 * The observer's threshold geometry is abstracted to the `isIntersecting` flag of each entry;
 * an entry batch is the sequence of those flags in one observer callback.
 */
module ScrollAnimation {

  /** The threshold used when the caller passes none. */
  const DefaultThreshold: real := 0.1

  /** The hook's state: the `isVisible` flag, and whether the observer still watches the target. */
  datatype Latch = Latch(isVisible: bool, observing: bool)

  /** Running the effect: `isVisible` starts false, and the target is observed only when the ref is attached. */
  function Mount(attached: bool): (l: Latch)
    ensures !l.isVisible
    ensures l.observing <==> attached
  {
    Latch(false, attached)
  }

  /**
   * One observer callback: the `forEach` over its entries. The first intersecting entry sets
   * `isVisible` and unobserves the target; later entries of the same batch repeat both, to no effect.
   */
  function Deliver(l: Latch, batch: seq<bool>): (r: Latch)
    ensures (true in batch) ==> r == Latch(true, false)
    ensures (true !in batch) ==> r == l
  {
    if true in batch then Latch(true, false) else l
  }

  /** What happens to the hook from outside: a callback with a batch of entries, or the cleanup. */
  datatype Event = Entries(batch: seq<bool>) | Teardown

  /** A batch that contains an intersecting entry. */
  predicate Intersects(e: Event) {
    e.Entries? && true in e.batch
  }

  /** One event. The observer calls back only for a target it observes; the cleanup unobserves it. */
  function Apply(l: Latch, e: Event): (r: Latch)
    ensures r.isVisible <==> l.isVisible || (l.observing && Intersects(e))
    ensures r.observing <==> l.observing && !e.Teardown? && !Intersects(e)
  {
    match e
    case Entries(batch) => if l.observing then Deliver(l, batch) else l
    case Teardown => Latch(l.isVisible, false)
  }

  /** A sequence of events, in order. */
  function Run(l: Latch, events: seq<Event>): Latch
    decreases |events|
  {
    if events == [] then l else Run(Apply(l, events[0]), events[1..])
  }

  /** Once visible, always visible: nothing ever sets `isVisible` back to false. */
  lemma {:induction false} NeverReverts(l: Latch, events: seq<Event>)
    requires l.isVisible
    ensures Run(l, events).isVisible
    decreases |events|
  {
    if events != [] {
      NeverReverts(Apply(l, events[0]), events[1..]);
    }
  }

  /** A target no longer observed (settled, torn down or never attached) ignores every later event but keeps `isVisible`. */
  lemma {:induction false} UnobservedIsFinal(l: Latch, events: seq<Event>)
    requires !l.observing
    ensures Run(l, events).isVisible == l.isVisible
    ensures !Run(l, events).observing
    decreases |events|
  {
    if events != [] {
      UnobservedIsFinal(Apply(l, events[0]), events[1..]);
    }
  }

  /** A batch with no intersecting entry changes nothing. */
  lemma NonIntersectingKeepsState(l: Latch, batch: seq<bool>)
    requires forall i | 0 <= i < |batch| :: !batch[i]
    ensures Apply(l, Entries(batch)) == l
  {
    assert true !in batch;
  }

  /** The first intersecting entry settles the latch: visible, and the target unobserved, so later entries do nothing. */
  lemma FirstIntersectionSettles(l: Latch, batch: seq<bool>, later: seq<Event>)
    requires l.observing && true in batch
    ensures Apply(l, Entries(batch)) == Latch(true, false)
    ensures Run(Apply(l, Entries(batch)), later) == Latch(true, false)
  {
    UnobservedIsFinal(Latch(true, false), later);
  }

  /** If the ref is not attached when the effect runs, nothing is observed and `isVisible` stays false forever. */
  lemma UnattachedNeverVisible(events: seq<Event>)
    ensures Run(Mount(false), events) == Latch(false, false)
  {
    UnobservedIsFinal(Mount(false), events);
  }

  /** After the cleanup no entry is processed: the state stays as the cleanup left it. */
  lemma TeardownIsFinal(l: Latch, later: seq<Event>)
    ensures Run(Apply(l, Teardown), later) == Latch(l.isVisible, false)
  {
    UnobservedIsFinal(Apply(l, Teardown), later);
  }

  /** Some batch at position `k` has an intersecting entry, and no cleanup comes before it. */
  predicate SeenAt(events: seq<Event>, k: int) {
    0 <= k < |events| && Intersects(events[k]) && forall j | 0 <= j < k :: !events[j].Teardown?
  }

  /**
   * An attached target becomes visible exactly when some batch with an intersecting entry
   * arrives before the cleanup.
   */
  lemma {:induction false} VisibleIffSeenBeforeTeardown(l: Latch, events: seq<Event>)
    requires l.observing && !l.isVisible
    ensures Run(l, events).isVisible <==> exists k :: SeenAt(events, k)
    decreases |events|
  {
    if events != [] {
      var e := events[0];
      var rest := events[1..];
      var l' := Apply(l, e);
      if Intersects(e) {
        UnobservedIsFinal(l', rest);
        assert SeenAt(events, 0);
      } else if e.Teardown? {
        UnobservedIsFinal(l', rest);
        assert forall k :: !SeenAt(events, k) by {
          forall k | 0 < k < |events| ensures !SeenAt(events, k) {
            assert events[0].Teardown?;
          }
        }
      } else {
        assert l' == l;
        VisibleIffSeenBeforeTeardown(l', rest);
        if exists k :: SeenAt(rest, k) {
          var k :| SeenAt(rest, k);
          assert SeenAt(events, k + 1);
        }
        if exists k :: SeenAt(events, k) {
          var k :| SeenAt(events, k);
          assert SeenAt(rest, k - 1);
        }
      }
    }
  }

  /** The hook instance of one component. */
  class ScrollLatch {
    const threshold: real
    var isVisible: bool
    var observing: bool

    function State(): Latch
      reads this
    {
      Latch(isVisible, observing)
    }

    /** `useState(false)` and the effect's `observe(currentRef)` when the ref is attached. */
    constructor (attached: bool, threshold: real := DefaultThreshold)
      ensures State() == Mount(attached)
      ensures this.threshold == threshold
    {
      this.threshold := threshold;
      isVisible := false;
      observing := attached;
    }

    /** The observer callback, delivered only while the target is observed. */
    method OnEntries(batch: seq<bool>)
      modifies this
      ensures State() == Apply(old(State()), Entries(batch))
    {
      if !observing {
        return;
      }
      ghost var l0 := State();
      var i := 0;
      while i < |batch|
        invariant 0 <= i <= |batch|
        invariant State() == Deliver(l0, batch[..i])
      {
        assert batch[..i + 1] == batch[..i] + [batch[i]];
        if batch[i] {
          isVisible := true;
          observing := false;
        }
        i := i + 1;
      }
      assert batch[..i] == batch;
    }

    /** The effect cleanup: unobserve the target if there was one. */
    method Teardown()
      modifies this
      ensures State() == Apply(old(State()), Event.Teardown)
    {
      observing := false;
    }
  }
}
