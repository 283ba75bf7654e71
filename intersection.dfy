/**
 * `hooks/useIntersectionObserver.ts`. The platform observer is reduced to a
 * connected flag (single hook) or to the set of elements it watches
 * (multiple hook); its callbacks arrive as events carrying the reported
 * intersection values.
 */
module Intersection {
  import opened Wrappers

  /** The options of both hooks; `None` is an absent key. */
  datatype ObserverOptions = ObserverOptions(
    threshold: Option<real>,
    rootMargin: Option<string>,
    freezeOnceVisible: Option<bool>,
    initialIsIntersecting: Option<bool>)

  /** The options once destructuring defaults are applied. */
  datatype Resolved = Resolved(threshold: real, rootMargin: string, freeze: bool, initial: bool)

  function Resolve(o: ObserverOptions): (r: Resolved)
    ensures o.threshold.None? ==> r.threshold == 0.1
    ensures o.threshold.Some? ==> r.threshold == o.threshold.value
    ensures o.rootMargin.None? ==> r.rootMargin == "0px"
    ensures o.rootMargin.Some? ==> r.rootMargin == o.rootMargin.value
    ensures r.freeze <==> o.freezeOnceVisible == Some(true)
    ensures r.initial <==> o.initialIsIntersecting == Some(true)
  {
    Resolved(o.threshold.GetOr(0.1), o.rootMargin.GetOr("0px"),
             o.freezeOnceVisible.GetOr(false), o.initialIsIntersecting.GetOr(false))
  }

  // ---------------------------------------------------------------------
  // useIntersectionObserver: one element, an optional freeze latch

  /** The hook's state and how many platform observers it has created. */
  datatype LatchState = LatchState(isIntersecting: bool, frozen: bool, connected: bool, observersCreated: nat)

  datatype LatchEvent =
    | Effect(elementAttached: bool)  // the effect body runs
    | Entry(intersecting: bool)      // a callback; its first entry's value
    | Cleanup                        // the effect's cleanup, observer.disconnect()

  function InitialLatch(o: ObserverOptions): (s: LatchState)
    ensures s.isIntersecting == o.initialIsIntersecting.GetOr(false)
    ensures !s.frozen && !s.connected && s.observersCreated == 0
  {
    LatchState(Resolve(o).initial, false, false, 0)
  }

  /**
   * One event. The effect creates an observer only when an element is
   * attached and the latch is not frozen under `freeze`; a disconnected
   * observer delivers no callbacks.
   */
  function LatchStep(freeze: bool, s: LatchState, e: LatchEvent): LatchState {
    match e
    case Effect(attached) =>
      if !attached || (s.frozen && freeze) then s
      else s.(connected := true, observersCreated := s.observersCreated + 1)
    case Entry(v) =>
      if !s.connected then s
      else if v && freeze then s.(isIntersecting := true, frozen := true, connected := false)
      else s.(isIntersecting := v)
    case Cleanup =>
      s.(connected := false)
  }

  function LatchRun(freeze: bool, s: LatchState, evs: seq<LatchEvent>): LatchState
    decreases |evs|
  {
    if evs == [] then s else LatchRun(freeze, LatchStep(freeze, s, evs[0]), evs[1..])
  }

  /** The latch invariant: a frozen hook is visible, disconnected, and freezing. */
  ghost predicate LatchInv(freeze: bool, s: LatchState) {
    s.frozen ==> freeze && s.isIntersecting && !s.connected
  }

  lemma {:induction false} LatchInvHolds(freeze: bool, s: LatchState, evs: seq<LatchEvent>)
    requires LatchInv(freeze, s)
    ensures LatchInv(freeze, LatchRun(freeze, s, evs))
    decreases |evs|
  {
    if evs != [] {
      LatchInvHolds(freeze, LatchStep(freeze, s, evs[0]), evs[1..]);
    }
  }

  /**
   * Once frozen under `freezeOnceVisible`, nothing changes any more: the value
   * stays true and re-running the effect creates no observer.
   */
  lemma {:induction false} FrozenLatchIsFinal(s: LatchState, evs: seq<LatchEvent>)
    requires s.frozen && LatchInv(true, s)
    ensures LatchRun(true, s, evs) == s
    decreases |evs|
  {
    if evs != [] {
      assert LatchStep(true, s, evs[0]) == s;
      FrozenLatchIsFinal(s, evs[1..]);
    }
  }

  /** From the hook's initial state, every reachable frozen state is visible for good. */
  lemma FrozenStaysVisible(o: ObserverOptions, before: seq<LatchEvent>, after: seq<LatchEvent>)
    requires LatchRun(Resolve(o).freeze, InitialLatch(o), before).frozen
    ensures LatchRun(Resolve(o).freeze, LatchRun(Resolve(o).freeze, InitialLatch(o), before), after).isIntersecting
  {
    var f := Resolve(o).freeze;
    LatchInvHolds(f, InitialLatch(o), before);
    FrozenLatchIsFinal(LatchRun(f, InitialLatch(o), before), after);
  }

  /** The first intersecting entry under `freeze` sets the latch and disconnects. */
  lemma FirstIntersectionFreezes(s: LatchState)
    requires s.connected
    ensures var r := LatchStep(true, s, Entry(true)); r.frozen && r.isIntersecting && !r.connected
  {
  }

  /** Without `freeze` the value follows the latest entry, back to false too. */
  lemma UnfrozenTracksLatestEntry(s: LatchState, v: bool)
    requires s.connected
    ensures LatchStep(false, s, Entry(v)).isIntersecting == v
    ensures LatchStep(false, s, Entry(v)).connected
  {
  }

  /** With no element attached the effect creates no observer. */
  lemma NoElementNoObserver(freeze: bool, s: LatchState)
    ensures LatchStep(freeze, s, Effect(false)) == s
  {
  }

  /** The hook's mutable state: the `isIntersecting` state, the `frozen` ref, the live observer. */
  class VisibilityLatch {
    const freeze: bool
    var isIntersecting: bool
    var frozen: bool
    var connected: bool
    ghost var observersCreated: nat

    ghost function Model(): LatchState
      reads this
    {
      LatchState(isIntersecting, frozen, connected, observersCreated)
    }

    constructor (o: ObserverOptions)
      ensures freeze == Resolve(o).freeze && Model() == InitialLatch(o)
    {
      freeze := o.freezeOnceVisible.GetOr(false);
      isIntersecting := o.initialIsIntersecting.GetOr(false);
      frozen := false;
      connected := false;
      observersCreated := 0;
    }

    method RunEffect(elementAttached: bool)
      modifies this
      ensures Model() == LatchStep(freeze, old(Model()), Effect(elementAttached))
    {
      if !elementAttached {
        return;
      }
      if frozen && freeze {
        return;
      }
      connected := true;
      observersCreated := observersCreated + 1;
    }

    method OnEntry(intersecting: bool)
      modifies this
      ensures Model() == LatchStep(freeze, old(Model()), Entry(intersecting))
    {
      if !connected {
        return;
      }
      isIntersecting := intersecting;
      if intersecting && freeze {
        frozen := true;
        connected := false;
      }
    }

    method RunCleanup()
      modifies this
      ensures Model() == LatchStep(freeze, old(Model()), Cleanup)
    {
      connected := false;
    }
  }

  // ---------------------------------------------------------------------
  // useMultipleIntersectionObserver: a map of elements to visibility values

  type Element = nat

  /**
   * The hook's state: the `entries` map, the `frozenElements` set, whether
   * `observerRef.current` is set, the elements the platform observer
   * watches, and the elements unobserved because they froze, in order.
   */
  datatype MultiState = MultiState(
    entries: map<Element, bool>,
    frozen: set<Element>,
    hasObserver: bool,
    observed: set<Element>,
    freezeLog: seq<Element>)

  function InitialMulti(): MultiState {
    MultiState(map[], {}, false, {}, [])
  }

  /** The effect: a new observer, watching nothing yet. */
  function MultiMount(s: MultiState): (r: MultiState)
    ensures r.hasObserver && r.observed == {}
    ensures r.entries == s.entries && r.frozen == s.frozen && r.freezeLog == s.freezeLog
  {
    s.(hasObserver := true, observed := {})
  }

  /** The cleanup disconnects the observer; the ref still holds it. */
  function MultiCleanup(s: MultiState): (r: MultiState)
    ensures r.observed == {} && r.hasObserver == s.hasObserver
    ensures r.entries == s.entries && r.frozen == s.frozen && r.freezeLog == s.freezeLog
  {
    s.(observed := {})
  }

  /** `observe(el)` inserts `el ↦ false` and nothing else; without an observer it does nothing. */
  function Observe(s: MultiState, el: Element): (r: MultiState)
    ensures !s.hasObserver ==> r == s
    ensures s.hasObserver ==> r.entries == s.entries[el := false] && r.observed == s.observed + {el}
    ensures r.frozen == s.frozen && r.freezeLog == s.freezeLog && r.hasObserver == s.hasObserver
  {
    if s.hasObserver then s.(entries := s.entries[el := false], observed := s.observed + {el}) else s
  }

  /** `unobserve(el)` deletes only `el`; without an observer it does nothing. */
  function Unobserve(s: MultiState, el: Element): (r: MultiState)
    ensures !s.hasObserver ==> r == s
    ensures s.hasObserver ==> r.entries == s.entries - {el} && r.observed == s.observed - {el}
    ensures r.frozen == s.frozen && r.freezeLog == s.freezeLog && r.hasObserver == s.hasObserver
  {
    if s.hasObserver then s.(entries := s.entries - {el}, observed := s.observed - {el}) else s
  }

  /** One reported entry of a callback. */
  datatype Report = Report(target: Element, intersecting: bool)

  function ApplyReport(freeze: bool, s: MultiState, e: Report): MultiState {
    var s1 := s.(entries := s.entries[e.target := e.intersecting]);
    if e.intersecting && freeze && e.target !in s.frozen then
      s1.(frozen := s.frozen + {e.target},
          observed := if s.hasObserver then s.observed - {e.target} else s.observed,
          freezeLog := s.freezeLog + [e.target])
    else s1
  }

  /** A callback: its reports applied in order. */
  function ApplyReports(freeze: bool, s: MultiState, batch: seq<Report>): MultiState
    decreases |batch|
  {
    if batch == [] then s
    else ApplyReport(freeze, ApplyReports(freeze, s, batch[..|batch| - 1]), batch[|batch| - 1])
  }

  /** Whether `el` is reported somewhere in the batch. */
  predicate Reported(batch: seq<Report>, el: Element) {
    exists k :: 0 <= k < |batch| && batch[k].target == el
  }

  /** Entries of elements a callback does not report are copied unchanged. */
  lemma {:induction false} UnreportedUnchanged(freeze: bool, s: MultiState, batch: seq<Report>, el: Element)
    requires !Reported(batch, el)
    ensures var r := ApplyReports(freeze, s, batch);
      (el in r.entries <==> el in s.entries) && (el in s.entries ==> r.entries[el] == s.entries[el])
    decreases |batch|
  {
    if batch != [] {
      var init := batch[..|batch| - 1];
      assert !Reported(init, el) by {
        forall k | 0 <= k < |init| ensures init[k].target != el {
          assert init[k] == batch[k];
        }
      }
      UnreportedUnchanged(freeze, s, init, el);
    }
  }

  /** A reported element holds the value of its last report in the batch. */
  lemma {:induction false} LastReportWins(freeze: bool, s: MultiState, batch: seq<Report>, k: nat)
    requires k < |batch|
    requires forall j :: k < j < |batch| ==> batch[j].target != batch[k].target
    ensures var r := ApplyReports(freeze, s, batch);
      batch[k].target in r.entries && r.entries[batch[k].target] == batch[k].intersecting
    decreases |batch|
  {
    var init := batch[..|batch| - 1];
    if k < |batch| - 1 {
      forall j | k < j < |init| ensures init[j].target != init[k].target {
        assert init[j] == batch[j] && init[k] == batch[k];
      }
      LastReportWins(freeze, s, init, k);
      assert init[k] == batch[k];
    }
  }

  /** The freeze bookkeeping: the log lists the frozen set, each element once. */
  ghost predicate FreezeInv(s: MultiState) {
    && (forall i, j :: 0 <= i < j < |s.freezeLog| ==> s.freezeLog[i] != s.freezeLog[j])
    && (forall x :: x in s.frozen <==> x in s.freezeLog)
  }

  /** Under any callback an element is unobserved for freezing at most once. */
  lemma {:induction false} FreezeAtMostOnce(freeze: bool, s: MultiState, batch: seq<Report>)
    requires FreezeInv(s)
    ensures FreezeInv(ApplyReports(freeze, s, batch))
    ensures s.frozen <= ApplyReports(freeze, s, batch).frozen
    ensures !freeze ==> ApplyReports(freeze, s, batch).frozen == s.frozen
    decreases |batch|
  {
    if batch != [] {
      FreezeAtMostOnce(freeze, s, batch[..|batch| - 1]);
    }
  }

  /** Freezing only shrinks the watched set, and a newly frozen element is no longer watched. */
  lemma {:induction false} FreezeUnobserves(freeze: bool, s: MultiState, batch: seq<Report>)
    ensures var r := ApplyReports(freeze, s, batch);
      && r.hasObserver == s.hasObserver && r.observed <= s.observed && s.frozen <= r.frozen
      && (s.hasObserver ==> forall x :: x in r.frozen && x !in s.frozen ==> x !in r.observed)
    decreases |batch|
  {
    if batch != [] {
      FreezeUnobserves(freeze, s, batch[..|batch| - 1]);
    }
  }

  /** With freeze, every intersecting report leaves its element frozen and no longer watched. */
  lemma {:induction false} IntersectingReportsFreeze(s: MultiState, batch: seq<Report>, k: nat)
    requires k < |batch| && batch[k].intersecting
    requires s.hasObserver
    ensures var r := ApplyReports(true, s, batch);
      batch[k].target in r.frozen && (batch[k].target !in s.frozen ==> batch[k].target !in r.observed)
    decreases |batch|
  {
    var init := batch[..|batch| - 1];
    FreezeUnobserves(true, s, init);
    if k < |batch| - 1 {
      assert init[k] == batch[k];
      IntersectingReportsFreeze(s, init, k);
    }
  }

  /** The hook's mutable state. */
  class MultiObserver {
    const freeze: bool
    var entries: map<Element, bool>
    var frozenElements: set<Element>
    var hasObserver: bool
    var observed: set<Element>
    ghost var freezeLog: seq<Element>

    ghost function Model(): MultiState
      reads this
    {
      MultiState(entries, frozenElements, hasObserver, observed, freezeLog)
    }

    constructor (o: ObserverOptions)
      ensures freeze == Resolve(o).freeze && Model() == InitialMulti()
    {
      freeze := o.freezeOnceVisible.GetOr(false);
      entries := map[];
      frozenElements := {};
      hasObserver := false;
      observed := {};
      freezeLog := [];
    }

    method Mount()
      modifies this
      ensures Model() == MultiMount(old(Model()))
    {
      hasObserver := true;
      observed := {};
    }

    method RunCleanup()
      modifies this
      ensures Model() == MultiCleanup(old(Model()))
    {
      observed := {};
    }

    method ObserveElement(el: Element)
      modifies this
      ensures Model() == Observe(old(Model()), el)
    {
      if hasObserver {
        observed := observed + {el};
        entries := entries[el := false];
      }
    }

    method UnobserveElement(el: Element)
      modifies this
      ensures Model() == Unobserve(old(Model()), el)
    {
      if hasObserver {
        observed := observed - {el};
        entries := entries - {el};
      }
    }

    /** The observer callback: a copy of the map updated report by report. */
    method OnReports(batch: seq<Report>)
      modifies this
      ensures Model() == ApplyReports(freeze, old(Model()), batch)
    {
      var newEntries: map<Element, bool> := entries;
      var i := 0;
      while i < |batch|
        invariant 0 <= i <= |batch|
        invariant Model().(entries := newEntries) == ApplyReports(freeze, old(Model()), batch[..i])
      {
        var e := batch[i];
        newEntries := newEntries[e.target := e.intersecting];
        if e.intersecting && freeze && e.target !in frozenElements {
          frozenElements := frozenElements + {e.target};
          if hasObserver {
            observed := observed - {e.target};
          }
          freezeLog := freezeLog + [e.target];
        }
        assert batch[..i + 1][..i] == batch[..i];
        i := i + 1;
      }
      assert batch[..i] == batch;
      entries := newEntries;
    }
  }
}
