/** One managed entry and its condition-protected sections, as functions on records. */
module Entries {
  import opened Lifecycle

  type Tid = nat
  type ContextId = nat

  datatype Op = OpLoad | OpConfigure | OpActivate | OpDeactivate | OpCleanup | OpUnload

  datatype Entry = Entry(
    component: string,
    context: Option<ContextId>,
    generation: nat,
    state: LifecycleState,
    transition: Option<Op>,
    operationThread: Option<Tid>,
    lastOk: bool,
    gate: bool,
    inFlight: int,
    callers: map<Tid, nat>,
    configured: bool,
    mayBeActive: bool)

  const NewEntry: Entry :=
    Entry("", None, 0, UNLOADED, None, None, true, false, 0, map[], false, false)

  const EVERY_STATE: set<LifecycleState> := {UNLOADED, UNCONFIGURED, INACTIVE, ACTIVE, ERROR}

  function Calling(e: Entry, t: Tid): nat {
    if t in e.callers then e.callers[t] else 0
  }

  /** `_begin` returns a failure. */
  predicate Refuses(e: Entry, t: Tid, closing: bool, allowed: set<LifecycleState>, duringClose: bool) {
    || Calling(e, t) > 0
    || e.transition.Some?
    || (closing && !duringClose)
    || e.state !in allowed
  }

  /** `_invalid` */
  function Reject(e: Entry): Entry {
    if e.transition.None? then e.(lastOk := false) else e
  }

  /** `_begin` once nothing refuses. */
  function Begin(e: Entry, op: Op, t: Tid): Entry {
    e.(transition := Some(op), operationThread := Some(t), gate := false)
  }

  /** `_finish` */
  function Finish(e: Entry, state: LifecycleState, ok: bool): Entry {
    e.(state := state, transition := None, operationThread := None, lastOk := ok, gate := state.ACTIVE? && ok)
  }

  /** A borrow of generation `generation` passes its checks. */
  predicate Lendable(e: Entry, generation: Option<nat>) {
    (generation.None? || generation.value == e.generation) && e.gate && e.state.ACTIVE?
  }

  function Lend(e: Entry, t: Tid): Entry {
    e.(inFlight := e.inFlight + 1, callers := e.callers[t := Calling(e, t) + 1])
  }

  function GiveBack(e: Entry, t: Tid): Entry
    requires Calling(e, t) > 0
  {
    e.(inFlight := e.inFlight - 1,
       callers := if e.callers[t] == 1 then e.callers - {t} else e.callers[t := e.callers[t] - 1])
  }

  /** The sum of all callers' counts. */
  ghost function Total(callers: map<Tid, nat>): nat
    decreases |callers|
  {
    if callers == map[] then 0
    else
      var t :| t in callers;
      callers[t] + Total(callers - {t})
  }

  lemma {:induction false} TotalWithout(callers: map<Tid, nat>, t: Tid)
    requires t in callers
    ensures Total(callers) == callers[t] + Total(callers - {t})
    decreases |callers|
  {
    var u :| u in callers && Total(callers) == callers[u] + Total(callers - {u});
    if u != t {
      TotalWithout(callers - {u}, t);
      TotalWithout(callers - {t}, u);
      assert callers - {u} - {t} == callers - {t} - {u};
    }
  }

  ghost predicate Counted(e: Entry) {
    e.inFlight == Total(e.callers) && forall t | t in e.callers :: e.callers[t] > 0
  }

  lemma LendCounted(e: Entry, t: Tid)
    requires Counted(e)
    ensures Counted(Lend(e, t)) && Lend(e, t).inFlight > 0
  {
    var e' := Lend(e, t);
    TotalWithout(e'.callers, t);
    if t in e.callers {
      TotalWithout(e.callers, t);
      assert e'.callers - {t} == e.callers - {t};
    } else {
      assert e'.callers - {t} == e.callers;
    }
  }

  lemma GiveBackCounted(e: Entry, t: Tid)
    requires Counted(e) && Calling(e, t) > 0
    ensures Counted(GiveBack(e, t)) && e.inFlight > 0
  {
    var e' := GiveBack(e, t);
    TotalWithout(e.callers, t);
    if e.callers[t] != 1 {
      TotalWithout(e'.callers, t);
      assert e'.callers - {t} == e.callers - {t};
    }
  }

  /** Somebody can give back whenever a call is in flight. */
  lemma SomeCaller(e: Entry) returns (t: Tid)
    requires Counted(e) && e.inFlight > 0
    ensures Calling(e, t) > 0
  {
    assert e.callers != map[];
    t :| t in e.callers;
  }
}
