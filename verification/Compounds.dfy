/** Switch, reload and close as functions: which single operations they perform, on what, and when they stop. */
module Compounds {
  import opened Lifecycle
  import opened Plugins
  import opened ContextTree
  import opened StopTheorems
  import opened Names
  import opened Entries
  import opened Protocol
  import opened Invariant
  import opened Operations
  import opened OperationTheorems
  import PrimSteps

  /** One operation on a sound entry: it stays sound, and its result means what it says. */
  ghost function Work(env: Env, h: Held, trace: seq<Event>, op: Prim, built: Option<Tree>): (out: Outcome)
    requires Sound(h) && (built.Some? ==> NewTree(built.value))
    ensures Sound(out.held) && Means(h.e, op, out.held.e, out.ret)
  {
    EveryOperationKeeps(env, h, trace, op, built, h.e.generation + 1);
    ResultsMean(env, h, trace, op, built, h.e.generation + 1);
    Operate(env, h, trace, op, built, h.e.generation + 1)
  }

  /** The HANDOVER_STATE_TYPE owner of an entry, if it has a local root. */
  function Root(h: Held): Option<PluginClass> {
    if h.tree.Some? then h.tree.value.plugin else None
  }

  // ------------------------------------------------------------------- switch

  /** The comparison of the handover types; a missing instance raises. */
  function TypesMatch(a: Held, b: Held): Ret {
    if Root(a).None? || Root(b).None? then Raised else Ret(Root(a).value.handover == Root(b).value.handover, None)
  }

  /** Both entries of a switch, and what it returns. */
  datatype Pair = Pair(source: Held, target: Held, trace: seq<Event>, ret: Ret)

  /** Load and configure the target as far as needed. */
  ghost function Readied(env: Env, h: Held, trace: seq<Event>, built: Option<Tree>): (out: Outcome)
    requires Sound(h) && (built.Some? ==> NewTree(built.value))
    ensures Sound(out.held)
  {
    var loaded :=
      if !h.e.state.UNLOADED? then Outcome(h, trace, Ret(true, None))
      else if env.closing then Outcome(h, trace, Ret(false, None))
      else Work(env, h, trace, Load(None), built);
    if Succeeded(loaded.ret) && loaded.held.e.state.UNCONFIGURED? then
      Work(env, loaded.held, loaded.trace, Configure, None)
    else loaded
  }

  /** Stop the source, then start the target with what the source exported. */
  ghost function Exchanged(env: Env, a: Held, b: Held, trace: seq<Event>, transfer: bool): (out: Pair)
    requires Sound(a) && Sound(b)
    ensures Sound(out.source) && Sound(out.target)
  {
    var stop := Work(env, a, trace, Deactivate(true), None);
    if !Succeeded(stop.ret) then Pair(stop.held, b, stop.trace, stop.ret)
    else
      var start := Work(env, b, stop.trace, Activate(if transfer then stop.ret.state else None), None);
      Pair(stop.held, start.held, start.trace, start.ret)
  }

  /** The part of a switch after its target was made ready. */
  ghost function Settled(env: Env, a: Held, b: Held, trace: seq<Event>, transfer: bool): (out: Pair)
    requires Sound(a) && Sound(b)
    ensures Sound(out.source) && Sound(out.target)
  {
    if !b.e.state.INACTIVE? then Pair(a, b, trace, Ret(false, None))
    else if transfer && !Succeeded(TypesMatch(a, b)) then Pair(a, b, trace, TypesMatch(a, b))
    else Exchanged(env, a, b, trace, transfer)
  }

  ghost function Switched(env: Env, a: Held, b: Held, trace: seq<Event>, transfer: bool, built: Option<Tree>): (out: Pair)
    requires Sound(a) && Sound(b) && (built.Some? ==> NewTree(built.value))
    ensures Sound(out.source) && Sound(out.target)
  {
    if Calling(a.e, env.t) > 0 || Calling(b.e, env.t) > 0 || !a.e.state.ACTIVE? then Pair(a, b, trace, Ret(false, None))
    else
      var ready := Readied(env, b, trace, built);
      if !Succeeded(ready.ret) then Pair(a, ready.held, ready.trace, ready.ret)
      else Settled(env, a, ready.held, ready.trace, transfer)
  }

  lemma ReadiedStaysShut(env: Env, h: Held, trace: seq<Event>, built: Option<Tree>)
    requires Sound(h) && (built.Some? ==> NewTree(built.value))
    ensures var out := Readied(env, h, trace, built);
            && (out.held.e.state.ACTIVE? ==> h.e.state.ACTIVE?) && (out.held.e.gate ==> h.e.gate)
            && (out.held.e.callers == h.e.callers)
  {
    hide Work, Counted, WellFormed, Owing;
  }

  /** A switch that stops its source stops it once; the target then gets what was exported, or nothing. */
  lemma ExchangeMeans(env: Env, a: Held, b: Held, trace: seq<Event>, transfer: bool)
    requires Sound(a) && Sound(b) && a.e.state.ACTIVE? && b.e.state.INACTIVE?
    ensures var out := Exchanged(env, a, b, trace, transfer);
            var stop := Work(env, a, trace, Deactivate(true), None);
            && out.source == stop.held
            && (Succeeded(out.ret) ==>
                  && Succeeded(stop.ret) && out.source.e.state.INACTIVE? && !out.source.e.gate && out.target.e.state.ACTIVE?)
            && (Succeeded(stop.ret) && !Succeeded(out.ret) ==>
                  && out.source.e.state.INACTIVE? && !out.source.e.gate && !out.target.e.state.ACTIVE? && !out.target.e.gate)
            && (!Succeeded(stop.ret) ==> out.target == b && !Succeeded(out.ret) && !out.source.e.state.INACTIVE?)
            && !(out.source.e.gate && out.target.e.gate)
  {
    hide Work, Counted, WellFormed, Owing;
    FailedStop(env, a, trace);
    GateIsActive(a);
    GateIsActive(b);
    GateIsActive(Exchanged(env, a, b, trace, transfer).source);
    GateIsActive(Exchanged(env, a, b, trace, transfer).target);
  }

  /** A stop that fails does not leave the entry inactive. */
  lemma FailedStop(env: Env, h: Held, trace: seq<Event>)
    requires Sound(h) && h.e.state.ACTIVE?
    ensures var stop := Work(env, h, trace, Deactivate(true), None); !Succeeded(stop.ret) ==> !stop.held.e.state.INACTIVE?
  {
    hide Counted, WellFormed, Owing, Perform, Refuses;
  }

  lemma GateIsActive(h: Held)
    requires Sound(h)
    ensures h.e.gate ==> h.e.state.ACTIVE?
  {
  }

  /**
   * What a switch achieves when nothing interferes. Success: the source was active
   * and is inactive, the target is active, and it was activated with exactly what the
   * source exported iff state is transferred. Failure: the source is as it was, or it
   * was stopped, or its stop failed; if it was stopped, it is inactive and the target
   * is not active. The gates are never open together unless they were before.
   */
  lemma SwitchMeans(env: Env, a: Held, b: Held, trace: seq<Event>, transfer: bool, built: Option<Tree>)
    requires Sound(a) && Sound(b) && (built.Some? ==> NewTree(built.value))
    ensures var out := Switched(env, a, b, trace, transfer, built);
            var ready := Readied(env, b, trace, built);
            var stop := Work(env, a, ready.trace, Deactivate(true), None);
            && (out.source == a || out.source == stop.held)
            && (Succeeded(out.ret) ==>
                  && a.e.state.ACTIVE? && Succeeded(stop.ret) && out.source == stop.held
                  && out.source.e.state.INACTIVE? && !out.source.e.gate && out.target.e.state.ACTIVE?
                  && out.target == Work(env, ready.held, stop.trace, Activate(if transfer then stop.ret.state else None), None).held)
            && (!Succeeded(out.ret) && !b.e.state.ACTIVE? ==> !out.target.e.state.ACTIVE?)
            && (!Succeeded(out.ret) && out.source.e.state.INACTIVE? && a.e.state.ACTIVE? ==>
                  Succeeded(stop.ret) && out.source == stop.held && !out.target.e.state.ACTIVE?)
            && (!(a.e.gate && b.e.gate) ==> !(out.source.e.gate && out.target.e.gate))
  {
    hide Work, Readied, Counted, WellFormed, Owing, Sound;
    var ready := Readied(env, b, trace, built);
    ReadiedStaysShut(env, b, trace, built);
    if a.e.state.ACTIVE? && ready.held.e.state.INACTIVE? {
      ExchangeMeans(env, a, ready.held, ready.trace, transfer);
    }
  }

  // ------------------------------------------------------------------- reload

  /** Load and configure again, and activate with the snapshot if the entry was active. */
  ghost function Restarted(env: Env, h: Held, trace: seq<Event>, wasActive: bool, snapshot: Option<Value>, built: Option<Tree>): (out: Outcome)
    requires Sound(h) && (built.Some? ==> NewTree(built.value))
    ensures Sound(out.held)
  {
    if env.closing then Outcome(h, trace, Ret(false, None))
    else
      var loaded := Work(env, h, trace, Load(None), built);
      if !Succeeded(loaded.ret) then loaded
      else
        var ready := Work(env, loaded.held, loaded.trace, Configure, None);
        if !Succeeded(ready.ret) then ready
        else if !wasActive then ready.(ret := Ret(true, None))
        else Work(env, ready.held, ready.trace, Activate(snapshot), None)
  }

  /** Stop the entry if it is active, and unload it; a successful result carries what the stop exported. */
  ghost function TakenDown(env: Env, h: Held, trace: seq<Event>): (out: Outcome)
    requires Sound(h)
    ensures Sound(out.held)
    ensures Succeeded(out.ret) ==> out.held.e.state.UNLOADED? && out.held.e.transition.None?
    ensures out.held.e.generation == h.e.generation
  {
    var stop := if h.e.state.ACTIVE? then Work(env, h, trace, Deactivate(true), None) else Outcome(h, trace, Ret(true, None));
    if !Succeeded(stop.ret) then stop
    else
      var unload := Work(env, stop.held, stop.trace, Unload(true), None);
      if Succeeded(unload.ret) then unload.(ret := stop.ret) else unload
  }

  /** `refreshed` says whether there is a refresh, and whether it returned. */
  ghost function Reloaded(env: Env, h: Held, trace: seq<Event>, transfer: bool, refreshed: Option<bool>, built: Option<Tree>): (out: Outcome)
    requires Sound(h) && (built.Some? ==> NewTree(built.value))
    ensures Sound(out.held)
  {
    var down := TakenDown(env, h, trace);
    if !Succeeded(down.ret) then down
    else if refreshed == Some(false) then
      RefreshFailedSound(down.held);
      Outcome(down.held.(e := Finish(down.held.e, UNLOADED, false)), down.trace, Ret(false, None))
    else Restarted(env, down.held, down.trace, h.e.state.ACTIVE?, if transfer then down.ret.state else None, built)
  }

  lemma RefreshFailedSound(h: Held)
    requires Sound(h) && h.e.state.UNLOADED? && h.e.transition.None?
    ensures Sound(h.(e := Finish(h.e, UNLOADED, false)))
  {
    hide WellFormed, Owing, Counted;
    PrimSteps.SameCounted(h.e, Finish(h.e, UNLOADED, false));
  }

  /** A stop that fails shuts the gate, unless it was refused. */
  lemma FailedStopShuts(env: Env, h: Held, trace: seq<Event>)
    requires Sound(h)
    ensures var stop := Work(env, h, trace, Deactivate(true), None);
            !Succeeded(stop.ret) && stop.held.e.gate ==> stop == Refusal(h, trace)
  {
    hide Counted, WellFormed, Owing, CallBack;
  }

  /** Nothing but an activation that succeeds opens a gate here. */
  lemma RestartStaysShut(env: Env, h: Held, trace: seq<Event>, wasActive: bool, snapshot: Option<Value>, built: Option<Tree>)
    requires Sound(h) && (built.Some? ==> NewTree(built.value)) && !h.e.gate
    ensures var out := Restarted(env, h, trace, wasActive, snapshot, built);
            !Succeeded(out.ret) ==> !out.held.e.gate
  {
    hide Work, Counted, WellFormed, Owing, Sound, NewTree;
  }

  /** Once the stop was not refused, the gate is shut until the entry is activated again. */
  lemma TakenDownShuts(env: Env, h: Held, trace: seq<Event>)
    requires Sound(h)
    ensures var down := TakenDown(env, h, trace);
            down.held.e.gate ==> !Succeeded(down.ret) && h.e.gate && down == Refusal(h, trace)
  {
    hide Work, Counted, WellFormed, Owing, Sound;
    GateIsActive(h);
    if h.e.state.ACTIVE? {
      var stop := Work(env, h, trace, Deactivate(true), None);
      FailedStopShuts(env, h, trace);
      GateIsActive(stop.held);
    }
    var down := TakenDown(env, h, trace);
    GateIsActive(down.held);
  }

  /**
   * A successful reload counts one generation and restores activity. A failed one
   * leaves the gate open only if it was open and nothing at all was done.
   */
  lemma ReloadMeans(env: Env, h: Held, trace: seq<Event>, transfer: bool, refreshed: Option<bool>, built: Option<Tree>)
    requires Sound(h) && (built.Some? ==> NewTree(built.value))
    ensures var out := Reloaded(env, h, trace, transfer, refreshed, built);
            && (Succeeded(out.ret) ==>
                  && out.held.e.generation == h.e.generation + 1
                  && out.held.e.state == (if h.e.state.ACTIVE? then ACTIVE else INACTIVE)
                  && refreshed != Some(false) && !env.closing)
            && (!Succeeded(out.ret) ==> (out.held.e.gate <==> h.e.gate && out == Refusal(h, trace)))
            && h.e.generation <= out.held.e.generation <= h.e.generation + 1
  {
    hide Work, Counted, WellFormed, Owing, Sound, Restarted, TakenDown;
    RestartMeans();
    TakenDownShuts(env, h, trace);
    var down := TakenDown(env, h, trace);
    if Succeeded(down.ret) {
      RestartStaysShut(env, down.held, down.trace, h.e.state.ACTIVE?, if transfer then down.ret.state else None, built);
    }
  }

  lemma RestartMeans()
    ensures forall env: Env, h: Held, trace: seq<Event>, wasActive, snapshot: Option<Value>, built: Option<Tree> |
              Sound(h) && (built.Some? ==> NewTree(built.value)) ::
              var out := Restarted(env, h, trace, wasActive, snapshot, built);
              && (Succeeded(out.ret) ==>
                    out.held.e.generation == h.e.generation + 1 && out.held.e.state == (if wasActive then ACTIVE else INACTIVE) && !env.closing)
              && h.e.generation <= out.held.e.generation <= h.e.generation + 1
  {
    hide Work, Counted, WellFormed, Owing, Sound, NewTree;
  }

  // -------------------------------------------------------------------- close

  /** All entries after a sweep, and whether every unload succeeded. */
  datatype Swept = Swept(held: map<Name, Held>, trace: seq<Event>, ok: bool)

  ghost predicate AllSound(held: map<Name, Held>) {
    forall n | n in held :: Sound(held[n])
  }

  /** Unload the named entries from the last to the first, whatever fails. */
  ghost function UnloadedAll(env: Env, names: seq<Name>, held: map<Name, Held>, trace: seq<Event>): (out: Swept)
    requires AllSound(held) && forall n | n in names :: n in held
    ensures AllSound(out.held) && out.held.Keys == held.Keys
    decreases |names|
  {
    if names == [] then Swept(held, trace, true)
    else
      var k := |names| - 1;
      var u := Work(env, held[names[k]], trace, Unload(true), None);
      var rest := UnloadedAll(env, names[..k], held[names[k] := u.held], u.trace);
      rest.(ok := Succeeded(u.ret) && rest.ok)
  }

  /** The names before `k` are swept after the others. */
  lemma {:induction false} SweepSplits(env: Env, names: seq<Name>, k: nat, held: map<Name, Held>, trace: seq<Event>)
    requires AllSound(held) && (forall n | n in names :: n in held) && k <= |names|
    ensures var later := UnloadedAll(env, names[k..], held, trace);
            var rest := UnloadedAll(env, names[..k], later.held, later.trace);
            UnloadedAll(env, names, held, trace) == rest.(ok := later.ok && rest.ok)
    decreases |names|
  {
    hide Work, Sound, UnloadedAll;
    if k == |names| {
      assert names[..k] == names && names[k..] == [];
      SweepNothing(env, held, trace);
    } else {
      var n := |names| - 1;
      var u := Work(env, held[names[n]], trace, Unload(true), None);
      SweepSplits(env, names[..n], k, held[names[n] := u.held], u.trace);
      assert names[..n][..k] == names[..k] && names[..n][k..] == names[k..][..n - k] && names[k..][n - k] == names[n];
      SweepLast(env, names, held, trace);
      SweepLast(env, names[k..], held, trace);
    }
  }

  lemma SweepNothing(env: Env, held: map<Name, Held>, trace: seq<Event>)
    requires AllSound(held)
    ensures UnloadedAll(env, [], held, trace) == Swept(held, trace, true)
  {
  }

  lemma SweepLast(env: Env, names: seq<Name>, held: map<Name, Held>, trace: seq<Event>)
    requires AllSound(held) && (forall n | n in names :: n in held) && names != []
    ensures var k := |names| - 1;
            var u := Work(env, held[names[k]], trace, Unload(true), None);
            var rest := UnloadedAll(env, names[..k], held[names[k] := u.held], u.trace);
            UnloadedAll(env, names, held, trace) == rest.(ok := Succeeded(u.ret) && rest.ok)
  {
    hide Work, Sound;
  }

  /** A sweep leaves the entries that are not named alone. */
  lemma {:induction false} SweepSpares(env: Env, names: seq<Name>, held: map<Name, Held>, trace: seq<Event>, n: Name)
    requires AllSound(held) && (forall m | m in names :: m in held) && n in held && n !in names
    ensures UnloadedAll(env, names, held, trace).held[n] == held[n]
    decreases |names|
  {
    hide Work, Sound;
    if names != [] {
      var k := |names| - 1;
      var u := Work(env, held[names[k]], trace, Unload(true), None);
      SweepSpares(env, names[..k], held[names[k] := u.held], u.trace, n);
    }
  }

  /**
   * Close unloads each entry exactly once, in the state it had, right after all
   * entries that were created later, and goes on whatever fails.
   */
  lemma SweepsInReverse(env: Env, names: seq<Name>, held: map<Name, Held>, trace: seq<Event>, i: nat)
    requires AllSound(held) && (forall n | n in names :: n in held) && i < |names|
    requires forall j, k | 0 <= j < k < |names| :: names[j] != names[k]
    ensures var later := UnloadedAll(env, names[i + 1..], held, trace);
            var u := Work(env, held[names[i]], later.trace, Unload(true), None);
            && UnloadedAll(env, names, held, trace).held[names[i]] == u.held
            && (UnloadedAll(env, names, held, trace).ok ==> later.ok && Succeeded(u.ret))
            && (i == 0 ==> UnloadedAll(env, names, held, trace).trace == u.trace)
            && (i == 0 ==> (UnloadedAll(env, names, held, trace).ok <==> later.ok && Succeeded(u.ret)))
  {
    hide Work, Sound;
    var later := UnloadedAll(env, names[i + 1..], held, trace);
    SweepSplits(env, names, i + 1, held, trace);
    SweepSpares(env, names[i + 1..], held, trace, names[i]);
    var u := Work(env, held[names[i]], later.trace, Unload(true), None);
    assert names[..i + 1][..i] == names[..i] && names[..i + 1][i] == names[i];
    SweepSpares(env, names[..i], later.held[names[i] := u.held], u.trace, names[i]);
  }

  /** If every unload succeeded, every named entry is unloaded. */
  lemma {:induction false} SweptIsUnloaded(env: Env, names: seq<Name>, held: map<Name, Held>, trace: seq<Event>)
    requires AllSound(held) && forall n | n in names :: n in held
    requires UnloadedAll(env, names, held, trace).ok
    ensures forall n | n in names :: Emptied(UnloadedAll(env, names, held, trace).held[n])
    decreases |names|
  {
    hide Work, Emptied;
    if names != [] {
      var k := |names| - 1;
      var u := Work(env, held[names[k]], trace, Unload(true), None);
      var held' := held[names[k] := u.held];
      SweptIsUnloaded(env, names[..k], held', u.trace);
      UnloadedIsEmpty(u.held);
      forall n | n in names ensures Emptied(UnloadedAll(env, names, held, trace).held[n]) {
        if n !in names[..k] {
          SweepSpares(env, names[..k], held', u.trace, n);
        }
      }
    }
  }

  predicate Emptied(h: Held) {
    h.e.state.UNLOADED? && h.e.context.None? && h.tree.None?
  }

  lemma UnloadedIsEmpty(h: Held)
    requires Sound(h) && h.e.state.UNLOADED? && h.e.transition.None?
    ensures Emptied(h)
  {
  }
}
