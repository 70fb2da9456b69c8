/** When an undisturbed switch or reload succeeds, and which value goes from the root it stops to the root it starts. */
module CompoundTheorems {
  import opened Lifecycle
  import opened Plugins
  import opened ContextTree
  import opened Traces
  import opened StopTheorems
  import opened Names
  import opened Entries
  import opened Protocol
  import opened Invariant
  import opened Operations
  import opened OperationTheorems
  import opened Compounds
  import opened CallbackTheorems
  import StartTheorems

  // ------------------------------------------------------------ single operations

  /** Only a held tree of a root with an instance has a handover type to compare. */
  predicate HasRoot(h: Held) {
    h.tree.Some? && h.tree.value.plugin.Some?
  }

  /** The type that the root of an entry hands over, if any. */
  function HandedType(h: Held): Option<TypeName>
    requires HasRoot(h)
  {
    h.tree.value.plugin.value.handover
  }

  /** The event is a stop of this root that answered `x`, if the root hands over state; otherwise there is no `x`. */
  predicate Answered(root: Tree, x: Option<Value>, events: seq<Event>) {
    if root.plugin.Some? && root.plugin.value.handover.Some? then
      events != [] && events[0].call == OnDeactivate(root.id) && events[0].raw == GaveDeactivation(true, x)
    else x.None?
  }

  /** The last event started this root, with `x` if it hands over state and without arguments otherwise. */
  predicate Received(root: Tree, x: Option<Value>, events: seq<Event>) {
    root.plugin.Some? ==>
      && events != [] && var call := events[|events| - 1].call;
      && call.OnActivate? && call.node == root.id
      && call.args == if root.plugin.value.handover.Some? then [x] else []
  }

  /** A stop of an active entry that succeeds returns what its root answered. */
  lemma StopAnswers(env: Env, h: Held, trace: seq<Event>)
    requires Sound(h) && h.e.state.ACTIVE? && Succeeded(Work(env, h, trace, Deactivate(true), None).ret)
    ensures var stop := Work(env, h, trace, Deactivate(true), None);
            && h.tree.Some? && trace <= stop.trace
            && Answered(h.tree.value, stop.ret.state, Since(trace, stop.trace))
  {
    hide Counted, WellFormed, Owing, DeactivateTree, Refuses;
    NeedsContext(env, h, Deactivate(true));
    AcceptedIsFree(env, h.e, Deactivate(true));
    var t := h.tree.value;
    assert t.plugin.Some? ==> t.outstanding;
    RootOwes(t);
    StopGives(env.oracle, trace, t);
  }

  lemma RootOwes(t: Tree)
    requires WellFormed(t)
    ensures t.outstanding ==> t.plugin.Some?
  {
  }

  lemma AcceptedIsFree(env: Env, e: Entry, op: Prim)
    requires Accepted(env, e, op)
    ensures e.transition.None?
  {
  }

  /** An activation of an inactive entry that succeeds gives its root the state, and keeps the root's class. */
  lemma StartReceives(env: Env, h: Held, trace: seq<Event>, x: Option<Value>)
    requires Sound(h) && h.e.state.INACTIVE? && Succeeded(Work(env, h, trace, Activate(x), None).ret)
    ensures var start := Work(env, h, trace, Activate(x), None);
            && h.tree.Some? && start.held.tree.Some? && trace <= start.trace
            && start.held.tree.value.id == h.tree.value.id && start.held.tree.value.plugin == h.tree.value.plugin
            && Received(start.held.tree.value, x, Since(trace, start.trace))
  {
    hide Counted, WellFormed, Owing, ActivateTree, Refuses, StopTheorems.AllNative;
    NeedsContext(env, h, Activate(x));
    var t := h.tree.value;
    StartTheorems.ActivateSucceeds(env.oracle, trace, t, x);
    ShapeRoot(t, ActivateTree(env.oracle, trace, t, x).tree);
    var nodes := Instances(t);
    ActivationGives(env.oracle, trace, t, x, if nodes == [] then 0 else |nodes| - 1);
  }

  lemma ShapeRoot(a: Tree, b: Tree)
    requires Shape(a) == Shape(b)
    ensures a.id == b.id && a.plugin == b.plugin
  {
  }

  // ----------------------------------------------------------------------- switch

  /**
   * The target is made ready: an unloaded one is loaded and configured, an unconfigured
   * one is configured, and any other one is left as it is. A closing manager loads nothing.
   */
  lemma ReadiedMeans(env: Env, h: Held, trace: seq<Event>, built: Option<Tree>)
    requires Sound(h) && (built.Some? ==> NewTree(built.value))
    ensures var out := Readied(env, h, trace, built);
            && (!h.e.state.UNLOADED? && !h.e.state.UNCONFIGURED? ==> out == Outcome(h, trace, Ret(true, None)))
            && (h.e.state.UNLOADED? && env.closing ==> out == Outcome(h, trace, Ret(false, None)))
            && (h.e.state.UNCONFIGURED? ==> out == Work(env, h, trace, Configure, None))
            && (h.e.state.UNLOADED? && !env.closing ==>
                  var load := Work(env, h, trace, Load(None), built);
                  out == if Succeeded(load.ret) then Work(env, load.held, load.trace, Configure, None) else load)
            && (Succeeded(out.ret) && (h.e.state.UNLOADED? || h.e.state.UNCONFIGURED?) ==> out.held.e.state.INACTIVE?)
            && (!Succeeded(out.ret) ==> !out.held.e.state.INACTIVE? && !out.held.e.state.ACTIVE?)
            && out.held.e.generation <= h.e.generation + (if h.e.state.UNLOADED? then 1 else 0)
            && (Succeeded(out.ret) ==> out.held.e.generation == h.e.generation + (if h.e.state.UNLOADED? then 1 else 0))
  {
    hide Work, Counted, WellFormed, Owing, AllStarted;
    if h.e.state.UNLOADED? && !env.closing {
      var loaded := Work(env, h, trace, Load(None), built);
      FailedWork(env, h, trace, Load(None), built);
      FailedWork(env, loaded.held, loaded.trace, Configure, None);
    }
    FailedWork(env, h, trace, Configure, None);
  }

  /** A load or configuration that fails does not leave an inactive entry where there was none. */
  lemma FailedWork(env: Env, h: Held, trace: seq<Event>, op: Prim, built: Option<Tree>)
    requires Sound(h) && (built.Some? ==> NewTree(built.value)) && (op.Load? || op.Configure?)
    ensures var out := Work(env, h, trace, op, built);
            !Succeeded(out.ret) && !h.e.state.INACTIVE? ==> !out.held.e.state.INACTIVE?
  {
    hide Counted, WellFormed, Owing, AllStarted, Perform, Refuses;
  }

  /**
   * What a switch does is decided by the callers, the source's state, the readied target, and,
   * if it transfers state, by the handover types of the two roots. A different type is
   * refused, and a missing root raises, before anything is stopped. Otherwise the switch
   * succeeds iff both the stop and the activation do.
   */
  lemma SwitchDecides(env: Env, a: Held, b: Held, trace: seq<Event>, transfer: bool, built: Option<Tree>)
    requires Sound(a) && Sound(b) && (built.Some? ==> NewTree(built.value))
    ensures var out := Switched(env, a, b, trace, transfer, built);
            var ready := Readied(env, b, trace, built);
            var c := ready.held;
            if Calling(a.e, env.t) > 0 || Calling(b.e, env.t) > 0 || a.e.state != ACTIVE then out == Pair(a, b, trace, Ret(false, None))
            else if !Succeeded(ready.ret) then out == Pair(a, c, ready.trace, ready.ret)
            else if c.e.state != INACTIVE then out == Pair(a, c, ready.trace, Ret(false, None))
            else if transfer && !(HasRoot(a) && HasRoot(c)) then out == Pair(a, c, ready.trace, Raised)
            else if transfer && HandedType(a) != HandedType(c) then out == Pair(a, c, ready.trace, Ret(false, None))
            else
              var stop := Work(env, a, ready.trace, Deactivate(true), None);
              var start := Work(env, c, stop.trace, Activate(if transfer then stop.ret.state else None), None);
              && (Succeeded(out.ret) <==> Succeeded(stop.ret) && Succeeded(start.ret))
              && out.source == stop.held
              && (if Succeeded(stop.ret) then out.target == start.held && out.trace == start.trace
                  else out.target == c && out.trace == stop.trace)
  {
    hide Work, Readied, Sound, NewTree;
  }

  /**
   * The joint law of an undisturbed switch that transfers state and succeeds: both roots hand
   * over the same type, the source's root answered a value, and the target's root was started
   * with that value.
   */
  lemma SwitchDelivers(env: Env, a: Held, b: Held, trace: seq<Event>, built: Option<Tree>)
    returns (stops: seq<Event>, starts: seq<Event>, x: Option<Value>)
    requires Sound(a) && Sound(b) && (built.Some? ==> NewTree(built.value))
    requires Succeeded(Switched(env, a, b, trace, true, built).ret)
    ensures var out := Switched(env, a, b, trace, true, built);
            && out.trace == Readied(env, b, trace, built).trace + stops + starts
            && HasRoot(a) && HasRoot(out.target) && HandedType(a) == HandedType(out.target)
            && Answered(a.tree.value, x, stops) && Received(out.target.tree.value, x, starts)
  {
    hide Work, Readied, Sound, NewTree, Answered, Received;
    SwitchDecides(env, a, b, trace, true, built);
    var ready := Readied(env, b, trace, built);
    var stop := Work(env, a, ready.trace, Deactivate(true), None);
    StopAnswers(env, a, ready.trace);
    x := stop.ret.state;
    StartReceives(env, ready.held, stop.trace, x);
    stops, starts := Since(ready.trace, stop.trace), Since(stop.trace, Switched(env, a, b, trace, true, built).trace);
  }

  // ----------------------------------------------------------------------- reload

  /**
   * A reload stops an active entry, unloads it, refreshes, loads, configures, and activates an
   * entry that was active, with what the stop exported iff it transfers state. It succeeds iff
   * all of these do, and after the first failure it does nothing more.
   */
  lemma ReloadDecides(env: Env, h: Held, trace: seq<Event>, transfer: bool, refreshed: Option<bool>, built: Option<Tree>)
    requires Sound(h) && (built.Some? ==> NewTree(built.value))
    ensures var out := Reloaded(env, h, trace, transfer, refreshed, built);
            var wasActive := h.e.state == ACTIVE;
            var stop := if wasActive then Work(env, h, trace, Deactivate(true), None) else Outcome(h, trace, Ret(true, None));
            var unload := Work(env, stop.held, stop.trace, Unload(true), None);
            var load := Work(env, unload.held, unload.trace, Load(None), built);
            var configure := Work(env, load.held, load.trace, Configure, None);
            var start := Work(env, configure.held, configure.trace, Activate(if transfer then stop.ret.state else None), None);
            if !Succeeded(stop.ret) then out == stop
            else if !Succeeded(unload.ret) then out == unload
            else if refreshed == Some(false) then
              && !Succeeded(out.ret) && out.trace == unload.trace
              && out.held == unload.held.(e := unload.held.e.(lastOk := false))
            else if env.closing then out == Outcome(unload.held, unload.trace, Ret(false, None))
            else if !Succeeded(load.ret) then out == load
            else if !Succeeded(configure.ret) then out == configure
            else if wasActive then out == start
            else out == Outcome(configure.held, configure.trace, Ret(true, None))
  {
    hide Work, Sound, NewTree;
    var stop := if h.e.state == ACTIVE then Work(env, h, trace, Deactivate(true), None) else Outcome(h, trace, Ret(true, None));
    UnloadedIdle(env, stop.held, stop.trace);
  }

  lemma UnloadedIdle(env: Env, h: Held, trace: seq<Event>)
    requires Sound(h)
    ensures var out := Work(env, h, trace, Unload(true), None);
            Succeeded(out.ret) ==>
              Finish(out.held.e, UNLOADED, false) == out.held.e.(lastOk := false)
  {
    hide Counted, WellFormed, Owing, AllStarted, CallBack, Refuses;
  }

  /**
   * The joint law of an undisturbed reload of an active entry that succeeds: the root that was
   * stopped answered a value, and the new root was started with it iff state is transferred.
   */
  lemma ReloadDelivers(env: Env, h: Held, trace: seq<Event>, transfer: bool, refreshed: Option<bool>, built: Option<Tree>)
    returns (stops: seq<Event>, middle: seq<Event>, starts: seq<Event>, x: Option<Value>)
    requires Sound(h) && h.e.state.ACTIVE? && (built.Some? ==> NewTree(built.value))
    requires Succeeded(Reloaded(env, h, trace, transfer, refreshed, built).ret)
    ensures var out := Reloaded(env, h, trace, transfer, refreshed, built);
            && out.trace == trace + stops + middle + starts
            && h.tree.Some? && out.held.tree.Some?
            && Answered(h.tree.value, x, stops)
            && Received(out.held.tree.value, if transfer then x else None, starts)
  {
    hide Work, Sound, NewTree, Answered, Received, Reloaded;
    ReloadDecides(env, h, trace, transfer, refreshed, built);
    var stop := Work(env, h, trace, Deactivate(true), None);
    var unload := Work(env, stop.held, stop.trace, Unload(true), None);
    var load := Work(env, unload.held, unload.trace, Load(None), built);
    var configure := Work(env, load.held, load.trace, Configure, None);
    StopAnswers(env, h, trace);
    x := stop.ret.state;
    StartReceives(env, configure.held, configure.trace, if transfer then x else None);
    TraceGrows(env, stop.held, stop.trace, Unload(true), None);
    TraceGrows(env, unload.held, unload.trace, Load(None), built);
    TraceGrows(env, load.held, load.trace, Configure, None);
    stops, middle := Since(trace, stop.trace), Since(stop.trace, configure.trace);
    starts := Since(configure.trace, Reloaded(env, h, trace, transfer, refreshed, built).trace);
  }

  /** No operation takes anything back of what was asked. */
  lemma TraceGrows(env: Env, h: Held, trace: seq<Event>, op: Prim, built: Option<Tree>)
    requires Sound(h) && (built.Some? ==> NewTree(built.value)) && (op.Unload? || op.Load? || op.Configure?)
    ensures trace <= Work(env, h, trace, op, built).trace
  {
    hide Counted, WellFormed, Owing, AllStarted, CallBack, Refuses, Discarded;
    if op.Unload? {
      DiscardGrows(env, Entered(env, h, op), trace);
    }
    if op.Configure? && Accepted(env, h.e, op) {
      NeedsContext(env, h, op);
      CallBackGrows(env, Entered(env, h, op).(e := Entered(env, h, op).e.(configured := true)), trace, Callback.Configuring);
    }
  }

  lemma DiscardGrows(env: Env, h: Held, trace: seq<Event>)
    ensures trace <= Discarded(env, h, trace).trace
  {
    hide CallBack;
    if h.tree.Some? {
      CallBackGrows(env, h, trace, Callback.Deactivating);
      var stop := StopFirst(env, h, trace);
      CallBackGrows(env, stop.held, stop.trace, Callback.CleaningUp);
      var clean := ThenCleanUp(env, stop);
      CallBackGrows(env, clean.held, clean.trace, Callback.Closing);
      GrowsOn(trace, stop.trace, clean.trace);
      GrowsOn(trace, clean.trace, ThenClose(env, clean).trace);
    }
  }

  lemma GrowsOn(a: seq<Event>, b: seq<Event>, c: seq<Event>)
    requires a <= b <= c
    ensures a <= c
  {
  }

  lemma CallBackGrows(env: Env, h: Held, trace: seq<Event>, k: Callback)
    requires h.tree.Some?
    ensures trace <= CallBack(env, h, trace, k, None).trace
  {
    EveryAnswerIsJudged(env.oracle, trace, h.tree.value, None);
  }
}
