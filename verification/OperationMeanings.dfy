/** What each operation does when nothing interferes: what it calls, when it succeeds, and how it leaves its entry. */
module OperationMeanings {
  import opened Lifecycle
  import opened Plugins
  import opened ContextTree
  import opened StopTheorems
  import opened Entries
  import opened Protocol
  import opened Invariant
  import opened Operations
  import opened OperationTheorems
  import opened CallbackTheorems
  import T = Traces
  import StartTheorems
  import ConfigureTheorems

  /** The entry with this state and this result, after its operation has ended. */
  predicate EndsAs(e: Entry, e': Entry, state: LifecycleState, ok: bool) {
    && e'.state == state && e'.lastOk == ok && e'.gate == (ok && state == ACTIVE)
    && e'.transition.None? && e'.operationThread.None?
    && e'.inFlight == e.inFlight && e'.callers == e.callers
  }

  /** Component, context and generation are as before. */
  predicate SameContext(e: Entry, e': Entry) {
    e'.component == e.component && e'.context == e.context && e'.generation == e.generation
  }

  /** A refusal changes nothing but the last result, and not even that while an operation is under way. */
  lemma RefusedMeans(env: Env, h: Held, trace: seq<Event>, op: Prim, built: Option<Tree>, id: ContextId)
    requires Steady(h) && !Accepted(env, h.e, op)
    requires !(op.Activate? && h.e.state == ACTIVE && h.e.transition.None? && !env.closing)
    requires !(op.Deactivate? && h.e.state == INACTIVE && h.e.transition.None?)
    ensures Operate(env, h, trace, op, built, id)
         == Outcome(h.(e := if h.e.transition.None? then h.e.(lastOk := false) else h.e), trace, Ret(false, None))
  {
    hide Refuses, Allowed;
    TimedAlike(env, h.e, op);
  }

  /** What is asked for already is a success without doing anything. */
  lemma AlreadyThere(env: Env, h: Held, trace: seq<Event>, op: Prim, built: Option<Tree>, id: ContextId)
    requires Steady(h) && h.e.transition.None?
    requires (op.Activate? && h.e.state == ACTIVE && !env.closing) || (op.Deactivate? && h.e.state == INACTIVE)
    ensures Operate(env, h, trace, op, built, id) == Outcome(h, trace, Ret(true, None))
  {
    hide Refuses;
  }

  /** An entry that may be active is not cleaned up, and one that is not active after a failure is not stopped. */
  lemma NotDue(env: Env, h: Held, trace: seq<Event>, op: Prim, built: Option<Tree>, id: ContextId)
    requires Steady(h)
    requires (op.Cleanup? && h.e.mayBeActive) || (op.Deactivate? && h.e.state == ERROR && !h.e.mayBeActive)
    ensures Operate(env, h, trace, op, built, id)
         == Outcome(h.(e := if h.e.transition.None? then h.e.(lastOk := false) else h.e), trace, Ret(false, None))
  {
    hide Refuses;
  }

  /**
   * A load asks no plugin for anything. Without a component it is refused, a builder that
   * fails leaves the entry in error, and otherwise the entry holds the new tree as its next
   * generation, unconfigured.
   */
  lemma LoadDoes(env: Env, h: Held, trace: seq<Event>, component: Option<string>, built: Option<Tree>, id: ContextId)
    requires Steady(h) && Accepted(env, h.e, Load(component))
    ensures var out := LoadOp(env, h, trace, component, built, id);
            var named := if component.Some? then component.value else h.e.component;
            var ok := named != "" && built.Some?;
            var e, e' := h.e, out.held.e;
            && out.trace == trace && out.ret == Ret(ok, None) && e'.component == named
            && EndsAs(e, e', if ok then UNCONFIGURED else if named == "" then UNLOADED else ERROR, ok)
            && (ok ==>
                  && out.held.tree == built && e'.context == Some(id) && e'.generation == e.generation + 1
                  && !e'.configured && !e'.mayBeActive)
            && (!ok ==>
                  && out.held.tree == h.tree && e'.context == e.context && e'.generation == e.generation
                  && e'.configured == e.configured && e'.mayBeActive == e.mayBeActive)
  {
    hide Refuses, WellFormed, Owing, Counted;
  }

  lemma NoneBadIff(d: seq<Event>, error: Option<Error>)
    requires ConfigureTheorems.StopsAtFailure(d, error)
    ensures error.None? <==> T.Bad(d) == []
  {
    if error.Some? {
      var n := |d| - 1;
      T.BadAppend(d[..n], [d[n]]);
      T.One([], d[n]);
      assert d == d[..n] + [d[n]];
    }
  }

  /** A configuration runs until a callback fails. Whether it succeeds or not, a cleanup is owed. */
  lemma ConfigureDoes(env: Env, h: Held, trace: seq<Event>)
    requires Steady(h) && Accepted(env, h.e, Configure)
    ensures var out := ConfigureOp(env, h, trace);
            && h.tree.Some? && trace <= out.trace
            && var d, ok := T.Since(trace, out.trace), Succeeded(out.ret);
               var plan := T.CallsOn(T.Configuring, ConfigureTheorems.ChildrenFirst(h.tree.value));
               && (ok <==> T.Bad(d) == []) && out.ret == Ret(ok, None)
               && T.Calls(d) <= plan && (ok ==> T.Calls(d) == plan)
               && EndsAs(h.e, out.held.e, if ok then INACTIVE else ERROR, ok) && SameContext(h.e, out.held.e)
               && out.held.e.configured && out.held.e.mayBeActive == h.e.mayBeActive && out.held.tree == h.tree
  {
    hide Refuses, WellFormed, Owing, Counted, ConfigureTree, T.Calls, T.CallsOn, AllStarted;
    NeedsContext(env, h, Configure);
    ConfigureTheorems.ConfigurePass(env.oracle, trace, h.tree.value);
    NoneBadIff(T.Since(trace, ConfigureTree(env.oracle, trace, h.tree.value).trace), ConfigureTree(env.oracle, trace, h.tree.value).error);
  }

  /**
   * An activation succeeds iff the tree is native, its root takes the state, and no callback
   * fails. Whether it succeeds or not, a deactivation may be owed; after a success every
   * instance is started, and after a failure exactly the nodes whose call failed are owing.
   */
  lemma ActivateDoes(env: Env, h: Held, trace: seq<Event>, state: Option<Value>)
    requires Steady(h) && Accepted(env, h.e, Activate(state))
    ensures var out := ActivateOp(env, h, trace, state);
            && h.tree.Some? && out.held.tree.Some? && trace <= out.trace
            && var d, ok, t, t' := T.Since(trace, out.trace), Succeeded(out.ret), h.tree.value, out.held.tree.value;
               && (ok <==> AllNative(t) && Takes(t, state) && T.Bad(d) == []) && out.ret == Ret(ok, None)
               && EndsAs(h.e, out.held.e, if ok then ACTIVE else ERROR, ok) && SameContext(h.e, out.held.e)
               && out.held.e.mayBeActive && out.held.e.configured == h.e.configured
               && Shape(t') == Shape(t) && (ok ==> AllStarted(t')) && (!ok ==> Owing(t') == T.Bad(d))
  {
    hide Refuses, WellFormed, Owing, Counted, ActivateTree, T.Calls, AllNative, AllStarted, Shape, StartTheorems.Planned;
    AcceptedIff(env, h.e, Activate(state));
    NeedsContext(env, h, Activate(state));
    var t := h.tree.value;
    StartSucceedsIff(env.oracle, trace, t, state);
    if ActivateTree(env.oracle, trace, t, state).error.None? {
      StartTheorems.ActivateSucceeds(env.oracle, trace, t, state);
      StartTheorems.ActivateStartsAll(env.oracle, trace, t, state);
    } else {
      var _, _, _ := StartTheorems.ActivateFails(env.oracle, trace, t, state);
    }
  }

  /**
   * A deactivation with calls still in flight times out and calls nothing. Otherwise it
   * stops everything that is owing, whatever fails, and succeeds iff the tree is native and
   * nothing failed; only then nothing is owed any more.
   */
  lemma DeactivateDoes(env: Env, h: Held, trace: seq<Event>)
    requires Steady(h) && Accepted(env, h.e, Deactivate(true)) && (h.e.state == ERROR ==> h.e.mayBeActive)
    ensures var out := DeactivateOp(env, h, trace);
            && h.tree.Some? && out.held.tree.Some? && trace <= out.trace
            && var ok := Succeeded(out.ret);
               && StopsOwing(h, out.held.tree.value, T.Since(trace, out.trace), ok)
               && out.ret.Ret? && (!ok ==> out.ret.state.None?)
               && EndsAs(h.e, out.held.e, if ok then INACTIVE else ERROR, ok) && SameContext(h.e, out.held.e)
               && out.held.e.mayBeActive == (h.e.mayBeActive && !ok) && out.held.e.configured == h.e.configured
  {
    hide Refuses, WellFormed, Owing, Counted, CallBack, AllStarted, StopsOwing, DeactivateTree;
    AcceptedIff(env, h.e, Deactivate(true));
    NeedsContext(env, h, Deactivate(true));
    var b := Entered(env, h, Deactivate(true));
    if h.e.inFlight == 0 {
      StopCalls(env, b, trace);
      StopsAlike(h, b);
    } else {
      StopsNothing(h, trace);
    }
  }

  /** A stop with nothing in flight calls everything that is owing; one that times out calls nothing. */
  predicate StopsOwing(h: Held, t': Tree, d: seq<Event>, ok: bool)
    requires h.tree.Some?
  {
    var t := h.tree.value;
    if h.e.inFlight != 0 then !ok && d == [] && t' == t
    else
      && T.Calls(d) == T.CallsOn(T.Deactivating, Owing(t))
      && (ok <==> AllNative(t) && T.Bad(d) == [])
      && Owing(t') == T.Bad(d) && Shape(t') == Shape(t)
  }

  lemma StopCalls(env: Env, h: Held, trace: seq<Event>)
    requires h.tree.Some? && WellFormed(h.tree.value) && h.e.inFlight == 0
    ensures var c := CallBack(env, h, trace, Deactivating, None);
            && c.held.tree.Some? && trace <= c.trace
            && StopsOwing(h, c.held.tree.value, T.Since(trace, c.trace), c.ok)
            && c.held.e == (if c.ok then h.e.(mayBeActive := false) else h.e)
  {
    hide WellFormed, Owing, AllNative, Shape, DeactivateTree;
    DeactivatePass(env.oracle, trace, h.tree.value);
  }

  lemma StopsAlike(h: Held, b: Held)
    requires h.tree.Some? && b.tree == h.tree && b.e.inFlight == h.e.inFlight
    ensures forall t', d, ok :: StopsOwing(h, t', d, ok) <==> StopsOwing(b, t', d, ok)
  {
  }

  lemma StopsNothing(h: Held, trace: seq<Event>)
    requires h.tree.Some? && h.e.inFlight != 0
    ensures StopsOwing(h, h.tree.value, T.Since(trace, trace), false)
  {
    T.Nothing(trace);
  }

  /**
   * A cleanup calls every instance, parent first, and succeeds iff none fails; only then no
   * cleanup is owed any more. An entry without a context raises, and keeps its mark.
   */
  lemma CleanupDoes(env: Env, h: Held, trace: seq<Event>)
    requires Steady(h) && Accepted(env, h.e, Cleanup) && !h.e.mayBeActive
    ensures var out := CleanupOp(env, h, trace);
            if h.tree.None? then
              && out.ret == Raised && out.trace == trace
              && out.held == h.(e := h.e.(transition := Some(OpCleanup), operationThread := Some(env.t), gate := false))
            else
              && trace <= out.trace
              && var d, ok := T.Since(trace, out.trace), Succeeded(out.ret);
                 && (ok <==> T.Bad(d) == []) && out.ret == Ret(ok, None)
                 && T.Calls(d) == T.CallsOn(T.CleaningUp, ConfigureTheorems.ParentFirst(h.tree.value))
                 && EndsAs(h.e, out.held.e, if ok then UNCONFIGURED else ERROR, ok) && SameContext(h.e, out.held.e)
                 && out.held.e.configured == (h.e.configured && !ok) && !out.held.e.mayBeActive && out.held.tree == h.tree
  {
    hide Refuses, WellFormed, Owing, Counted, CleanupTree, T.Calls, T.CallsOn, AllStarted;
    if h.tree.Some? {
      ConfigureTheorems.CleanupPass(env.oracle, trace, h.tree.value);
      T.BadIffError(T.Since(trace, CleanupTree(env.oracle, trace, h.tree.value).trace));
    }
  }

  /** An unload with calls in flight times out and calls nothing, and one of an entry without a context is a success at once. */
  lemma UnloadWithoutCalls(env: Env, h: Held, trace: seq<Event>)
    requires Steady(h) && Accepted(env, h.e, Unload(true)) && (h.e.inFlight != 0 || h.tree.None?)
    ensures var out := UnloadOp(env, h, trace);
            var ok := h.e.inFlight == 0;
            && out.trace == trace && out.held.tree == h.tree && out.ret == Ret(ok, None)
            && EndsAs(h.e, out.held.e, if ok then UNLOADED else ERROR, ok) && SameContext(h.e, out.held.e)
            && out.held.e.configured == h.e.configured && out.held.e.mayBeActive == h.e.mayBeActive
  {
    hide Refuses, WellFormed, Owing, Counted;
  }
}
