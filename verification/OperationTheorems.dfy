/** What the undisturbed operations keep and achieve. */
module OperationTheorems {
  import opened Lifecycle
  import opened Plugins
  import opened ContextTree
  import opened StopTheorems
  import opened Entries
  import opened Protocol
  import opened Invariant
  import opened PrimSteps
  import T = Traces
  import ConfigureTheorems
  import CloseTheorems
  import opened Operations

  /** The tree's debts are known to the entry. */
  ghost predicate Known(h: Held) {
    && (h.tree.Some? <==> h.e.context.Some?)
    && (h.tree.Some? ==> WellFormed(h.tree.value) && (!h.e.mayBeActive ==> Owing(h.tree.value) == []))
  }

  /** A callback that is due keeps the tree's debts known. */
  lemma CallBackKeeps(env: Env, h: Held, trace: seq<Event>, k: Callback, arg: Option<Value>)
    requires h.tree.Some? && WellFormed(h.tree.value)
    requires if k.Deactivating? then h.e.mayBeActive else Owing(h.tree.value) == []
    requires k.Activating? ==> h.e.mayBeActive
    requires h.e.context.Some?
    ensures var c := CallBack(env, h, trace, k, arg);
            Known(c.held) && (k.Activating? && c.ok ==> c.held.tree.Some? && AllStarted(c.held.tree.value))
  {
    hide Perform, WellFormed, Owing, AllStarted;
    PerformDebts(Outside(env.oracle, trace), k, h.tree.value, arg);
    if k.Activating? && CallBack(env, h, trace, k, arg).ok {
      PerformStarts(Outside(env.oracle, trace), h.tree.value, arg);
    }
  }

  lemma SettledFlags(e: Entry, k: Callback, ok: bool)
    requires Flags(e) && Counted(e) && e.inFlight == 0
    requires (k.Closing? ==> !e.configured && !e.mayBeActive) && (k.CleaningUp? ==> !e.mayBeActive)
    ensures Flags(Settle(e, k, ok)) && Counted(Settle(e, k, ok)) && Settle(e, k, ok).inFlight == 0
  {
    hide Counted;
    SameCounted(e, Settle(e, k, ok));
  }

  lemma FinishedSound(h: Held, state: LifecycleState, ok: bool)
    requires Flags(h.e) && Counted(h.e) && Known(h) && Quiet(h.e.(state := state)) && (state.ACTIVE? ==> ok)
    requires state.ACTIVE? && h.tree.Some? ==> AllStarted(h.tree.value)
    requires h.e.inFlight > 0 ==> h.e.mayBeActive
    ensures Sound(h.(e := Finish(h.e, state, ok)))
  {
    hide Counted, WellFormed, Owing, AllStarted;
    SameCounted(h.e, Finish(h.e, state, ok));
  }

  lemma BegunFacts(env: Env, h: Held, op: Prim)
    requires Sound(h) && Accepted(env, h.e, op)
    ensures var b := Entered(env, h, op);
            && Flags(b.e) && Counted(b.e) && Known(b) && b.tree == h.tree && Quiet(h.e)
            && b.e == h.e.(transition := b.e.transition, operationThread := b.e.operationThread, gate := false)
            && h.e.state in Allowed(op) && h.e.inFlight >= 0
  {
    hide Counted, WellFormed, Owing;
    SameCounted(h.e, Entered(env, h, op).e);
    NotNegative(h.e);
  }

  lemma NotNegative(e: Entry)
    requires Counted(e)
    ensures e.inFlight >= 0
  {
  }

  lemma RefusalSound(h: Held, trace: seq<Event>)
    requires Sound(h)
    ensures Sound(Refusal(h, trace).held)
  {
    hide Counted, WellFormed, Owing;
    SameCounted(h.e, Reject(h.e));
  }

  /** Every operation, whatever the foreign code answers, keeps the table and the link to the tree. */
  lemma ConfigureSound(env: Env, h: Held, trace: seq<Event>)
    requires Sound(h)
    ensures Sound(ConfigureOp(env, h, trace).held)
  {
    hide Counted, WellFormed, Owing, Perform, Refuses;
    RefusalSound(h, trace);
    if Accepted(env, h.e, Configure) {
      BegunFacts(env, h, Configure);
      var b := Entered(env, h, Configure);
      var ready := b.(e := b.e.(configured := true));
      SameCounted(h.e, ready.e);
      CallBackKeeps(env, ready, trace, Configuring, None);
      var c := CallBack(env, ready, trace, Configuring, None);
      SettledFlags(ready.e, Configuring, c.ok);
      FinishedSound(c.held, Reached(Configure, c.ok), c.ok);
    }
  }

  lemma ActivateSound(env: Env, h: Held, trace: seq<Event>, state: Option<Value>)
    requires Sound(h)
    ensures Sound(ActivateOp(env, h, trace, state).held)
  {
    hide Counted, WellFormed, Owing, Perform, Refuses;
    RefusalSound(h, trace);
    if Accepted(env, h.e, Activate(state)) {
      BegunFacts(env, h, Activate(state));
      var b := Entered(env, h, Activate(state));
      var ready := b.(e := b.e.(mayBeActive := true));
      SameCounted(h.e, ready.e);
      CallBackKeeps(env, ready, trace, Activating, state);
      var c := CallBack(env, ready, trace, Activating, state);
      SettledFlags(ready.e, Activating, c.ok);
      FinishedSound(c.held, Reached(Activate(state), c.ok), c.ok);
    }
  }

  lemma DeactivateSound(env: Env, h: Held, trace: seq<Event>)
    requires Sound(h)
    ensures Sound(DeactivateOp(env, h, trace).held)
  {
    hide Counted, WellFormed, Owing, Perform, Refuses;
    RefusalSound(h, trace);
    var op := Deactivate(true);
    if Accepted(env, h.e, op) && (h.e.state.ERROR? ==> h.e.mayBeActive) {
      BegunFacts(env, h, op);
      var b := Entered(env, h, op);
      if h.e.inFlight != 0 {
        FinishedSound(b, ERROR, false);
      } else {
        CallBackKeeps(env, b, trace, Deactivating, None);
        var c := CallBack(env, b, trace, Deactivating, None);
        SettledFlags(b.e, Deactivating, c.ok);
        FinishedSound(c.held, Reached(op, c.ok), c.ok);
      }
    }
  }

  /** Cleanup of an entry without a context leaves its mark; otherwise the entry stays sound. */
  lemma CleanupSound(env: Env, h: Held, trace: seq<Event>)
    requires Sound(h)
    ensures Sound(CleanupOp(env, h, trace).held)
    ensures Stuck(CleanupOp(env, h, trace).held.e) <==>
            Stuck(h.e) || (Accepted(env, h.e, Cleanup) && h.e.context.None?)
  {
    hide Counted, WellFormed, Owing, Perform, Refuses;
    RefusalSound(h, trace);
    if Accepted(env, h.e, Cleanup) && !h.e.mayBeActive {
      BegunFacts(env, h, Cleanup);
      var b := Entered(env, h, Cleanup);
      if h.tree.Some? {
        CallBackKeeps(env, b, trace, CleaningUp, None);
        var c := CallBack(env, b, trace, CleaningUp, None);
        SettledFlags(b.e, CleaningUp, c.ok);
        FinishedSound(c.held, Reached(Cleanup, c.ok), c.ok);
      }
    } else {
      NotAccepted(env, h, Cleanup);
    }
  }

  lemma NotAccepted(env: Env, h: Held, op: Prim)
    requires Sound(h) && op.Cleanup? && (h.e.mayBeActive || !Accepted(env, h.e, op))
    ensures Accepted(env, h.e, op) ==> h.e.context.Some?
    ensures Stuck(h.e) <==> Stuck(Reject(h.e))
  {
    hide Counted, WellFormed, Owing;
  }

  /** A loaded tree is new: nothing in it is owed. */
  lemma LoadSound(env: Env, h: Held, trace: seq<Event>, component: Option<string>, built: Option<Tree>, id: ContextId)
    requires Sound(h) && (built.Some? ==> NewTree(built.value))
    ensures var out := LoadOp(env, h, trace, component, built, id);
            Sound(out.held) && out.held.e.generation == h.e.generation + if Succeeds(out) then 1 else 0
  {
    hide Counted, WellFormed, Owing, Refuses;
    RefusalSound(h, trace);
    var op := Load(component);
    if Accepted(env, h.e, op) {
      BegunFacts(env, h, op);
      var b := Entered(env, h, op).e;
      var e := if component.Some? then b.(component := component.value) else b;
      SameCounted(b, e);
      FinishedSound(h.(e := e), UNLOADED, false);
      FinishedSound(h.(e := e), ERROR, false);
      if built.Some? {
        var loaded := e.(context := Some(id), generation := e.generation + 1, configured := false, mayBeActive := false);
        SameCounted(b, loaded);
        FinishedSound(Held(loaded, built), UNCONFIGURED, true);
      }
    }
  }

  predicate Succeeds(out: Outcome) {
    Succeeded(out.ret)
  }

  // --------------------------------------------------------------------- unload

  /** An operation between its callbacks. */
  ghost predicate Going(h: Held) {
    Flags(h.e) && Counted(h.e) && Known(h) && h.e.inFlight == 0 && h.tree.Some?
  }

  lemma StoppedFirst(env: Env, h: Held, trace: seq<Event>)
    requires Going(h)
    ensures var c := StopFirst(env, h, trace);
            && Going(c.held) && (c.ok <==> !c.held.e.mayBeActive)
            && c.held.e == h.e.(mayBeActive := c.held.e.mayBeActive) && (c.ok || c.held.e == h.e)
            && trace <= c.trace
            && var d := T.Since(trace, c.trace);
            && T.Calls(d) == T.CallsOn(T.Deactivating, Owing(h.tree.value))
            && (c.ok <==> (h.e.mayBeActive ==> AllNative(h.tree.value)) && T.Bad(d) == [])
            && (c.ok ==> Owing(c.held.tree.value) == [] && Shape(c.held.tree.value) == Shape(h.tree.value))
  {
    hide Counted, WellFormed, Owing, DeactivateTree, Shape, AllNative;
    if h.e.mayBeActive {
      CallBackKeeps(env, h, trace, Deactivating, None);
      var c := CallBack(env, h, trace, Deactivating, None);
      SettledFlags(h.e, Deactivating, c.ok);
      DeactivatePass(env.oracle, trace, h.tree.value);
    } else {
      T.Nothing(trace);
      SelfStopped(trace);
    }
  }

  lemma SelfStopped(trace: seq<Event>)
    ensures T.Calls([]) == [] && T.Bad([]) == [] && T.CallsOn(T.Deactivating, []) == [] && T.FirstError([]).None?
  {
  }

  lemma CleanedUp(env: Env, c: Called)
    requires Going(c.held) && !c.held.e.mayBeActive && c.ok
    ensures var c' := ThenCleanUp(env, c);
            && Going(c'.held) && !c'.held.e.mayBeActive && (c'.ok ==> !c'.held.e.configured)
            && c'.held.e == c.held.e.(configured := c'.held.e.configured)
            && (c'.ok || (c'.held.e == c.held.e && c.held.e.configured))
            && c'.held.tree == c.held.tree
            && c.trace <= c'.trace
            && var d := T.Since(c.trace, c'.trace);
            && T.Calls(d) == T.CallsOn(T.CleaningUp, if c.held.e.configured then ConfigureTheorems.ParentFirst(c.held.tree.value) else [])
            && (c'.ok <==> T.Bad(d) == [])
  {
    hide Counted, WellFormed, Owing, CleanupTree;
    T.Nothing(c.trace);
    SelfCleaned();
    if c.held.e.configured {
      CallBackKeeps(env, c.held, c.trace, CleaningUp, None);
      var c' := CallBack(env, c.held, c.trace, CleaningUp, None);
      SettledFlags(c.held.e, CleaningUp, c'.ok);
      ConfigureTheorems.CleanupPass(env.oracle, c.trace, c.held.tree.value);
      T.BadIffError(T.Since(c.trace, c'.trace));
    }
  }

  lemma SelfCleaned()
    ensures T.Calls([]) == [] && T.Bad([]) == [] && T.CallsOn(T.CleaningUp, []) == []
  {
  }

  lemma ClosedLast(env: Env, c: Called)
    requires Going(c.held) && !c.held.e.mayBeActive && !c.held.e.configured && c.ok
    ensures var c' := ThenClose(env, c);
            && Flags(c'.held.e) && Counted(c'.held.e) && Known(c'.held) && c'.held.e.inFlight == 0
            && c'.held.e == c.held.e.(context := c'.held.e.context)
            && (c'.ok ==> c'.held.tree.None?) && (!c'.ok ==> c'.held.e == c.held.e && c'.held.tree.Some?)
            && c.trace <= c'.trace
            && var d := T.Since(c.trace, c'.trace);
            && T.Calls(d) == T.CallsOn(T.Closing, CloseTheorems.Open(c.held.tree.value))
            && (c'.ok <==> T.Bad(d) == [])
  {
    hide Counted, WellFormed, Owing, CloseTree;
    CallBackKeeps(env, c.held, c.trace, Closing, None);
    var c' := CallBack(env, c.held, c.trace, Closing, None);
    SettledFlags(c.held.e, Closing, c'.ok);
    CloseTheorems.ClosePass(env.oracle, c.trace, c.held.tree.value);
    T.BadIffError(T.Since(c.trace, c'.trace));
  }

  lemma UnloadSound(env: Env, h: Held, trace: seq<Event>)
    requires Sound(h)
    ensures Sound(UnloadOp(env, h, trace).held)
  {
    hide Counted, WellFormed, Owing, StopFirst, ThenCleanUp, ThenClose, Refuses, T.Bad, T.Calls, T.CallsOn, Shape, AllNative;
    RefusalSound(h, trace);
    var op := Unload(true);
    if Accepted(env, h.e, op) {
      BegunFacts(env, h, op);
      var b := Entered(env, h, op);
      if h.e.inFlight != 0 {
        FinishedSound(b, ERROR, false);
      } else if h.tree.None? {
        FinishedSound(b, UNLOADED, true);
      } else {
        StoppedFirst(env, b, trace);
        var stopped := StopFirst(env, b, trace);
        if stopped.ok {
          CleanedUp(env, stopped);
          var cleaned := ThenCleanUp(env, stopped);
          if cleaned.ok {
            ClosedLast(env, cleaned);
          } else {
            NotClosed(env, cleaned);
          }
        } else {
          NotCleaned(env, stopped);
        }
        var c := ThenClose(env, ThenCleanUp(env, stopped));
        FinishedSound(c.held, Reached(op, c.ok), c.ok);
      }
    }
  }

  lemma NotClosed(env: Env, c: Called)
    requires c.held.tree.Some? && !c.ok
    ensures ThenClose(env, c) == c
  {
  }

  lemma NotCleaned(env: Env, c: Called)
    requires c.held.tree.Some? && !c.ok
    ensures ThenCleanUp(env, c) == c && ThenClose(env, c) == c
  {
  }

  /**
   * What an unload that drains calls, and when it succeeds. It stops what is still
   * active, then cleans up if configured, then closes what is still open, and it
   * goes from one phase to the next only without failures. It succeeds iff nothing it
   * called failed and no adapted node was to be stopped, and then the entry is unloaded
   * for good.
   */
  lemma UnloadSucceedsIff(env: Env, h: Held, trace: seq<Event>)
    requires Sound(h) && Accepted(env, h.e, Unload(true)) && h.e.inFlight == 0 && h.tree.Some?
    ensures var out := UnloadOp(env, h, trace);
            && trace <= out.trace
            && var d := T.Since(trace, out.trace);
            && (Succeeds(out) <==> (h.e.mayBeActive ==> AllNative(h.tree.value)) && T.Bad(d) == [])
            && out.held.e.state == (if Succeeds(out) then UNLOADED else ERROR)
            && (Succeeds(out) ==>
                  && out.held.tree.None? && out.held.e.context.None? && !out.held.e.configured && !out.held.e.mayBeActive
                  && exists stopped: Tree ::
                       && Shape(stopped) == Shape(h.tree.value) && Owing(stopped) == []
                       && T.Calls(d) == T.CallsOn(T.Deactivating, Owing(h.tree.value))
                          + T.CallsOn(T.CleaningUp, if h.e.configured then ConfigureTheorems.ParentFirst(stopped) else [])
                          + T.CallsOn(T.Closing, CloseTheorems.Open(stopped)))
            && (!Succeeds(out) ==> out.held.tree.Some? && out.held.e.context == h.e.context)
  {
    hide Counted, WellFormed, Owing, StopFirst, ThenCleanUp, ThenClose, Refuses, T.Bad, T.Calls, T.CallsOn, Shape, AllNative;
    var op := Unload(true);
    BegunFacts(env, h, op);
    var b := Entered(env, h, op);
    StoppedFirst(env, b, trace);
    var stopped := StopFirst(env, b, trace);
    T.Nothing(stopped.trace);
    if stopped.ok {
      CleanedUp(env, stopped);
      var cleaned := ThenCleanUp(env, stopped);
      T.Between(trace, stopped.trace, cleaned.trace);
      if cleaned.ok {
        ClosedLast(env, cleaned);
        T.Between(trace, cleaned.trace, ThenClose(env, cleaned).trace);
        assert stopped.held.tree == cleaned.held.tree;
      } else {
        NotClosed(env, cleaned);
      }
    } else {
      NotCleaned(env, stopped);
    }
  }

  /** After an unload that failed the flags say which phase it had come to: the stop, the cleanup or the close. */
  lemma UnloadOwes(env: Env, h: Held, trace: seq<Event>) returns (stopped: Tree)
    requires Sound(h) && Accepted(env, h.e, Unload(true)) && h.e.inFlight == 0 && h.tree.Some?
    requires !Succeeds(UnloadOp(env, h, trace))
    ensures trace <= UnloadOp(env, h, trace).trace
    ensures var e, e', d := h.e, UnloadOp(env, h, trace).held.e, T.Since(trace, UnloadOp(env, h, trace).trace);
            var stops := T.CallsOn(T.Deactivating, Owing(h.tree.value));
            && (e'.mayBeActive ==> e.mayBeActive) && (e'.configured ==> e.configured)
            && (e'.mayBeActive ==> e'.configured == e.configured && T.Calls(d) == stops)
            && (!e'.mayBeActive ==>
                  && Shape(stopped) == Shape(h.tree.value) && Owing(stopped) == []
                  && var cleans := T.CallsOn(T.CleaningUp, if e.configured then ConfigureTheorems.ParentFirst(stopped) else []);
                     T.Calls(d) == stops + cleans
                       + T.CallsOn(T.Closing, if e'.configured then [] else CloseTheorems.Open(stopped)))
  {
    hide Counted, WellFormed, Owing, StopFirst, ThenCleanUp, ThenClose, Refuses, T.Bad, T.Calls, T.CallsOn, Shape, AllNative;
    var op := Unload(true);
    BegunFacts(env, h, op);
    var b := Entered(env, h, op);
    StoppedFirst(env, b, trace);
    var first := StopFirst(env, b, trace);
    stopped := first.held.tree.value;
    T.Nothing(first.trace);
    SelfClosed();
    if first.ok {
      CleanedUp(env, first);
      var cleaned := ThenCleanUp(env, first);
      T.Between(trace, first.trace, cleaned.trace);
      if cleaned.ok {
        ClosedLast(env, cleaned);
        T.Between(trace, cleaned.trace, ThenClose(env, cleaned).trace);
      } else {
        NotClosed(env, cleaned);
      }
    } else {
      NotCleaned(env, first);
    }
  }

  lemma SelfClosed()
    ensures T.CallsOn(T.Closing, []) == []
  {
  }

  // ----------------------------------------------------------- every operation

  /** Whatever the foreign code answers, every operation keeps the table of states and the link to the tree. */
  lemma EveryOperationKeeps(env: Env, h: Held, trace: seq<Event>, op: Prim, built: Option<Tree>, id: ContextId)
    requires Sound(h) && (op.Load? && built.Some? ==> NewTree(built.value))
    ensures Sound(Operate(env, h, trace, op, built, id).held)
  {
    hide Sound, LoadOp, ConfigureOp, ActivateOp, DeactivateOp, CleanupOp, UnloadOp;
    match op {
      case Load(component) => LoadSound(env, h, trace, component, built, id);
      case Configure => ConfigureSound(env, h, trace);
      case Activate(state) => ActivateSound(env, h, trace, state);
      case Deactivate(_) => DeactivateSound(env, h, trace);
      case Cleanup => CleanupSound(env, h, trace);
      case Unload(_) => UnloadSound(env, h, trace);
    }
  }

  /**
   * What a result means: after a success the entry is in the state the operation
   * aims at, and the gate is open iff that is ACTIVE; a failure never makes an
   * entry active or opens it; only a successful load counts a generation.
   */
  predicate Means(e: Entry, op: Prim, e': Entry, ret: Ret) {
    && (Succeeded(ret) ==>
          && e'.state == Reached(op, true) && e'.transition.None?
          && (e' != e ==> (e'.gate <==> op.Activate?)))
    && (!Succeeded(ret) && !e.state.ACTIVE? ==> !e'.state.ACTIVE?)
    && (!Succeeded(ret) && !e.gate ==> !e'.gate)
    && e'.generation == e.generation + (if op.Load? && Succeeded(ret) then 1 else 0)
    && e'.callers == e.callers && e'.inFlight == e.inFlight
  }

  predicate MeansOutcome(h: Held, op: Prim, out: Outcome) {
    Means(h.e, op, out.held.e, out.ret)
  }

  predicate SameCalls(h: Held, c: Called, op: Prim) {
    && c.held.e.callers == h.e.callers && c.held.e.inFlight == h.e.inFlight
    && c.held.e.generation == h.e.generation + (if op.Load? && c.ok then 1 else 0)
  }

  lemma CompleteMeans(h: Held, c: Called, op: Prim)
    requires SameCalls(h, c, op)
    ensures MeansOutcome(h, op, Complete(c, op))
  {
  }

  lemma RefusalMeans(h: Held, trace: seq<Event>, op: Prim)
    ensures MeansOutcome(h, op, Refusal(h, trace))
  {
  }

  lemma CallBackSame(env: Env, h: Held, trace: seq<Event>, k: Callback, arg: Option<Value>)
    requires h.tree.Some?
    ensures var e := CallBack(env, h, trace, k, arg).held.e;
            e.callers == h.e.callers && e.inFlight == h.e.inFlight && e.generation == h.e.generation
  {
    hide Perform;
  }

  lemma UnloadSame(env: Env, h: Held, trace: seq<Event>)
    requires Going(h)
    ensures SameCalls(h, ThenClose(env, ThenCleanUp(env, StopFirst(env, h, trace))), Unload(true))
  {
    hide CallBack, Counted, WellFormed, Owing, Flags;
    var stopped := StopFirst(env, h, trace);
    if h.e.mayBeActive {
      CallBackSame(env, h, trace, Deactivating, None);
    }
    var cleaned := ThenCleanUp(env, stopped);
    if stopped.ok && stopped.held.e.configured {
      CallBackSame(env, stopped.held, stopped.trace, CleaningUp, None);
    }
    if cleaned.ok {
      CallBackSame(env, cleaned.held, cleaned.trace, Closing, None);
    }
  }

  lemma ResultsMean(env: Env, h: Held, trace: seq<Event>, op: Prim, built: Option<Tree>, id: ContextId)
    requires Sound(h)
    ensures MeansOutcome(h, op, Operate(env, h, trace, op, built, id))
  {
    hide Counted, WellFormed, Owing, Refuses, CallBack, Complete, MeansOutcome, StopFirst, ThenCleanUp, ThenClose;
    RefusalMeans(h, trace, op);
    PlainMeans(h, trace, op);
    if Accepted(env, h.e, op) {
      BegunFacts(env, h, op);
      AcceptedMeans(env, h, trace, op, built, id);
    }
  }

  /** Results that need no foreign call. */
  lemma PlainMeans(h: Held, trace: seq<Event>, op: Prim)
    requires Sound(h)
    ensures (op.Activate? && h.e.state.ACTIVE?) || (op.Deactivate? && h.e.state.INACTIVE?) ==>
              h.e.transition.None? ==> MeansOutcome(h, op, Outcome(h, trace, Ret(true, None)))
    ensures op.Cleanup? ==> forall env: Env :: MeansOutcome(h, op, Outcome(Entered(env, h, op), trace, Raised))
  {
    hide Counted, WellFormed, Owing;
  }

  lemma AcceptedMeans(env: Env, h: Held, trace: seq<Event>, op: Prim, built: Option<Tree>, id: ContextId)
    requires Sound(h) && Accepted(env, h.e, op)
    requires MeansOutcome(h, op, Refusal(h, trace))
    requires op.Deactivate? && h.e.state.INACTIVE? && h.e.transition.None? ==> MeansOutcome(h, op, Outcome(h, trace, Ret(true, None)))
    requires op.Activate? && h.e.state.ACTIVE? && h.e.transition.None? ==> MeansOutcome(h, op, Outcome(h, trace, Ret(true, None)))
    requires op.Cleanup? ==> MeansOutcome(h, op, Outcome(Entered(env, h, op), trace, Raised))
    ensures MeansOutcome(h, op, Operate(env, h, trace, op, built, id))
  {
    hide Counted, WellFormed, Owing, Refuses, CallBack, Complete, MeansOutcome, StopFirst, ThenCleanUp, ThenClose;
    BegunFacts(env, h, op);
    var b := Entered(env, h, op);
    match op {
      case Load(component) =>
        var e := if component.Some? then b.e.(component := component.value) else b.e;
        LoadMeans(h, trace, op, e, built, id);
      case Configure =>
        var ready := b.(e := b.e.(configured := true));
        CallBackSame(env, ready, trace, Configuring, None);
        CompleteMeans(h, CallBack(env, ready, trace, Configuring, None), op);
      case Activate(state) =>
        var ready := b.(e := b.e.(mayBeActive := true));
        CallBackSame(env, ready, trace, Activating, state);
        CompleteMeans(h, CallBack(env, ready, trace, Activating, state), op);
      case Deactivate(_) =>
        if h.e.inFlight != 0 {
          CompleteMeans(h, Plainly(b, trace, false), op);
        } else if h.tree.Some? {
          CallBackSame(env, b, trace, Deactivating, None);
          CompleteMeans(h, CallBack(env, b, trace, Deactivating, None), op);
        }
        CompleteAny(op);
      case Cleanup =>
        if h.tree.Some? {
          CallBackSame(env, b, trace, CleaningUp, None);
          CompleteMeans(h, CallBack(env, b, trace, CleaningUp, None), op);
        }
      case Unload(_) =>
        if h.e.inFlight != 0 {
          CompleteMeans(h, Plainly(b, trace, false), op);
        } else if h.tree.None? {
          CompleteMeans(h, Plainly(b, trace, true), op);
        } else {
          UnloadSame(env, b, trace);
          CompleteMeans(h, ThenClose(env, ThenCleanUp(env, StopFirst(env, b, trace))), op);
        }
        CompleteAny(op);
    }
  }

  /** Whether the drain was timed does not matter to the result. */
  lemma CompleteAny(op: Prim)
    ensures forall c :: op.Deactivate? ==> Complete(c, op) == Complete(c, Deactivate(true))
    ensures forall c :: op.Unload? ==> Complete(c, op) == Complete(c, Unload(true))
  {
  }

  lemma LoadMeans(h: Held, trace: seq<Event>, op: Prim, e: Entry, built: Option<Tree>, id: ContextId)
    requires op.Load? && e.callers == h.e.callers && e.inFlight == h.e.inFlight && e.generation == h.e.generation
    ensures MeansOutcome(h, op, Outcome(h.(e := Finish(e, UNLOADED, false)), trace, Ret(false, None)))
    ensures MeansOutcome(h, op, Complete(Plainly(h.(e := e), trace, false), op))
    ensures built.Some? ==>
              var loaded := e.(context := Some(id), generation := e.generation + 1, configured := false, mayBeActive := false);
              MeansOutcome(h, op, Complete(Plainly(Held(loaded, built), trace, true), op))
  {
  }

  // ---------------------------------------------------------------- open entries

  /** Operations that an open entry refuses; `inside` says that the caller is in a guarded call on it. */
  predicate RefusedWhileOpen(op: Prim, inside: bool, closing: bool) {
    match op
    case Activate(_) => closing
    case Deactivate(_) => inside || closing
    case Unload(_) => inside
    case _ => true
  }

  lemma RefusesOpen(env: Env, h: Held, op: Prim)
    requires Steady(h) && h.e.gate
    ensures RefusedWhileOpen(op, Calling(h.e, env.t) > 0, env.closing)
        <==> !(op.Activate? && !env.closing) && (op.Cleanup? || !Accepted(env, h.e, op))
    ensures h.e.state.ACTIVE? && h.e.transition.None? && h.e.mayBeActive && h.e.configured && h.tree.Some?
  {
  }

  /** An operation that was accepted on an open entry leaves its gate shut. */
  lemma AcceptedShuts(env: Env, h: Held, trace: seq<Event>, op: Prim, built: Option<Tree>, id: ContextId)
    requires Steady(h) && h.e.gate && Accepted(env, h.e, op) && (op.Deactivate? || op.Unload?)
    ensures !Operate(env, h, trace, op, built, id).held.e.gate
  {
    hide Counted, WellFormed, Owing, Perform;
    RefusesOpen(env, h, op);
  }

  /**
   * Asking an operation of an open entry: it is refused, which leaves the gate open
   * and records a failure, exactly under a condition on the caller and the manager;
   * an activate of a manager that is not closing changes nothing; everything else
   * leaves the gate shut.
   */
  lemma AskedOfOpenEntry(env: Env, h: Held, trace: seq<Event>, op: Prim, built: Option<Tree>, id: ContextId)
    requires Steady(h) && h.e.gate
    ensures var out := Operate(env, h, trace, op, built, id);
            var refused := RefusedWhileOpen(op, Calling(h.e, env.t) > 0, env.closing);
            && (refused ==> out == Outcome(h.(e := h.e.(lastOk := false)), trace, Ret(false, None)))
            && (!refused && op.Activate? ==> out == Outcome(h, trace, Ret(true, None)))
            && (!refused && !op.Activate? ==> !out.held.e.gate)
            && (out.held.e.gate && !out.held.e.lastOk <==> refused || (op.Activate? && !h.e.lastOk))
  {
    hide Counted, WellFormed, Owing, CallBack, Refuses, UnloadOp, Build, ThenClose, ThenCleanUp, StopFirst;
    RefusesOpen(env, h, op);
    if op.Unload? {
      UnloadAsked(env, h, trace);
    }
    if Accepted(env, h.e, op) && (op.Deactivate? || op.Unload?) {
      AcceptedShuts(env, h, trace, op, built, id);
    }
    TimedAlike(env, h.e, op);
  }

  lemma UnloadAsked(env: Env, h: Held, trace: seq<Event>)
    requires Steady(h)
    ensures !Accepted(env, h.e, Unload(true)) ==> UnloadOp(env, h, trace) == Refusal(h, trace)
  {
  }

  // ------------------------------------------------------------------ acceptance

  /**
   * When `_begin` lets an operation in: its caller has no call of its own in flight on the
   * entry, no operation is under way there, the manager is not closing unless it is an
   * unload, and the entry is in one of the states that the operation starts from.
   */
  lemma AcceptedIff(env: Env, e: Entry, op: Prim)
    ensures Accepted(env, e, op) <==>
              && !(env.t in e.callers && e.callers[env.t] > 0)
              && e.transition.None?
              && (!env.closing || op.Unload?)
              && (match op
                  case Load(_) => e.state == UNLOADED
                  case Configure => e.state == UNCONFIGURED
                  case Activate(_) => e.state == INACTIVE
                  case Deactivate(_) => e.state == ACTIVE || e.state == ERROR
                  case Cleanup => e.state == INACTIVE || e.state == ERROR
                  case Unload(_) => true)
  {
    assert e.state == UNLOADED || e.state == UNCONFIGURED || e.state == INACTIVE || e.state == ACTIVE || e.state == ERROR;
  }
}
