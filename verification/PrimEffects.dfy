/** What one step of a single operation does to its entry, its context and its stage. */
module PrimEffects {
  import opened Lifecycle
  import opened Plugins
  import opened Names
  import opened Entries
  import opened Protocol
  import opened Invariant
  import opened PrimSteps
  import opened AllSteps
  import opened Effects
  import opened Turns
  import opened ContextTree
  import StopTheorems
  import CallbackTheorems
  import Traces

  /** The callbacks run so far on the context an entry holds. */
  function Visits(s: State, n: Name): seq<Visit>
    requires n in s.cells
  {
    var id := s.cells[n].e.context;
    if id.Some? && id.value in s.contexts then s.contexts[id.value].visits else []
  }

  function Argument(op: Prim, k: Callback): Option<Value> {
    if k.Activating? && op.Activate? then op.state else None
  }

  predicate SameEntry(e: Entry, e': Entry) {
    e'.state == e.state && e'.generation == e.generation && e'.context == e.context
  }

  /** Checks and refusals: before `_begin` nothing but the last result changes. */
  predicate CheckEffect(op: Prim, e: Entry, e': Entry, stage': Stage) {
    || (stage'.Begin? && e' == e)
    || (stage' == Leaving(Ret(true, None)) && e' == e && op.Activate? && e.state.ACTIVE?)
    || (stage' == Leaving(Ret(true, None)) && e' == e && op.Deactivate? && e.state.INACTIVE? && e.transition.None?)
    || (stage' == Leaving(Ret(false, None)) && e' == Reject(e))
  }

  predicate BeginEffect(op: Prim, e: Entry, e': Entry, stage': Stage, v: seq<Visit>, v': seq<Visit>) {
    || (stage' == Leaving(Ret(false, None)) && e' == Reject(e) && v' == v)
    || (&& e.transition.None? && e.state in Allowed(op) && SameEntry(e, e')
        && (match stage'
           case Running(k) =>
             && v' == v + [Started(k, Argument(op, k))]
             && ((op.Configure? && k.Configuring?) || (op.Activate? && k.Activating?) || (op.Cleanup? && k.CleaningUp?))
           case WaitBuild => op.Load? && v' == v
           case Finishing(to, ok, _) => op.Load? && !ok && v' == v
           case Drain => (op.Deactivate? || op.Unload?) && v' == v
           case Leaving(r) => op.Cleanup? && e.context.None? && r.Raised? && v' == v
           case _ => false))
  }

  predicate CallbackEnds(op: Prim, k: Callback, e: Entry, e': Entry, stage': Stage, v: seq<Visit>, v': seq<Visit>) {
    && e'.state == e.state && e'.generation == e.generation
    && match stage'
       case Running(k') =>
         op.Unload? && ((k.Deactivating? && (k'.CleaningUp? || k'.Closing?)) || (k.CleaningUp? && k'.Closing?))
       case Finishing(to, ok, exported) =>
         && to == Reached(op, ok)
         && (!op.Unload? ==>
               && e'.context == e.context
               && |v'| == |v| + 1 && v'[..|v|] == v
               && v'[|v|].Ended? && v'[|v|].callback == k && v'[|v|].ok == ok
               && exported == (if op.Deactivate? then v'[|v|].state else None))
       case _ => false
  }

  /** One step of a single operation that neither starts nor returns. */
  predicate Effect(op: Prim, stage: Stage, stage': Stage, e: Entry, e': Entry, v: seq<Visit>, v': seq<Visit>) {
    match stage
    case Acquire => (stage'.Check? || stage'.Begin?) && e' == e && v' == v
    case Check => CheckEffect(op, e, e', stage') && v' == v
    case Begin => BeginEffect(op, e, e', stage', v, v')
    case WaitBuild => stage'.Building? && e' == e && v' == v
    case Building =>
      || (stage' == Finishing(ERROR, false, None) && e' == e)
      || (stage' == Finishing(UNCONFIGURED, true, None) && e'.generation == e.generation + 1 && e'.state == e.state)
    case Drain =>
      && e' == e
      && (match stage'
         case Running(k) => v' == v + [Started(k, Argument(op, k))]
         case Finishing(_, ok, _) => v' == v && (ok ==> op.Unload?)
         case _ => false)
    case Running(k) => CallbackEnds(op, k, e, e', stage', v, v')
    case Finishing(to, ok, x) =>
      && stage' == Leaving(Ret(ok, if ok then x else None)) && e' == Finish(e, to, ok) && v' == v
    case _ => false
  }

  lemma EffectMoves(op: Prim, stage: Stage, stage': Stage, e: Entry, e': Entry, v: seq<Visit>, v': seq<Visit>)
    requires Effect(op, stage, stage', e, e', v, v')
    ensures stage' != stage
  {
  }

  /** The step of `t` has this effect on its own entry. */
  ghost predicate HasEffect(s: State, s': State, t: Tid)
    requires Stack(s, t) != [] && Top(s, t).PrimFrame? && Top(s, t).name in s.cells
  {
    && Restaged(s, s', t)
    && var f, n := Top(s, t), Top(s, t).name;
    && n in s'.cells
    && Effect(f.op, f.stage, Top(s', t).stage, s.cells[n].e, s'.cells[n].e, Visits(s, n), Visits(s', n))
  }

  predicate InStage(s: State, t: Tid, stage: Stage) {
    Stack(s, t) != [] && Top(s, t).PrimFrame? && Top(s, t).stage == stage
  }

  lemma StageEffect(s: State, mid: State, t: Tid, stage: Stage)
    requires Inside(s, t) && Stack(mid, t) == Stack(s, t)
    ensures var s' := ToStage(mid, t, stage);
            && InStage(s', t, stage)
            && s'.cells == mid.cells && s'.contexts == mid.contexts
  {
  }

  lemma StartEffect(s: State, mid: State, t: Tid, k: Callback)
    requires Inside(s, t) && Stack(mid, t) == Stack(s, t) && Top(s, t).name in mid.cells
    requires var id := mid.cells[Top(s, t).name].e.context; id.Some? && id.value in mid.contexts
    ensures var n := Top(s, t).name;
            var s' := StartCallback(mid, t, k);
            && InStage(s', t, Running(k))
            && s'.cells == mid.cells
            && Visits(s', n) == Visits(mid, n) + [Started(k, Argument(Top(s, t).op, k))]
  {
  }

  lemma SameVisits(s: State, s': State, n: Name)
    requires n in s.cells && n in s'.cells && s'.contexts == s.contexts && s'.cells[n].e.context == s.cells[n].e.context
    ensures Visits(s', n) == Visits(s, n)
  {
  }

  /** What is known of the entry before one of its operations takes a step. */
  predicate Sound(s: State, n: Name)
    requires n in s.cells
  {
    var e := s.cells[n].e;
    Coherent(e) && (e.transition.None? ==> Rests(e)) && (e.context.Some? ==> e.context.value in s.contexts)
  }

  lemma BeginHas(s: State, t: Tid)
    requires Inside(s, t) && Top(s, t).stage.Begin? && Sound(s, Top(s, t).name)
    ensures HasEffect(s, RunBegin(s, t), t)
  {
    hide StartCallback, ToStage, RunBegin, Restaged, Visits, WithEntry;
    var n := Top(s, t).name;
    var e', frame, stage, k := BeginForm(s, t);
    var mid := WithEntry(s, n, e', frame);
    WithEntryFacts(s, t, n, e', frame);
    if s.cells[n].e.context == e'.context {
      SameVisits(s, mid, n);
    }
    BeginRestaged(s, t);
    if k.None? {
      StageEffect(s, mid, t, stage);
      SameVisits(mid, RunBegin(s, t), n);
    } else {
      StartEffect(s, mid, t, k.value);
    }
  }

  lemma WithEntryFacts(s: State, t: Tid, n: Name, e: Entry, frame: nat)
    requires n in s.cells
    ensures var s' := WithEntry(s, n, e, frame);
            Stack(s', t) == Stack(s, t) && n in s'.cells && s'.cells[n].e == e && s'.contexts == s.contexts
  {
  }

  lemma CheckHas(s: State, t: Tid)
    requires Inside(s, t) && Top(s, t).stage.Check?
    ensures HasEffect(s, RunCheck(s, t), t)
  {
    hide ToStage, Restaged, Visits;
    var n := Top(s, t).name;
    CheckRestaged(s, t);
    forall stage
      ensures InStage(ToStage(s, t, stage), t, stage) && ToStage(s, t, stage).cells == s.cells
      ensures Visits(ToStage(s, t, stage), n) == Visits(s, n)
    {
      StageEffect(s, s, t, stage);
      SameVisits(s, ToStage(s, t, stage), n);
    }
    var rejected := SetEntry(s, n, Reject(s.cells[n].e));
    StageEffect(s, rejected, t, Leaving(Ret(false, None)));
    SameVisits(s, ToStage(rejected, t, Leaving(Ret(false, None))), n);
  }

  lemma DrainHas(s: State, t: Tid)
    requires Inside(s, t) && Top(s, t).stage.Drain? && Sound(s, Top(s, t).name)
    requires Top(s, t).op.Unload? || (Top(s, t).op.Deactivate? && s.cells[Top(s, t).name].e.mayBeActive)
    ensures HasEffect(s, RunDrain(s, t), t)
  {
    hide ToStage, Restaged, Visits, StartCallback;
    var n := Top(s, t).name;
    DrainRestaged(s, t);
    forall stage
      ensures InStage(ToStage(s, t, stage), t, stage) && ToStage(s, t, stage).cells == s.cells
      ensures Visits(ToStage(s, t, stage), n) == Visits(s, n)
    {
      StageEffect(s, s, t, stage);
      SameVisits(s, ToStage(s, t, stage), n);
    }
    if s.cells[n].e.context.Some? {
      forall k
        ensures InStage(StartCallback(s, t, k), t, Running(k)) && StartCallback(s, t, k).cells == s.cells
        ensures Visits(StartCallback(s, t, k), n) == Visits(s, n) + [Started(k, Argument(Top(s, t).op, k))]
      {
        StartEffect(s, s, t, k);
      }
    }
  }

  lemma BuildingHas(s: State, t: Tid, c: Choice)
    requires Inside(s, t) && Top(s, t).stage.Building?
    ensures HasEffect(s, RunBuilding(s, t, c), t)
  {
    hide ToStage, Restaged, Visits;
    var n := Top(s, t).name;
    BuildingRestaged(s, t, c);
    if c.built.None? {
      StageEffect(s, s, t, Finishing(ERROR, false, None));
    } else {
      var cell := s.cells[n];
      var e := cell.e.(context := Some(s.next), generation := cell.e.generation + 1,
        configured := false, mayBeActive := false);
      var mid := s.(
        cells := s.cells[n := cell.(e := e, built := cell.built + [s.next])],
        contexts := s.contexts[s.next := Context(n, c.built.value, [])],
        next := s.next + 1);
      StageEffect(s, mid, t, Finishing(UNCONFIGURED, true, None));
    }
  }

  lemma CallbackHas(s: State, t: Tid, c: Choice)
    requires Inside(s, t) && Top(s, t).stage.Running? && Sound(s, Top(s, t).name)
    requires var e := s.cells[Top(s, t).name].e; e.context.Some? && MayRun(Top(s, t).op, Top(s, t).stage.callback, e)
    ensures HasEffect(s, RunCallback(s, t, c), t)
  {
    hide ToStage, Restaged, StartCallback, Perform, Visits, RunCallback, Effects.Ended;
    var f, n := Top(s, t), Top(s, t).name;
    CallbackRestaged(s, t, c);
    var mid := Effects.Ended(s, t, c.outside);
    var ok, state := EndedVisits(s, t, c.outside);
    var stage, k' := CallbackForm(s, t, c, ok, state);
    if k'.Some? {
      StartEffect(s, mid, t, k'.value);
    } else {
      StageEffect(s, mid, t, stage);
      SameVisits(mid, ToStage(mid, t, stage), n);
    }
  }

  lemma CallbackForm(s: State, t: Tid, c: Choice, ok: bool, state: Option<Value>) returns (stage: Stage, k': Option<Callback>)
    requires Inside(s, t) && Top(s, t).stage.Running?
    requires var f := Top(s, t);
             var e := s.cells[f.name].e;
             && e.context.Some? && e.context.value in s.contexts && MayRun(f.op, f.stage.callback, e)
             && var r := Perform(c.outside, f.stage.callback, s.contexts[e.context.value].tree, if f.op.Activate? then f.op.state else None);
                ok == r.error.None? && state == r.state
    ensures var f := Top(s, t);
            var k := f.stage.callback;
            var mid := Effects.Ended(s, t, c.outside);
            && Stack(mid, t) == Stack(s, t)
            && RunCallback(s, t, c) == (if k'.Some? then StartCallback(mid, t, k'.value) else ToStage(mid, t, stage))
            && match k'
               case Some(k') =>
                 && f.op.Unload? && ok && mid.cells[f.name].e.context == s.cells[f.name].e.context
                 && ((k.Deactivating? && (k'.CleaningUp? || k'.Closing?)) || (k.CleaningUp? && k'.Closing?))
               case None => stage == Finishing(Reached(f.op, ok), ok, if f.op.Deactivate? then state else None)
  {
    hide ToStage, StartCallback, Perform;
    var f := Top(s, t);
    var k := f.stage.callback;
    stage := Finishing(Reached(f.op, ok), ok, if f.op.Deactivate? then state else None);
    if f.op.Unload? && ok && k.Deactivating? {
      k' := Some(if s.cells[f.name].e.configured then CleaningUp else Closing);
    } else if f.op.Unload? && ok && k.CleaningUp? {
      k' := Some(Closing);
    } else {
      k' := None;
    }
  }

  lemma EndedVisits(s: State, t: Tid, o: Outside) returns (ok: bool, state: Option<Value>)
    requires Inside(s, t) && Top(s, t).stage.Running?
    requires var e := s.cells[Top(s, t).name].e; e.context.Some? && e.context.value in s.contexts
    ensures var n, k, s' := Top(s, t).name, Top(s, t).stage.callback, Effects.Ended(s, t, o);
            var e := s.cells[n].e;
            var r := Perform(o, k, s.contexts[e.context.value].tree, if Top(s, t).op.Activate? then Top(s, t).op.state else None);
            && Stack(s', t) == Stack(s, t) && n in s'.cells && ok == r.error.None? && state == r.state
            && s'.cells[n].e == Settle(e, k, ok) && e.context.value in s'.contexts
            && (s'.cells[n].e.context == e.context ==> Visits(s', n) == Visits(s, n) + [VisitOf(o.history, k, r)])
  {
    hide Perform;
    var n, k := Top(s, t).name, Top(s, t).stage.callback;
    var r := Perform(o, k, s.contexts[s.cells[n].e.context.value].tree, if Top(s, t).op.Activate? then Top(s, t).op.state else None);
    ok, state := r.error.None?, r.state;
  }

  lemma FinishHas(s: State, t: Tid)
    requires Inside(s, t) && Top(s, t).stage.Finishing?
    ensures var f := Top(s, t);
            HasEffect(s, ToStage(SetEntry(s, f.name, Finish(s.cells[f.name].e, f.stage.to, f.stage.ok)), t,
              Leaving(Ret(f.stage.ok, if f.stage.ok then f.stage.exported else None))), t)
  {
    hide ToStage, Restaged, Visits;
    var f, n := Top(s, t), Top(s, t).name;
    var e' := Finish(s.cells[n].e, f.stage.to, f.stage.ok);
    var stage := Leaving(Ret(f.stage.ok, if f.stage.ok then f.stage.exported else None));
    CellCalm(s, t, n, s.cells[n].(e := e'));
    StageRestaged(s, SetEntry(s, n, e'), t, stage);
    StageEffect(s, SetEntry(s, n, e'), t, stage);
    SameVisits(s, ToStage(SetEntry(s, n, e'), t, stage), n);
  }

  lemma AcquireHas(s: State, t: Tid, stage: Stage)
    requires Stack(s, t) != [] && Top(s, t).PrimFrame? && Top(s, t).name in s.cells
    ensures var n := Top(s, t).name;
            var s' := ToStage(Lock(s, t, n), t, stage);
            && Restaged(s, s', t) && Top(s', t).stage == stage && n in s'.cells
            && s'.cells[n].e == s.cells[n].e && Visits(s', n) == Visits(s, n)
  {
    hide ToStage, Restaged, Visits;
    var n := Top(s, t).name;
    CellCalm(s, t, n, s.cells[n].(owner := Some(t)));
    StageRestaged(s, Lock(s, t, n), t, stage);
    LockedVisits(s, t, n, stage);
  }

  lemma AcquireDone(s: State, t: Tid)
    requires Stack(s, t) != [] && Top(s, t).PrimFrame? && Top(s, t).name in s.cells && Top(s, t).stage.Acquire?
    ensures var f := Top(s, t);
            HasEffect(s, ToStage(Lock(s, t, f.name), t,
              if f.op.Activate? || f.op.Deactivate? || f.op.Cleanup? then Check else Stage.Begin), t)
  {
    hide ToStage, Restaged, Visits;
    var f := Top(s, t);
    AcquireHas(s, t, if f.op.Activate? || f.op.Deactivate? || f.op.Cleanup? then Check else Stage.Begin);
  }

  lemma WaitHas(s: State, t: Tid)
    requires Inside(s, t) && Top(s, t).stage.WaitBuild?
    ensures HasEffect(s, ToStage(s, t, Building), t)
  {
    hide ToStage, Restaged, Visits;
    SelfCalm(s, t);
    StageRestaged(s, s, t, Building);
    StageEffect(s, s, t, Building);
    SameVisits(s, ToStage(s, t, Building), Top(s, t).name);
  }

  lemma LockedVisits(s: State, t: Tid, n: Name, stage: Stage)
    requires Stack(s, t) != [] && Top(s, t).PrimFrame? && n in s.cells && Stack(Lock(s, t, n), t) == Stack(s, t)
    ensures var s' := ToStage(Lock(s, t, n), t, stage);
            n in s'.cells && s'.cells[n].e == s.cells[n].e && Visits(s', n) == Visits(s, n)
  {
  }

  /** Every step of a single operation that has been looked up and does not return has its effect. */
  lemma PrimHas(s: State, t: Tid, c: Choice)
    requires Inv(s) && CanRun(s, t, c) && Top(s, t).PrimFrame? && !Top(s, t).stage.Lookup? && !Top(s, t).stage.Leaving?
    ensures Top(s, t).name in s.cells && HasEffect(s, RunPrim(s, t, c), t)
  {
    hide Inv, RunCheck, RunBegin, RunBuilding, RunDrain, RunCallback, CellOk, FrameOk, Restaged, ToStage, Visits, HasEffect, Trajectory;
    var f := Top(s, t);
    InsideFacts(s, t);
    CellFacts(s, f.name);
    match f.stage {
      case Acquire => AcquireDone(s, t);
      case Check => CheckHas(s, t);
      case Begin => BeginHas(s, t);
      case WaitBuild => WaitHas(s, t);
      case Building => BuildingHas(s, t, c);
      case Drain => DrainHas(s, t);
      case Running(_) => CallbackHas(s, t, c);
      case Finishing(_, _, _) => FinishHas(s, t);
      case _ =>
    }
  }

  // ------------------------------------------------------- the root's class

  /** The root of the entry's tree, if it has one, accepts this handover state. */
  predicate RootTakes(s: State, n: Name, x: Option<Value>)
    requires n in s.cells
  {
    RootClass(s, n).Some? ==> Accepts(RootClass(s, n).value, x)
  }

  /** The last call of a start is the root's own; it gets `x` iff its class hands over state. */
  predicate RootGot(p: Option<PluginClass>, x: Option<Value>, events: seq<ContextTree.Event>) {
    p.Some? ==>
      && events != [] && var e := events[|events| - 1];
      && e.call.OnActivate? && e.fault.None?
      && (p.value.handover.Some? ==> e.call.args == [x]) && (p.value.handover.None? ==> e.call.args == [])
  }

  /** The first call of a stop is the root's own, and `x` is what it answered, if its class hands over state. */
  predicate RootGave(p: Option<PluginClass>, x: Option<Value>, events: seq<ContextTree.Event>) {
    if p.Some? && p.value.handover.Some? then
      events != [] && events[0].call.OnDeactivate? && events[0].raw == GaveDeactivation(true, x)
    else x.None?
  }

  /** The last visit of the entry's context is this callback, which succeeded. */
  predicate LastVisit(s: State, n: Name, k: Callback, state: Option<Value>)
    requires n in s.cells
  {
    var v := Visits(s, n);
    && v != [] && var last := v[|v| - 1];
    && last.Ended? && last.callback == k && last.ok && last.state == state
  }

  function LastState(s: State, n: Name): Option<Value>
    requires n in s.cells
  {
    var v := Visits(s, n);
    if v != [] && v[|v| - 1].Ended? then v[|v| - 1].state else None
  }

  /** What the last callback of the entry's context asked for. */
  function LastEvents(s: State, n: Name): seq<ContextTree.Event>
    requires n in s.cells
  {
    var v := Visits(s, n);
    if v != [] && v[|v| - 1].Ended? then v[|v| - 1].events else []
  }

  /**
   * A step between load and unload keeps the root's class. A start gives the root its
   * argument. A stop exports what the root accepts and, from an active entry, what it answered.
   */
  ghost predicate KeepsRoot(s: State, s': State, t: Tid)
    requires Stack(s, t) != [] && Top(s, t).PrimFrame? && Top(s, t).name in s.cells
  {
    var f, n := Top(s, t), Top(s, t).name;
    && n in s'.cells && Stack(s', t) != [] && Top(s', t).PrimFrame?
    && (!f.op.Load? && !f.op.Unload? ==> RootClass(s', n) == RootClass(s, n))
    && (f.op.Deactivate? && f.stage.Running? && Top(s', t).stage.Finishing? && Top(s', t).stage.ok ==>
          RootTakes(s, n, Top(s', t).stage.exported))
    && (f.op.Deactivate? && f.stage.Running? && Top(s', t).stage.Finishing? && Top(s', t).stage.ok && s.cells[n].e.state.ACTIVE? ==>
          && LastVisit(s', n, Deactivating, Top(s', t).stage.exported)
          && RootGave(RootClass(s, n), Top(s', t).stage.exported, LastEvents(s', n)))
    && (f.op.Activate? && f.stage.Running? && Top(s', t).stage.Finishing? && Top(s', t).stage.ok ==>
          LastVisit(s', n, Activating, None) && RootGot(RootClass(s, n), f.op.state, LastEvents(s', n)))
  }

  lemma SameRoot(s: State, s': State, n: Name)
    requires n in s.cells && n in s'.cells && s'.contexts == s.contexts && s'.cells[n].e.context == s.cells[n].e.context
    ensures RootClass(s', n) == RootClass(s, n)
  {
  }

  lemma StartRoot(s: State, mid: State, t: Tid, k: Callback)
    requires Inside(s, t) && Stack(mid, t) == Stack(s, t) && Top(s, t).name in mid.cells
    ensures var s' := StartCallback(mid, t, k);
            s'.cells == mid.cells && RootClass(s', Top(s, t).name) == RootClass(mid, Top(s, t).name)
  {
  }

  /** What a traversal leaves of the root. */
  lemma PerformRoot(o: Outside, k: Callback, tree: ContextTree.Tree, arg: Option<Value>)
    requires !k.Closing?
    ensures Perform(o, k, tree, arg).tree.plugin == tree.plugin
    ensures k.Deactivating? && StopTheorems.WellFormed(tree) && tree.plugin.Some? ==>
              Accepts(tree.plugin.value, Perform(o, k, tree, arg).state)
    ensures var r := Perform(o, k, tree, arg);
            k.Deactivating? && StopTheorems.WellFormed(tree) && r.error.None? && (tree.plugin.Some? ==> tree.outstanding) ==>
              RootGave(tree.plugin, r.state, VisitOf(o.history, k, r).events)
    ensures var r := Perform(o, k, tree, arg);
            k.Activating? && StopTheorems.WellFormed(tree) && r.error.None? ==>
              r.state.None? && RootGot(tree.plugin, arg, VisitOf(o.history, k, r).events)
  {
    if k.Deactivating? && StopTheorems.WellFormed(tree) {
      StopTheorems.ExportOnlyFromThisPass(o.oracle, o.history, tree);
      if DeactivateTree(o.oracle, o.history, tree).error.None? {
        CallbackTheorems.StopGives(o.oracle, o.history, tree);
      }
    }
    if k.Activating? && StopTheorems.WellFormed(tree) && ActivateTree(o.oracle, o.history, tree, arg).error.None? {
      var nodes := CallbackTheorems.Instances(tree);
      CallbackTheorems.ActivationGives(o.oracle, o.history, tree, arg, if nodes == [] then 0 else |nodes| - 1);
    }
  }

  lemma CallbackRoot(s: State, t: Tid, c: Choice)
    requires Inside(s, t) && Top(s, t).stage.Running? && HasEffect(s, RunCallback(s, t, c), t)
    requires var f, e := Top(s, t), s.cells[Top(s, t).name].e;
             && e.context.Some? && e.context.value in s.contexts && MayRun(f.op, f.stage.callback, e)
             && StopTheorems.WellFormed(s.contexts[e.context.value].tree)
             && (f.stage.callback.Deactivating? && e.state.ACTIVE? ==> StopTheorems.AllStarted(s.contexts[e.context.value].tree))
    ensures KeepsRoot(s, RunCallback(s, t, c), t)
  {
    hide ToStage, StartCallback, Perform, RunCallback, Effects.Ended, StopTheorems.WellFormed, Effect, Calm, RootGot, RootGave, Visits;
    var f, n := Top(s, t), Top(s, t).name;
    if !f.op.Unload? && !f.op.Load? {
      var tree := s.contexts[s.cells[n].e.context.value].tree;
      var arg := if f.op.Activate? then f.op.state else None;
      var r := Perform(c.outside, f.stage.callback, tree, arg);
      PerformRoot(c.outside, f.stage.callback, tree, arg);
      var stage, k' := CallbackForm(s, t, c, r.error.None?, r.state);
      var mid := Effects.Ended(s, t, c.outside);
      EndedRoot(s, t, c.outside);
      var _, _ := EndedVisits(s, t, c.outside);
      StageEffect(s, mid, t, stage);
      SameRoot(mid, RunCallback(s, t, c), n);
      SameVisits(mid, RunCallback(s, t, c), n);
    }
  }

  lemma SettleHolds(e: Entry, k: Callback)
    requires !k.Closing?
    ensures forall ok :: Settle(e, k, ok).context == e.context
  {
  }

  lemma EndedRoot(s: State, t: Tid, o: Outside)
    requires Inside(s, t) && Top(s, t).stage.Running? && !Top(s, t).stage.callback.Closing?
    requires var e := s.cells[Top(s, t).name].e; e.context.Some? && e.context.value in s.contexts
    ensures var s', n := Effects.Ended(s, t, o), Top(s, t).name;
            Stack(s', t) == Stack(s, t) && n in s'.cells && RootClass(s', n) == RootClass(s, n)
  {
    hide Perform, Settle;
    var f, n := Top(s, t), Top(s, t).name;
    SettleHolds(s.cells[n].e, f.stage.callback);
    PerformRoot(o, f.stage.callback, s.contexts[s.cells[n].e.context.value].tree, if f.op.Activate? then f.op.state else None);
  }

  lemma BeginRoot(s: State, t: Tid)
    requires Inside(s, t) && Top(s, t).stage.Begin? && HasEffect(s, RunBegin(s, t), t)
    ensures KeepsRoot(s, RunBegin(s, t), t)
  {
    hide StartCallback, ToStage, RunBegin, WithEntry, RootClass, Effect, Calm;
    var n := Top(s, t).name;
    var e', frame, stage, k := BeginForm(s, t);
    var mid := WithEntry(s, n, e', frame);
    WithEntryFacts(s, t, n, e', frame);
    SameRoot(s, mid, n);
    if k.None? {
      StageEffect(s, mid, t, stage);
      SameRoot(mid, RunBegin(s, t), n);
    } else {
      StartRoot(s, mid, t, k.value);
    }
  }

  lemma DrainRoot(s: State, t: Tid)
    requires Inside(s, t) && Top(s, t).stage.Drain? && HasEffect(s, RunDrain(s, t), t)
    ensures KeepsRoot(s, RunDrain(s, t), t)
  {
    hide StartCallback, ToStage, RootClass, Effect, Calm;
    var n := Top(s, t).name;
    forall stage ensures ToStage(s, t, stage).cells == s.cells && RootClass(ToStage(s, t, stage), n) == RootClass(s, n) {
      StageEffect(s, s, t, stage);
      SameRoot(s, ToStage(s, t, stage), n);
    }
    forall k ensures StartCallback(s, t, k).cells == s.cells && RootClass(StartCallback(s, t, k), n) == RootClass(s, n) {
      StartRoot(s, s, t, k);
    }
  }

  /** The stages that leave all contexts alone. */
  lemma QuietRoot(s: State, t: Tid, c: Choice)
    requires CanRun(s, t, c) && Top(s, t).PrimFrame? && Top(s, t).name in s.cells && HasEffect(s, RunPrim(s, t, c), t)
    requires var st := Top(s, t).stage; st.Acquire? || st.Check? || st.WaitBuild? || st.Finishing?
    ensures KeepsRoot(s, RunPrim(s, t, c), t)
  {
    hide ToStage, Calm, Visits, RootClass, CanRun;
    var n := Top(s, t).name;
    QuietContexts(s, t, c);
    SameRoot(s, RunPrim(s, t, c), n);
  }

  lemma QuietContexts(s: State, t: Tid, c: Choice)
    requires CanRun(s, t, c) && Top(s, t).PrimFrame? && Top(s, t).name in s.cells
    requires var st := Top(s, t).stage; st.Acquire? || st.Check? || st.WaitBuild? || st.Finishing?
    ensures RunPrim(s, t, c).contexts == s.contexts
  {
  }

  lemma PrimKeepsRoot(s: State, t: Tid, c: Choice)
    requires Inv(s) && CanRun(s, t, c) && Top(s, t).PrimFrame? && !Top(s, t).stage.Lookup? && !Top(s, t).stage.Leaving?
    ensures Top(s, t).name in s.cells && KeepsRoot(s, RunPrim(s, t, c), t)
  {
    hide Inv, RunCheck, RunBegin, RunBuilding, RunDrain, RunCallback, CellOk, FrameOk, HasEffect, KeepsRoot, ToStage, Visits, Trajectory;
    PrimHas(s, t, c);
    InsideFacts(s, t);
    CellFacts(s, Top(s, t).name);
    match Top(s, t).stage {
      case Begin => BeginRoot(s, t);
      case Building => BuildingRoot(s, t, c);
      case Drain => DrainRoot(s, t);
      case Running(_) => CallbackRoot(s, t, c);
      case _ => QuietRoot(s, t, c);
    }
  }

  lemma BuildingRoot(s: State, t: Tid, c: Choice)
    requires Inside(s, t) && Top(s, t).stage.Building? && Top(s, t).op.Load? && HasEffect(s, RunBuilding(s, t, c), t)
    ensures KeepsRoot(s, RunBuilding(s, t, c), t)
  {
    hide RunBuilding, Effect, Calm;
  }
}
