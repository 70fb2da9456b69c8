/**
 * The sequential operations are what the protocol does: a thread that runs one
 * operation on a free entry, while no other thread steps, gets its result.
 */
module Undisturbed {
  import opened Lifecycle
  import opened Plugins
  import opened ContextTree
  import opened StopTheorems
  import opened Names
  import opened Entries
  import opened Protocol
  import opened Invariant
  import opened PrimSteps
  import opened AllSteps
  import opened Operations
  import opened Runs

  /** What changes while a thread runs one operation: its activation, the entry, and the contexts. */
  datatype Spot = Spot(f: Frame, cell: Cell, contexts: map<ContextId, Context>, next: ContextId)

  function Placed(s: State, t: Tid, n: Name, p: Spot): State {
    s.(stacks := s.stacks[t := Stack(s, t) + [p.f]], cells := s.cells[n := p.cell], contexts := p.contexts, next := p.next)
  }

  /** The spot holds this entry and this tree. */
  predicate Shows(p: Spot, h: Held) {
    && p.cell.e == h.e
    && (h.tree.Some? <==> h.e.context.Some?)
    && (h.tree.Some? ==> h.e.context.value in p.contexts && p.contexts[h.e.context.value].tree == h.tree.value)
  }

  predicate Alone(run: seq<Action>, t: Tid) {
    forall i | 0 <= i < |run| :: run[i].t == t && (run[i].StartOp? || run[i].Run?)
  }

  /** Steps of thread `t` alone lead from one state to another. */
  ghost predicate Reaches(s: State, t: Tid, s': State) {
    exists run: seq<Action> :: Alone(run, t) && Protocol.Legal(s, run) && After(s, run) == s'
  }

  lemma AloneLeads(s: State, t: Tid, s': State)
    requires Reaches(s, t, s')
    ensures Leads(s, s')
  {
    var run: seq<Action> :| Alone(run, t) && Protocol.Legal(s, run) && After(s, run) == s';
  }

  lemma Stays(s: State, t: Tid)
    ensures Reaches(s, t, s)
  {
    assert Alone([], t) && Protocol.Legal(s, []) && After(s, []) == s;
  }

  lemma StepThen(s: State, t: Tid, a: Action, s1: State, s2: State)
    requires a.t == t && (a.StartOp? || a.Run?) && Enabled(s, a) && Next(s, a) == s1 && Reaches(s1, t, s2)
    ensures Reaches(s, t, s2)
  {
    hide Next, Enabled;
    var run: seq<Action> :| Alone(run, t) && Protocol.Legal(s1, run) && After(s1, run) == s2;
    var longer := [a] + run;
    assert longer[1..] == run;
    assert Alone(longer, t) && Protocol.Legal(s, longer) && After(s, longer) == s2;
  }

  /** Only the context of the entry, or a new one, may have changed. */
  predicate Nearby(p: Spot, q: Spot) {
    && (forall c | c in p.contexts && p.cell.e.context != Some(c) :: c in q.contexts && q.contexts[c] == p.contexts[c])
    && (q.cell.e.context == p.cell.e.context || q.cell.e.context.None? || q.cell.e.context.value !in p.contexts)
  }

  predicate SameKeys(p: Spot, q: Spot) {
    forall c | c in p.contexts :: c in q.contexts
  }

  lemma NearbyTransitive(p: Spot, q: Spot, r: Spot)
    requires Nearby(p, q) && Nearby(q, r) && SameKeys(p, q)
    ensures Nearby(p, r)
  {
  }

  /** From here the operation ends with this outcome, which it is then about to return. */
  ghost predicate Ends(s: State, t: Tid, n: Name, p: Spot, out: Outcome)
    requires p.f.PrimFrame?
  {
    exists q: Spot ::
      && q.f == p.f.(stage := Leaving(out.ret)) && q.cell.owner == Some(t) && Shows(q, out.held) && Nearby(p, q)
      && Reaches(Placed(s, t, n, p), t, Placed(s, t, n, q))
  }

  /** One step of the operation, and what follows. */
  lemma StepEnds(s: State, t: Tid, n: Name, p: Spot, c: Choice, q: Spot, out: Outcome)
    requires p.f.PrimFrame? && q.f.PrimFrame? && q.f == p.f.(stage := q.f.stage)
    requires CanRun(Placed(s, t, n, p), t, c) && Next(Placed(s, t, n, p), Run(t, c)) == Placed(s, t, n, q)
    requires Nearby(p, q) && SameKeys(p, q)
    requires Ends(s, t, n, q, out)
    ensures Ends(s, t, n, p, out)
  {
    hide Next, CanRun, Reaches, Shows, Placed, Nearby;
    PlacedFacts(s, t, n, p);
    var r: Spot :|
      && r.f == q.f.(stage := Leaving(out.ret)) && r.cell.owner == Some(t) && Shows(r, out.held) && Nearby(q, r)
      && Reaches(Placed(s, t, n, q), t, Placed(s, t, n, r));
    StepThen(Placed(s, t, n, p), t, Run(t, c), Placed(s, t, n, q), Placed(s, t, n, r));
    NearbyTransitive(p, q, r);
    assert r.f == p.f.(stage := Leaving(out.ret));
  }

  lemma ArrivedEnds(s: State, t: Tid, n: Name, p: Spot, out: Outcome)
    requires p.f.PrimFrame? && p.f.stage == Leaving(out.ret) && p.cell.owner == Some(t) && Shows(p, out.held)
    ensures Ends(s, t, n, p, out)
  {
    hide Reaches, Shows, Placed;
    Stays(Placed(s, t, n, p), t);
    assert p.f == p.f.(stage := Leaving(out.ret));
  }

  // ---------------------------------------------------------- placed states

  lemma PlacedFacts(s: State, t: Tid, n: Name, p: Spot)
    ensures var s' := Placed(s, t, n, p);
            && Stack(s', t) == Stack(s, t) + [p.f] && Top(s', t) == p.f && n in s'.cells && s'.cells[n] == p.cell
            && s'.contexts == p.contexts && s'.next == p.next && s'.closing == s.closing
  {
  }

  lemma PlacedStage(s: State, t: Tid, n: Name, p: Spot, stage: Stage)
    requires p.f.PrimFrame?
    ensures var s' := Placed(s, t, n, p);
            Stack(s', t) != [] && Top(s', t) == p.f && ToStage(s', t, stage) == Placed(s, t, n, p.(f := p.f.(stage := stage)))
  {
    var below := Stack(s, t);
    var f := p.f.(stage := stage);
    assert (below + [p.f])[|below| := f] == below + [f];
    assert s.stacks[t := below + [p.f]][t := below + [f]] == s.stacks[t := below + [f]];
  }

  lemma PlacedCell(s: State, t: Tid, n: Name, p: Spot, cell: Cell)
    ensures var s' := Placed(s, t, n, p);
            s'.(cells := s'.cells[n := cell]) == Placed(s, t, n, p.(cell := cell))
  {
    assert s.cells[n := p.cell][n := cell] == s.cells[n := cell];
  }

  function Visited(p: Spot, k: Callback): Spot
    requires p.f.PrimFrame? && p.cell.e.context.Some? && p.cell.e.context.value in p.contexts
  {
    var x := p.contexts[p.cell.e.context.value];
    var visit := Started(k, if k.Activating? && p.f.op.Activate? then p.f.op.state else None);
    p.(f := p.f.(stage := Running(k)), contexts := p.contexts[p.cell.e.context.value := x.(visits := x.visits + [visit])])
  }

  /** Starting a callback only records the visit. */
  lemma PlacedStart(s: State, t: Tid, n: Name, p: Spot, k: Callback)
    requires p.f.PrimFrame? && p.f.name == n && p.cell.e.context.Some? && p.cell.e.context.value in p.contexts
    ensures var s' := Placed(s, t, n, p);
            Stack(s', t) != [] && Top(s', t) == p.f && StartCallback(s', t, k) == Placed(s, t, n, Visited(p, k))
    ensures Visited(p, k).cell == p.cell && Nearby(p, Visited(p, k)) && SameKeys(p, Visited(p, k))
    ensures forall h :: Shows(p, h) ==> Shows(Visited(p, k), h)
  {
    hide ToStage;
    PlacedFacts(s, t, n, p);
    var q := p.(contexts := Visited(p, k).contexts);
    assert Placed(s, t, n, p).(contexts := q.contexts) == Placed(s, t, n, q);
    PlacedStage(s, t, n, q, Running(k));
  }

  // -------------------------------------------------------------- the last steps

  /** Nothing foreign is decided. */
  function Quietly(o: Oracle, trace: seq<Event>): Choice {
    Choice(false, None, Outside(o, trace), false)
  }

  lemma FinishingEnds(s: State, t: Tid, n: Name, p: Spot, h: Held, o: Oracle, trace: seq<Event>)
    requires p.f.PrimFrame? && p.f.name == n && p.f.stage.Finishing? && p.cell.owner == Some(t) && Shows(p, h)
    ensures var st := p.f.stage;
            Ends(s, t, n, p, Outcome(h.(e := Finish(h.e, st.to, st.ok)), trace, Ret(st.ok, if st.ok then st.exported else None)))
  {
    hide ToStage, Placed, Ends;
    var st := p.f.stage;
    var out := Outcome(h.(e := Finish(h.e, st.to, st.ok)), trace, Ret(st.ok, if st.ok then st.exported else None));
    PlacedFacts(s, t, n, p);
    var cell := p.cell.(e := Finish(p.cell.e, st.to, st.ok));
    PlacedCell(s, t, n, p, cell);
    PlacedStage(s, t, n, p.(cell := cell), Leaving(out.ret));
    var q := p.(cell := cell, f := p.f.(stage := Leaving(out.ret)));
    ArrivedEnds(s, t, n, q, out);
    StepEnds(s, t, n, p, Quietly(o, trace), q, out);
  }

  /** The spot after a callback ended. */
  function Called(p: Spot, k: Callback, before: seq<Event>, r: TreeResult, stage: Stage): Spot
    requires p.f.PrimFrame? && p.cell.e.context.Some? && p.cell.e.context.value in p.contexts
  {
    var ok := r.error.None?;
    var x := p.contexts[p.cell.e.context.value];
    Spot(p.f.(stage := stage), p.cell.(e := Settle(p.cell.e, k, ok)),
      p.contexts[p.cell.e.context.value := x.(tree := r.tree, visits := x.visits + [VisitOf(before, k, r)])], p.next)
  }

  /** A callback that is the last of its operation. */
  lemma LastCallbackEnds(s: State, t: Tid, n: Name, p: Spot, env: Env, h: Held, trace: seq<Event>)
    requires p.f.PrimFrame? && p.f.name == n && p.f.stage.Running? && p.cell.owner == Some(t) && Shows(p, h) && h.tree.Some?
    requires p.f.op.Unload? ==> (p.f.stage.callback.Closing? || !CallBack(env, h, trace, p.f.stage.callback, None).ok)
    ensures Ends(s, t, n, p,
              Complete(CallBack(env, h, trace, p.f.stage.callback, if p.f.op.Activate? then p.f.op.state else None), p.f.op))
  {
    hide ToStage, Placed, Ends, Perform, StartCallback;
    var k, op := p.f.stage.callback, p.f.op;
    var arg := if op.Activate? then op.state else None;
    var c := CallBack(env, h, trace, k, arg);
    var r := Perform(Outside(env.oracle, trace), k, h.tree.value, arg);
    var stage := Finishing(Reached(op, c.ok), c.ok, if op.Deactivate? then r.state else None);
    var q := Called(p, k, trace, r, stage);
    assert Shows(q, c.held);
    FinishingEnds(s, t, n, q, c.held, env.oracle, c.trace);
    SameEnd(s, t, n, q, c, op);
    CallbackStep(s, t, n, p, env, h, trace, r);
    StepEnds(s, t, n, p, Quietly(env.oracle, trace), q, Complete(c, op));
  }

  /** The trace in an outcome is that of the foreign code, which the protocol does not keep. */
  lemma SameEnd(s: State, t: Tid, n: Name, p: Spot, c: Operations.Called, op: Prim)
    requires p.f.PrimFrame?
    requires Ends(s, t, n, p,
               Outcome(c.held.(e := Finish(c.held.e, Reached(op, c.ok), c.ok)), c.trace,
                 Ret(c.ok, if c.ok then (if op.Deactivate? then c.state else None) else None)))
    ensures Ends(s, t, n, p, Complete(c, op))
  {
    hide Ends;
  }

  lemma CallbackStep(s: State, t: Tid, n: Name, p: Spot, env: Env, h: Held, trace: seq<Event>, r: TreeResult)
    requires p.f.PrimFrame? && p.f.name == n && p.f.stage.Running? && Shows(p, h) && h.tree.Some?
    requires r == Perform(Outside(env.oracle, trace), p.f.stage.callback, h.tree.value, if p.f.op.Activate? then p.f.op.state else None)
    requires p.f.op.Unload? ==> p.f.stage.callback.Closing? || r.error.Some?
    ensures var c := Quietly(env.oracle, trace);
            var stage := Finishing(Reached(p.f.op, r.error.None?), r.error.None?, if p.f.op.Deactivate? then r.state else None);
            && CanRun(Placed(s, t, n, p), t, c)
            && Next(Placed(s, t, n, p), Run(t, c)) == Placed(s, t, n, Called(p, p.f.stage.callback, trace, r, stage))
  {
    hide ToStage, Placed, Perform, StartCallback;
    var k := p.f.stage.callback;
    var stage := Finishing(Reached(p.f.op, r.error.None?), r.error.None?, if p.f.op.Deactivate? then r.state else None);
    var q := Called(p, k, trace, r, p.f.stage);
    PlacedFacts(s, t, n, p);
    PlacedCell(s, t, n, p, q.cell);
    PlacedContexts(s, t, n, p.(cell := q.cell), q.contexts);
    PlacedStage(s, t, n, q, stage);
  }

  lemma PlacedContexts(s: State, t: Tid, n: Name, p: Spot, contexts: map<ContextId, Context>)
    ensures Placed(s, t, n, p).(contexts := contexts) == Placed(s, t, n, p.(contexts := contexts))
  {
  }

  // -------------------------------------------------------------------- unload

  /** Unload goes from one successful callback to the next. */
  lemma NextCallbackStep(s: State, t: Tid, n: Name, p: Spot, env: Env, h: Held, trace: seq<Event>, r: TreeResult, next: Callback)
    requires p.f.PrimFrame? && p.f.name == n && p.f.stage.Running? && Shows(p, h) && h.tree.Some? && p.f.op.Unload?
    requires r == Perform(Outside(env.oracle, trace), p.f.stage.callback, h.tree.value, None) && r.error.None?
    requires !p.f.stage.callback.Closing? && !next.Configuring? && !next.Activating?
    requires p.f.stage.callback.Deactivating? ==> next == if h.e.configured then CleaningUp else Closing
    requires p.f.stage.callback.CleaningUp? ==> next == Closing
    requires p.f.stage.callback.Deactivating? || p.f.stage.callback.CleaningUp?
    ensures var q := Called(p, p.f.stage.callback, trace, r, p.f.stage);
            && CanRun(Placed(s, t, n, p), t, Quietly(env.oracle, trace))
            && Next(Placed(s, t, n, p), Run(t, Quietly(env.oracle, trace))) == Placed(s, t, n, Visited(q, next))
            && Visited(q, next).cell == q.cell && Nearby(p, Visited(q, next)) && SameKeys(p, Visited(q, next))
            && forall h' :: Shows(q, h') ==> Shows(Visited(q, next), h')
  {
    hide ToStage, Placed, Perform, StartCallback, Visited;
    var q := Called(p, p.f.stage.callback, trace, r, p.f.stage);
    assert q.f == p.f;
    PlacedFacts(s, t, n, p);
    PlacedCell(s, t, n, p, q.cell);
    PlacedContexts(s, t, n, p.(cell := q.cell), q.contexts);
    PlacedFacts(s, t, n, q);
    PlacedStart(s, t, n, q, next);
  }

  predicate AtCallback(p: Spot, t: Tid, n: Name, k: Callback, h: Held) {
    && p.f.PrimFrame? && p.f.name == n && p.f.op.Unload? && p.f.stage == Running(k) && p.cell.owner == Some(t)
    && Shows(p, h) && h.tree.Some?
  }

  lemma ClosingEnds(s: State, t: Tid, n: Name, p: Spot, env: Env, h: Held, trace: seq<Event>)
    requires AtCallback(p, t, n, Closing, h)
    ensures Ends(s, t, n, p, Complete(CallBack(env, h, trace, Closing, None), p.f.op))
  {
    hide Ends, CallBack, Shows;
    LastCallbackEnds(s, t, n, p, env, h, trace);
  }

  lemma CleaningEnds(s: State, t: Tid, n: Name, p: Spot, env: Env, h: Held, trace: seq<Event>)
    requires AtCallback(p, t, n, CleaningUp, h)
    ensures Ends(s, t, n, p, Complete(ThenClose(env, CallBack(env, h, trace, CleaningUp, None)), p.f.op))
  {
    hide Ends, Complete, Perform, Visited, Next, CanRun, Placed;
    var c := CallBack(env, h, trace, CleaningUp, None);
    if c.ok {
      var r := Perform(Outside(env.oracle, trace), CleaningUp, h.tree.value, None);
      var q := Called(p, CleaningUp, trace, r, p.f.stage);
      NextCallbackStep(s, t, n, p, env, h, trace, r, Closing);
      assert Shows(q, c.held);
      VisitedStage(q, Closing);
      ClosingEnds(s, t, n, Visited(q, Closing), env, c.held, c.trace);
      StepEnds(s, t, n, p, Quietly(env.oracle, trace), Visited(q, Closing), Complete(ThenClose(env, c), p.f.op));
    } else {
      LastCallbackEnds(s, t, n, p, env, h, trace);
    }
  }

  lemma VisitedStage(p: Spot, k: Callback)
    requires p.f.PrimFrame? && p.cell.e.context.Some? && p.cell.e.context.value in p.contexts
    ensures Visited(p, k).f == p.f.(stage := Running(k))
  {
  }

  lemma StoppingEnds(s: State, t: Tid, n: Name, p: Spot, env: Env, h: Held, trace: seq<Event>)
    requires AtCallback(p, t, n, Deactivating, h)
    ensures Ends(s, t, n, p, Complete(ThenClose(env, ThenCleanUp(env, CallBack(env, h, trace, Deactivating, None))), p.f.op))
  {
    hide Ends, Complete, Perform, Visited, Next, CanRun, Placed;
    var c := CallBack(env, h, trace, Deactivating, None);
    if c.ok {
      var r := Perform(Outside(env.oracle, trace), Deactivating, h.tree.value, None);
      var q := Called(p, Deactivating, trace, r, p.f.stage);
      var next := if h.e.configured then CleaningUp else Closing;
      NextCallbackStep(s, t, n, p, env, h, trace, r, next);
      assert Shows(q, c.held);
      VisitedStage(q, next);
      if h.e.configured {
        CleaningEnds(s, t, n, Visited(q, next), env, c.held, c.trace);
      } else {
        ClosingEnds(s, t, n, Visited(q, next), env, c.held, c.trace);
      }
      StepEnds(s, t, n, p, Quietly(env.oracle, trace), Visited(q, next), Complete(ThenClose(env, ThenCleanUp(env, c)), p.f.op));
    } else {
      LastCallbackEnds(s, t, n, p, env, h, trace);
    }
  }

  // --------------------------------------------------------------------- drain

  /** Where the drain leads. */
  lemma DrainStep(s: State, t: Tid, n: Name, p: Spot, h: Held, o: Oracle, trace: seq<Event>)
    requires p.f.PrimFrame? && p.f.name == n && p.f.stage.Drain? && Shows(p, h) && Coherent(h.e)
    requires p.f.op.Deactivate? || p.f.op.Unload?
    requires h.e.inFlight != 0 ==> p.f.op.timed
    requires p.f.op.Deactivate? ==> h.tree.Some?
    ensures var c := Choice(true, None, Outside(o, trace), false);
            var next := Next(Placed(s, t, n, p), Run(t, c));
            && CanRun(Placed(s, t, n, p), t, c)
            && if h.e.inFlight != 0 then next == Placed(s, t, n, p.(f := p.f.(stage := Finishing(ERROR, false, None))))
               else if h.tree.None? then next == Placed(s, t, n, p.(f := p.f.(stage := Finishing(UNLOADED, true, None))))
               else
                 var k := if p.f.op.Deactivate? || h.e.mayBeActive then Deactivating else if h.e.configured then CleaningUp else Closing;
                 && next == Placed(s, t, n, Visited(p, k)) && Visited(p, k).cell == p.cell && Shows(Visited(p, k), h)
                 && Nearby(p, Visited(p, k)) && SameKeys(p, Visited(p, k))
                 && Visited(p, k).f == p.f.(stage := Running(k))
  {
    hide ToStage, Placed, StartCallback, Visited;
    PlacedFacts(s, t, n, p);
    PlacedStage(s, t, n, p, Finishing(ERROR, false, None));
    PlacedStage(s, t, n, p, Finishing(UNLOADED, true, None));
    if h.tree.Some? {
      var k := if p.f.op.Deactivate? || h.e.mayBeActive then Deactivating else if h.e.configured then CleaningUp else Closing;
      PlacedStart(s, t, n, p, k);
      VisitedStage(p, k);
    }
  }

  /** The part of a stopping operation after `_begin`. */
  function Drained(env: Env, h: Held, trace: seq<Event>, op: Prim): Operations.Called
    requires op.Deactivate? ==> h.tree.Some?
  {
    if h.e.inFlight != 0 then Plainly(h, trace, false)
    else if h.tree.None? then Plainly(h, trace, true)
    else if op.Deactivate? then CallBack(env, h, trace, Deactivating, None)
    else ThenClose(env, ThenCleanUp(env, StopFirst(env, h, trace)))
  }

  lemma DrainEnds(s: State, t: Tid, n: Name, p: Spot, env: Env, h: Held, trace: seq<Event>)
    requires p.f.PrimFrame? && p.f.name == n && p.f.stage.Drain? && p.cell.owner == Some(t) && Shows(p, h) && Coherent(h.e)
    requires p.f.op.Deactivate? || p.f.op.Unload?
    requires h.e.inFlight != 0 ==> p.f.op.timed
    requires p.f.op.Deactivate? ==> h.tree.Some?
    ensures Ends(s, t, n, p, Complete(Drained(env, h, trace, p.f.op), p.f.op))
  {
    hide Ends, CallBack, Visited, Next, CanRun, Placed;
    var c := Choice(true, None, Outside(env.oracle, trace), false);
    var out := Complete(Drained(env, h, trace, p.f.op), p.f.op);
    DrainStep(s, t, n, p, h, env.oracle, trace);
    if h.e.inFlight != 0 || h.tree.None? {
      var ok := h.e.inFlight == 0;
      var q := p.(f := p.f.(stage := Finishing(if ok then UNLOADED else ERROR, ok, None)));
      FinishingEnds(s, t, n, q, h, env.oracle, trace);
      StepEnds(s, t, n, p, c, q, out);
    } else {
      var k := if p.f.op.Deactivate? || h.e.mayBeActive then Deactivating else if h.e.configured then CleaningUp else Closing;
      var q := Visited(p, k);
      if p.f.op.Deactivate? {
        LastCallbackEnds(s, t, n, q, env, h, trace);
      } else if h.e.mayBeActive {
        StoppingEnds(s, t, n, q, env, h, trace);
      } else if h.e.configured {
        CleaningEnds(s, t, n, q, env, h, trace);
      } else {
        ClosingEnds(s, t, n, q, env, h, trace);
      }
      StepEnds(s, t, n, p, c, q, out);
    }
  }

  // --------------------------------------------------------------------- begin

  predicate AtBegin(p: Spot, t: Tid, n: Name, op: Prim, h: Held) {
    p.f == PrimFrame(op, n, Stage.Begin) && p.cell.owner == Some(t) && Shows(p, h)
  }

  lemma BeginRefused(s: State, t: Tid, n: Name, p: Spot, op: Prim, env: Env, h: Held, trace: seq<Event>)
    requires AtBegin(p, t, n, op, h) && env.t == t && env.closing == s.closing && !Accepted(env, h.e, op)
    ensures Ends(s, t, n, p, Refusal(h, trace))
  {
    hide ToStage, Placed, Ends, Refuses, Allowed;
    PlacedFacts(s, t, n, p);
    var cell := p.cell.(e := Reject(p.cell.e));
    var stage := Leaving(Ret(false, None));
    PlacedCell(s, t, n, p, cell);
    PlacedStage(s, t, n, p.(cell := cell), stage);
    var q := p.(cell := cell, f := p.f.(stage := stage));
    ArrivedEnds(s, t, n, q, Refusal(h, trace));
    StepEnds(s, t, n, p, Quietly(env.oracle, trace), q, Refusal(h, trace));
  }

  /** The spot after `_begin`, with the entry as the code then leaves it. */
  function Entering(p: Spot, depth: nat, e: Entry, stage: Stage): Spot
    requires p.f.PrimFrame?
  {
    p.(cell := p.cell.(e := e, frame := depth), f := p.f.(stage := stage))
  }

  /** `_begin` and the flag set before a callback. */
  function Marked(env: Env, h: Held, op: Prim): Held {
    var b := Entered(env, h, op);
    match op
    case Configure => b.(e := b.e.(configured := true))
    case Activate(_) => b.(e := b.e.(mayBeActive := true))
    case _ => b
  }

  function FirstCallback(op: Prim): Callback {
    if op.Configure? then Configuring else if op.Activate? then Activating else CleaningUp
  }

  lemma BeginCallbackStep(s: State, t: Tid, n: Name, p: Spot, op: Prim, env: Env, h: Held, o: Oracle, trace: seq<Event>)
    requires AtBegin(p, t, n, op, h) && env.t == t && env.closing == s.closing && Accepted(env, h.e, op)
    requires (op.Configure? || op.Activate? || op.Cleanup?) && h.tree.Some?
    ensures var q := Entering(p, |Stack(s, t)|, Marked(env, h, op).e, Stage.Begin);
            var k := FirstCallback(op);
            && CanRun(Placed(s, t, n, p), t, Quietly(o, trace))
            && Next(Placed(s, t, n, p), Run(t, Quietly(o, trace))) == Placed(s, t, n, Visited(q, k))
            && Visited(q, k).f == p.f.(stage := Running(k)) && Visited(q, k).cell == q.cell
            && Nearby(p, Visited(q, k)) && SameKeys(p, Visited(q, k))
            && Shows(Visited(q, k), Marked(env, h, op))
  {
    hide ToStage, Placed, StartCallback, Visited, Refuses, Allowed;
    var m := Marked(env, h, op);
    var q := Entering(p, |Stack(s, t)|, m.e, Stage.Begin);
    PlacedFacts(s, t, n, p);
    var began := p.cell.(e := Entries.Begin(p.cell.e, OpOf(op), t), frame := |Stack(s, t)|);
    PlacedCell(s, t, n, p, began);
    PlacedFacts(s, t, n, p.(cell := began));
    PlacedCell(s, t, n, p.(cell := began), q.cell);
    assert Shows(q, m);
    PlacedStart(s, t, n, q, FirstCallback(op));
    VisitedStage(q, FirstCallback(op));
  }

  lemma BeginCallbackEnds(s: State, t: Tid, n: Name, p: Spot, op: Prim, env: Env, h: Held, trace: seq<Event>)
    requires AtBegin(p, t, n, op, h) && env.t == t && env.closing == s.closing && Accepted(env, h.e, op)
    requires (op.Configure? || op.Activate? || op.Cleanup?) && h.tree.Some?
    ensures Ends(s, t, n, p,
              Complete(CallBack(env, Marked(env, h, op), trace, FirstCallback(op), if op.Activate? then op.state else None), op))
  {
    hide Ends, CallBack, Visited, Next, CanRun, Placed, Refuses;
    var m := Marked(env, h, op);
    var q := Visited(Entering(p, |Stack(s, t)|, m.e, Stage.Begin), FirstCallback(op));
    BeginCallbackStep(s, t, n, p, op, env, h, env.oracle, trace);
    LastCallbackEnds(s, t, n, q, env, m, trace);
    StepEnds(s, t, n, p, Quietly(env.oracle, trace), q,
      Complete(CallBack(env, m, trace, FirstCallback(op), if op.Activate? then op.state else None), op));
  }

  lemma BeginDrainEnds(s: State, t: Tid, n: Name, p: Spot, op: Prim, env: Env, h: Held, trace: seq<Event>)
    requires AtBegin(p, t, n, op, h) && env.t == t && env.closing == s.closing && Accepted(env, h.e, op) && Coherent(h.e)
    requires (op.Deactivate? && h.tree.Some?) || op.Unload?
    requires h.e.inFlight != 0 ==> op.timed
    ensures Ends(s, t, n, p, Complete(Drained(env, Entered(env, h, op), trace, op), op))
  {
    hide ToStage, Placed, Ends, Refuses, Allowed, Drained, Complete;
    var b := Entered(env, h, op);
    var q := Entering(p, |Stack(s, t)|, b.e, Drain);
    PlacedFacts(s, t, n, p);
    PlacedCell(s, t, n, p, q.cell);
    PlacedStage(s, t, n, p.(cell := q.cell), Drain);
    DrainEnds(s, t, n, q, env, b, trace);
    StepEnds(s, t, n, p, Quietly(env.oracle, trace), q, Complete(Drained(env, b, trace, op), op));
  }

  /** Cleanup without a context raises after `_begin`. */
  lemma BeginStuckEnds(s: State, t: Tid, n: Name, p: Spot, env: Env, h: Held, trace: seq<Event>)
    requires AtBegin(p, t, n, Cleanup, h) && env.t == t && env.closing == s.closing && Accepted(env, h.e, Cleanup) && h.tree.None?
    ensures Ends(s, t, n, p, Outcome(Entered(env, h, Cleanup), trace, Raised))
  {
    hide ToStage, Placed, Ends, Refuses, Allowed;
    var b := Entered(env, h, Cleanup);
    var q := Entering(p, |Stack(s, t)|, b.e, Leaving(Raised));
    PlacedFacts(s, t, n, p);
    PlacedCell(s, t, n, p, q.cell);
    PlacedStage(s, t, n, p.(cell := q.cell), Leaving(Raised));
    ArrivedEnds(s, t, n, q, Outcome(b, trace, Raised));
    StepEnds(s, t, n, p, Quietly(env.oracle, trace), q, Outcome(b, trace, Raised));
  }

  // ---------------------------------------------------------------------- load

  function Named(env: Env, h: Held, op: Prim): Entry
    requires op.Load?
  {
    var e := Entered(env, h, op).e;
    if op.component.Some? then e.(component := op.component.value) else e
  }

  lemma BeginLoadStep(s: State, t: Tid, n: Name, p: Spot, op: Prim, env: Env, h: Held, o: Oracle, trace: seq<Event>)
    requires AtBegin(p, t, n, op, h) && op.Load? && env.t == t && env.closing == s.closing && Accepted(env, h.e, op)
    ensures var e := Named(env, h, op);
            var q := Entering(p, |Stack(s, t)|, e, if e.component == "" then Finishing(UNLOADED, false, None) else WaitBuild);
            && CanRun(Placed(s, t, n, p), t, Quietly(o, trace))
            && Next(Placed(s, t, n, p), Run(t, Quietly(o, trace))) == Placed(s, t, n, q)
  {
    hide ToStage, Placed, Refuses, Allowed, RunBegin;
    var e := Named(env, h, op);
    var stage := if e.component == "" then Finishing(UNLOADED, false, None) else WaitBuild;
    var q := Entering(p, |Stack(s, t)|, e, stage);
    PlacedFacts(s, t, n, p);
    BegunForm(Placed(s, t, n, p), t);
    PlacedCell(s, t, n, p, q.cell);
    PlacedStage(s, t, n, p.(cell := q.cell), stage);
  }

  lemma StillFree(s: State, t: Tid, n: Name, p: Spot)
    requires BuilderFree(s, t)
    ensures BuilderFree(Placed(s, t, n, p), t)
  {
  }

  lemma WaitStep(s: State, t: Tid, n: Name, p: Spot, o: Oracle, trace: seq<Event>)
    requires p.f.PrimFrame? && p.f.name == n && p.f.stage.WaitBuild? && BuilderFree(s, t)
    ensures CanRun(Placed(s, t, n, p), t, Quietly(o, trace))
    ensures Next(Placed(s, t, n, p), Run(t, Quietly(o, trace))) == Placed(s, t, n, p.(f := p.f.(stage := Building)))
  {
    hide ToStage, Placed, BuilderFree;
    PlacedFacts(s, t, n, p);
    StillFree(s, t, n, p);
    PlacedStage(s, t, n, p, Building);
  }

  /** The builder returned. */
  function BuiltSpot(p: Spot, built: Option<Tree>): Spot
    requires p.f.PrimFrame?
  {
    if built.None? then p.(f := p.f.(stage := Finishing(ERROR, false, None)))
    else
      var e := p.cell.e.(context := Some(p.next), generation := p.cell.e.generation + 1, configured := false, mayBeActive := false);
      Spot(p.f.(stage := Finishing(UNCONFIGURED, true, None)), p.cell.(e := e, built := p.cell.built + [p.next]),
        p.contexts[p.next := Context(p.f.name, built.value, [])], p.next + 1)
  }

  lemma BuildingStep(s: State, t: Tid, n: Name, p: Spot, built: Option<Tree>, o: Oracle, trace: seq<Event>)
    requires p.f.PrimFrame? && p.f.name == n && p.f.stage.Building? && (built.Some? ==> NewTree(built.value))
    ensures var c := Choice(false, built, Outside(o, trace), false);
            && CanRun(Placed(s, t, n, p), t, c)
            && Next(Placed(s, t, n, p), Run(t, c)) == Placed(s, t, n, BuiltSpot(p, built))
  {
    hide ToStage, Placed, NewTree;
    PlacedFacts(s, t, n, p);
    PlacedStage(s, t, n, p, Finishing(ERROR, false, None));
    if built.Some? {
      var q := BuiltSpot(p, built);
      var mid := q.(f := p.f);
      PlacedCell(s, t, n, p, q.cell);
      PlacedMore(s, t, n, p.(cell := q.cell), q.contexts, q.next);
      PlacedStage(s, t, n, mid, Finishing(UNCONFIGURED, true, None));
    }
  }

  lemma PlacedMore(s: State, t: Tid, n: Name, p: Spot, contexts: map<ContextId, Context>, next: ContextId)
    ensures Placed(s, t, n, p).(contexts := contexts, next := next) == Placed(s, t, n, p.(contexts := contexts, next := next))
  {
  }

  lemma BeginLoadEnds(s: State, t: Tid, n: Name, p: Spot, op: Prim, env: Env, h: Held, trace: seq<Event>, built: Option<Tree>)
    requires AtBegin(p, t, n, op, h) && op.Load? && env.t == t && env.closing == s.closing && Accepted(env, h.e, op)
    requires BuilderFree(s, t) && (built.Some? ==> NewTree(built.value)) && p.next !in p.contexts
    ensures Ends(s, t, n, p, Operations.Build(Entered(env, h, op), trace, op.component, built, p.next))
  {
    hide Ends, Next, CanRun, Placed, Refuses, NewTree, BuilderFree;
    var b := Entered(env, h, op);
    var e := Named(env, h, op);
    var out := Operations.Build(b, trace, op.component, built, p.next);
    BeginLoadStep(s, t, n, p, op, env, h, env.oracle, trace);
    if e.component == "" {
      var q := Entering(p, |Stack(s, t)|, e, Finishing(UNLOADED, false, None));
      FinishingEnds(s, t, n, q, h.(e := e), env.oracle, trace);
      StepEnds(s, t, n, p, Quietly(env.oracle, trace), q, out);
    } else {
      var q := Entering(p, |Stack(s, t)|, e, WaitBuild);
      var q' := Entering(p, |Stack(s, t)|, e, Building);
      assert q' == q.(f := q.f.(stage := Building));
      var r := BuiltSpot(q', built);
      var loaded := e.(context := Some(p.next), generation := e.generation + 1, configured := false, mayBeActive := false);
      FinishingEnds(s, t, n, r, if built.None? then h.(e := e) else Held(loaded, built), env.oracle, trace);
      BuildingStep(s, t, n, q', built, env.oracle, trace);
      StepEnds(s, t, n, q', Choice(false, built, Outside(env.oracle, trace), false), r, out);
      WaitStep(s, t, n, q, env.oracle, trace);
      StepEnds(s, t, n, q, Quietly(env.oracle, trace), q', out);
      StepEnds(s, t, n, p, Quietly(env.oracle, trace), q, out);
    }
  }

  // ----------------------------------------------------------- the whole operation

  /** What every operation does from `_begin` on. */
  lemma BeginEnds(s: State, t: Tid, n: Name, p: Spot, op: Prim, env: Env, h: Held, trace: seq<Event>, built: Option<Tree>)
    requires AtBegin(p, t, n, op, h) && env.t == t && env.closing == s.closing && Steady(h)
    requires (op.Deactivate? || op.Unload?) && h.e.inFlight != 0 ==> op.timed
    requires op.Load? ==> BuilderFree(s, t) && (built.Some? ==> NewTree(built.value)) && p.next !in p.contexts
    requires op.Activate? ==> !(h.e.state.ACTIVE? && h.e.transition.None? && !env.closing)
    requires op.Deactivate? ==> !(h.e.state.INACTIVE? && h.e.transition.None?) && !(h.e.state.ERROR? && !h.e.mayBeActive)
    requires op.Cleanup? ==> !h.e.mayBeActive
    ensures Ends(s, t, n, p, Operate(env, h, trace, op, built, p.next))
  {
    hide Ends, Placed, Refuses, NewTree, BuilderFree, CallBack, WellFormed, Owing, Counted, StopFirst, ThenCleanUp, ThenClose;
    if !Accepted(env, h.e, op) {
      BeginRefused(s, t, n, p, op, env, h, trace);
      TimedAlike(env, h.e, op);
    } else {
      NeedsContext(env, h, op);
      match op {
        case Load(_) => BeginLoadEnds(s, t, n, p, op, env, h, trace, built);
        case Configure => BeginCallbackEnds(s, t, n, p, op, env, h, trace);
        case Activate(_) => BeginCallbackEnds(s, t, n, p, op, env, h, trace);
        case Cleanup =>
          if h.tree.None? {
            BeginStuckEnds(s, t, n, p, env, h, trace);
          } else {
            BeginCallbackEnds(s, t, n, p, op, env, h, trace);
          }
        case _ =>
          BeginDrainEnds(s, t, n, p, op, env, h, trace);
          TimedOrNot(env, h, trace, op);
      }
    }
  }

  /** Whether a drain is timed changes nothing once it has ended. */
  lemma TimedOrNot(env: Env, h: Held, trace: seq<Event>, op: Prim)
    requires Steady(h) && Accepted(env, h.e, op) && (op.Deactivate? || op.Unload?)
    requires op.Deactivate? ==> !(h.e.state.INACTIVE? && h.e.transition.None?) && !(h.e.state.ERROR? && !h.e.mayBeActive) && h.tree.Some?
    ensures Complete(Drained(env, Entered(env, h, op), trace, op), op)
         == if op.Deactivate? then DeactivateOp(env, h, trace) else UnloadOp(env, h, trace)
  {
    hide CallBack, WellFormed, Owing, Counted, StopFirst, ThenCleanUp, ThenClose;
    TimedAlike(env, h.e, op);
  }

  /** The outcome of an operation that ends with its first checks. */
  lemma CheckedOutcome(env: Env, h: Held, trace: seq<Event>, op: Prim, id: ContextId)
    requires Steady(h)
    ensures var out := Operate(env, h, trace, op, None, id);
            && (op.Activate? && h.e.state.ACTIVE? && h.e.transition.None? && !env.closing ==> out == Outcome(h, trace, Ret(true, None)))
            && (op.Deactivate? && h.e.state.INACTIVE? && h.e.transition.None? ==> out == Outcome(h, trace, Ret(true, None)))
            && ((op.Deactivate? && h.e.state.ERROR? && !h.e.mayBeActive) || (op.Cleanup? && h.e.mayBeActive) ==> out == Refusal(h, trace))
  {
    hide Steady, Refuses, Halted, CallBack;
  }

  /** The checks before `_begin`. */
  lemma CheckEnds(s: State, t: Tid, n: Name, p: Spot, op: Prim, env: Env, h: Held, trace: seq<Event>)
    requires p.f == PrimFrame(op, n, Check) && p.cell.owner == Some(t) && Shows(p, h) && Steady(h)
    requires env.t == t && env.closing == s.closing && (op.Activate? || op.Deactivate? || op.Cleanup?)
    requires op.Deactivate? && h.e.inFlight != 0 ==> op.timed
    ensures Ends(s, t, n, p, Operate(env, h, trace, op, None, p.next))
  {
    hide Ends, Placed, ToStage, Steady, Operate, Refuses;
    var out := Operate(env, h, trace, op, None, p.next);
    CheckedOutcome(env, h, trace, op, p.next);
    PlacedFacts(s, t, n, p);
    var quiet := Quietly(env.oracle, trace);
    if (op.Activate? && h.e.state.ACTIVE? && h.e.transition.None? && !env.closing)
      || (op.Deactivate? && h.e.state.INACTIVE? && h.e.transition.None?) {
      var q := p.(f := p.f.(stage := Leaving(Ret(true, None))));
      PlacedStage(s, t, n, p, Leaving(Ret(true, None)));
      ArrivedEnds(s, t, n, q, out);
      StepEnds(s, t, n, p, quiet, q, out);
    } else if (op.Deactivate? && h.e.state.ERROR? && !h.e.mayBeActive) || (op.Cleanup? && h.e.mayBeActive) {
      var cell := p.cell.(e := Reject(p.cell.e));
      PlacedCell(s, t, n, p, cell);
      PlacedStage(s, t, n, p.(cell := cell), Leaving(Ret(false, None)));
      var q := p.(cell := cell, f := p.f.(stage := Leaving(Ret(false, None))));
      ArrivedEnds(s, t, n, q, out);
      StepEnds(s, t, n, p, quiet, q, out);
    } else {
      var q := p.(f := p.f.(stage := Stage.Begin));
      PlacedStage(s, t, n, p, Stage.Begin);
      BeginEnds(s, t, n, q, op, env, h, trace, None);
      StepEnds(s, t, n, p, quiet, q, out);
    }
  }

  /** The entry and the tree of its context, as the protocol holds them. */
  function HeldNow(s: State, n: Name): Held
    requires n in s.cells
  {
    var id := s.cells[n].e.context;
    Held(s.cells[n].e, if id.Some? && id.value in s.contexts then Some(s.contexts[id.value].tree) else None)
  }

  lemma HeldIsSteady(s: State, n: Name)
    requires Inv(s) && n in s.cells
    ensures Steady(HeldNow(s, n)) && Shows(Spot(PrimFrame(Configure, n, Lookup), s.cells[n], s.contexts, s.next), HeldNow(s, n))
  {
    hide CellOk, FrameOk, Trajectory;
    CellOf(s, n);
    CellFacts(s, n);
  }

  function AfterLock(op: Prim): Stage {
    if op.Activate? || op.Deactivate? || op.Cleanup? then Check else Stage.Begin
  }

  /** Taking a lock that is free or the thread's own. */
  lemma AcquireStep(s: State, t: Tid, n: Name, p: Spot, o: Oracle, trace: seq<Event>)
    requires p.f.PrimFrame? && p.f.name == n && p.f.stage.Acquire? && (p.cell.owner.None? || p.cell.owner == Some(t))
    ensures var q := p.(cell := p.cell.(owner := Some(t)), f := p.f.(stage := AfterLock(p.f.op)));
            && CanRun(Placed(s, t, n, p), t, Quietly(o, trace))
            && Next(Placed(s, t, n, p), Run(t, Quietly(o, trace))) == Placed(s, t, n, q)
  {
    hide ToStage, Placed;
    var cell := p.cell.(owner := Some(t));
    PlacedFacts(s, t, n, p);
    PlacedCell(s, t, n, p, cell);
    PlacedStage(s, t, n, p.(cell := cell), AfterLock(p.f.op));
  }

  /** From the operation's lock on. */
  lemma AcquireEnds(s: State, t: Tid, n: Name, p: Spot, op: Prim, env: Env, h: Held, trace: seq<Event>, built: Option<Tree>)
    requires p.f == PrimFrame(op, n, Acquire) && (p.cell.owner.None? || p.cell.owner == Some(t)) && Shows(p, h) && Steady(h)
    requires env.t == t && env.closing == s.closing
    requires (op.Deactivate? || op.Unload?) && h.e.inFlight != 0 ==> op.timed
    requires op.Load? ==> BuilderFree(s, t) && (built.Some? ==> NewTree(built.value)) && p.next !in p.contexts
    ensures Ends(s, t, n, p, Operate(env, h, trace, op, built, p.next))
  {
    hide Ends, Placed, Steady, BuilderFree, NewTree, LoadOp, ConfigureOp, ActivateOp, DeactivateOp, CleanupOp, UnloadOp, Next, CanRun;
    var out := Operate(env, h, trace, op, built, p.next);
    var stage := AfterLock(op);
    var q := p.(cell := p.cell.(owner := Some(t)), f := p.f.(stage := stage));
    AcquireStep(s, t, n, p, env.oracle, trace);
    if stage.Check? {
      CheckEnds(s, t, n, q, op, env, h, trace);
    } else {
      BeginEnds(s, t, n, q, op, env, h, trace, built);
    }
    StepEnds(s, t, n, p, Quietly(env.oracle, trace), q, out);
  }

  /**
   * A thread that is idle or inside a callback, and runs one operation on an entry
   * whose lock is free or its own, while no other thread steps, can come to the point
   * of returning exactly the result of the sequential operation, with exactly its entry
   * and its tree. Nothing else has changed.
   */
  lemma OperationIsRun(s: State, t: Tid, n: Name, op: Prim, o: Oracle, trace: seq<Event>, built: Option<Tree>)
    requires Inv(s) && MayCall(Stack(s, t)) && n in s.cells && (s.cells[n].owner.None? || s.cells[n].owner == Some(t))
    requires (op.Deactivate? || op.Unload?) && s.cells[n].e.inFlight != 0 ==> op.timed
    requires op.Load? ==> !Blank(n) && !s.closing && BuilderFree(s, t) && (built.Some? ==> NewTree(built.value))
    ensures Steady(HeldNow(s, n))
    ensures var out := Operate(Env(t, s.closing, o), HeldNow(s, n), trace, op, built, s.next);
            exists q: Spot ::
              && q.f == PrimFrame(op, n, Leaving(out.ret)) && q.cell.owner == Some(t) && Shows(q, out.held)
              && (forall c | c in s.contexts && s.cells[n].e.context != Some(c) :: c in q.contexts && q.contexts[c] == s.contexts[c])
              && Reaches(s, t, Placed(s, t, n, q))
  {
    hide Inv, Steady, BuilderFree, NewTree, Reaches, LoadOp, ConfigureOp, ActivateOp, DeactivateOp, CleanupOp, UnloadOp, Shows, Next;
    HeldIsSteady(s, n);
    NextIsFresh(s);
    var h := HeldNow(s, n);
    var out := Operate(Env(t, s.closing, o), h, trace, op, built, s.next);
    var p0 := Spot(PrimFrame(op, n, Lookup), s.cells[n], s.contexts, s.next);
    var p1 := p0.(f := PrimFrame(op, n, Acquire));
    ShowsAnyway(Spot(PrimFrame(Configure, n, Lookup), s.cells[n], s.contexts, s.next), p1, h);
    AcquireEnds(s, t, n, p1, op, Env(t, s.closing, o), h, trace, built);
    var q: Spot :|
      && q.f == p1.f.(stage := Leaving(out.ret)) && q.cell.owner == Some(t) && Shows(q, out.held) && Nearby(p1, q)
      && Reaches(Placed(s, t, n, p1), t, Placed(s, t, n, q));
    LookupStep(s, t, n, p0, o, trace);
    PlacedFacts(s, t, n, p0);
    StepThen(Placed(s, t, n, p0), t, Run(t, Quietly(o, trace)), Placed(s, t, n, p1), Placed(s, t, n, q));
    StartStep(s, t, n, op);
    StepThen(s, t, StartOp(t, PrimFrame(op, n, Lookup)), Placed(s, t, n, p0), Placed(s, t, n, q));
  }

  lemma ShowsAnyway(p: Spot, q: Spot, h: Held)
    requires Shows(p, h) && q == p.(f := q.f)
    ensures Shows(q, h)
  {
  }

  lemma LookupStep(s: State, t: Tid, n: Name, p: Spot, o: Oracle, trace: seq<Event>)
    requires p.f.PrimFrame? && p.f.name == n && p.f.stage.Lookup? && (p.f.op.Load? ==> !Blank(n) && !s.closing)
    ensures Enabled(Placed(s, t, n, p), Run(t, Quietly(o, trace)))
    ensures Next(Placed(s, t, n, p), Run(t, Quietly(o, trace))) == Placed(s, t, n, p.(f := p.f.(stage := Acquire)))
  {
    hide ToStage, Placed, Blank;
    PlacedFacts(s, t, n, p);
    PlacedStage(s, t, n, p, Acquire);
  }

  lemma StartStep(s: State, t: Tid, n: Name, op: Prim)
    requires MayCall(Stack(s, t)) && n in s.cells
    ensures var a := StartOp(t, PrimFrame(op, n, Lookup));
            Enabled(s, a) && Next(s, a) == Placed(s, t, n, Spot(PrimFrame(op, n, Lookup), s.cells[n], s.contexts, s.next))
  {
    assert s.cells[n := s.cells[n]] == s.cells;
  }
}
