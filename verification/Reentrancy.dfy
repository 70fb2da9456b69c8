/**
 * Why the callbacks of a switch must leave its entries alone: a target callback that
 * activates the source again, which its thread's own locks allow, leaves both open.
 */
module Reentrancy {
  import opened Lifecycle
  import opened Plugins
  import opened ContextTree
  import opened StopTheorems
  import opened Names
  import opened Entries
  import opened Protocol
  import opened Invariant
  import opened Calls
  import opened PrimSteps
  import opened AllSteps
  import opened Operations
  import opened Runs
  import opened Undisturbed
  import opened Staging
  import StartTheorems

  lemma {:induction false} NothingFails(trace: seq<Event>, t: Tree, state: Option<Value>)
    requires AllNative(t) && RootAccepts(t, state)
    ensures ActivateTree(OBLIGING, trace, t, state).error.None?
    decreases t, 1
  {
    NoKidFails(trace, t.kids);
  }

  lemma {:induction false} NoKidFails(trace: seq<Event>, kids: seq<Tree>)
    requires AllNativeKids(kids)
    ensures ActivateKids(OBLIGING, trace, kids).error.None?
    decreases kids, 0
  {
    if kids != [] {
      StartTheorems.OwingHead(kids);
      NothingFails(trace, kids[0], None);
      NoKidFails(ActivateTree(OBLIGING, trace, kids[0], None).trace, kids[1..]);
    }
  }

  /** An undisturbed activation in which nothing fails opens the gate. */
  lemma ActivationOpens(env: Env, h: Held, trace: seq<Event>, state: Option<Value>, id: ContextId)
    requires Steady(h) && Accepted(env, h.e, Activate(state)) && env.oracle == OBLIGING
    requires h.tree.Some? && AllNative(h.tree.value) && RootAccepts(h.tree.value, state)
    ensures var out := Operate(env, h, trace, Activate(state), None, id);
            out.ret == Ret(true, None) && out.held.e.gate && out.held.e.state.ACTIVE?
  {
    hide Counted, WellFormed, Owing, ActivateTree, AllNative, Refuses;
    NothingFails(trace, h.tree.value, state);
    StateOfAccepted(env, h, state);
  }

  lemma StateOfAccepted(env: Env, h: Held, state: Option<Value>)
    requires Accepted(env, h.e, Activate(state))
    ensures h.e.state.INACTIVE?
  {
  }

  predicate Switches(f: Frame, a: Name, b: Name) {
    f.SwitchFrame? && f.source == a && f.target == b
  }

  /** The thread runs the target's activation for a switch, and the source has stopped. */
  predicate Exposed(s: State, t: Tid, a: Name, b: Name) {
    && |Stack(s, t)| == 2 && a != b && a in s.cells && b in s.cells && !s.closing
    && Switches(Stack(s, t)[0], a, b) && Stack(s, t)[0].sw.SStarting?
    && Stack(s, t)[1].PrimFrame? && Stack(s, t)[1].op.Activate? && Stack(s, t)[1].name == b
    && Stack(s, t)[1].stage == Running(Activating)
    && s.cells[a].owner == Some(t) && s.cells[b].owner == Some(t)
    && s.cells[a].e.state.INACTIVE? && s.cells[a].e.transition.None? && Calling(s.cells[a].e, t) == 0
    && HeldNow(s, a).tree.Some? && AllNative(HeldNow(s, a).tree.value)
    && HeldNow(s, b).tree.Some? && AllNative(HeldNow(s, b).tree.value)
    && RootAccepts(HeldNow(s, b).tree.value, Stack(s, t)[1].op.state)
  }

  lemma DifferentContexts(s: State, a: Name, b: Name)
    requires Inv(s) && a in s.cells && b in s.cells && a != b && s.cells[b].e.context.Some?
    ensures s.cells[a].e.context != s.cells[b].e.context
  {
    hide CellOk, FrameOk, Trajectory;
    CellOf(s, a);
    CellFacts(s, a);
    CellOf(s, b);
    CellFacts(s, b);
  }

  /** The source is open again, and the target's callback is still running. */
  ghost predicate Reopened(s: State, s': State, t: Tid, a: Name, b: Name)
    requires b in s.cells
  {
    && Stack(s', t) == Stack(s, t) && a in s'.cells && s'.cells[a].e.gate
    && b in s'.cells && s'.cells[b] == s.cells[b] && HeldNow(s', b) == HeldNow(s, b)
  }

  /** The callback of the target activates the source. */
  lemma ReopensSource(s: State, t: Tid, a: Name, b: Name)
    requires Inv(s) && Exposed(s, t, a, b)
    ensures exists s': State :: Leads(s, s') && Reopened(s, s', t, a, b)
  {
    hide Inv, Leads, Reaches, Placed, Operate, Return, Unwind, AllNative, ReleaseLock, HeldIn;
    var op := Activate(None);
    var env := Env(t, s.closing, OBLIGING);
    var h := HeldNow(s, a);
    OperationIsRun(s, t, a, op, OBLIGING, [], None);
    ActivationOpens(env, h, [], None, s.next);
    var out := Operate(env, h, [], op, None, s.next);
    var q: Spot :|
      && q.f == PrimFrame(op, a, Leaving(out.ret)) && q.cell.owner == Some(t) && Shows(q, out.held)
      && (forall c | c in s.contexts && s.cells[a].e.context != Some(c) :: c in q.contexts && q.contexts[c] == s.contexts[c])
      && Reaches(s, t, Placed(s, t, a, q));
    var s1 := Placed(s, t, a, q);
    AloneLeads(s, t, s1);
    PlacedFacts(s, t, a, q);
    Returns(s1, t, q.f);
    LeadsOn(s, s1, Return(s1, t, out.ret));
    ReturnStacks(s1, t, out.ret, t);
    Unwound(Stack(s, t), q.f, out.ret);
    ReturnCells(s1, t, out.ret, a);
    DifferentContexts(s, a, b);
    ReturnElsewhere(s, t, a, b, q, out.ret);
  }

  /** Returning from an operation on one entry leaves the other one alone. */
  lemma ReturnElsewhere(s: State, t: Tid, a: Name, b: Name, q: Spot, r: Ret)
    requires a != b && b in s.cells && q.f.PrimFrame? && q.f.name == a && HeldNow(s, b).tree.Some?
    requires forall c | c in s.contexts && Some(c) == s.cells[b].e.context :: c in q.contexts && q.contexts[c] == s.contexts[c]
    ensures var s1 := Placed(s, t, a, q);
            && Stack(s1, t) != []
            && var s' := Return(s1, t, r);
               b in s'.cells && s'.cells[b] == s.cells[b] && HeldNow(s', b) == HeldNow(s, b)
  {
    hide HeldIn, Unwind;
    PlacedFacts(s, t, a, q);
  }

  lemma Unwound(below: seq<Frame>, f: Frame, r: Ret)
    requires below != [] && below[|below| - 1].PrimFrame?
    ensures Unwind(below + [f], r) == below
  {
    assert (below + [f])[..|below|] == below;
    ResumeHolds(below[|below| - 1], r, "");
  }

  /** The state without the innermost activation of `t`. */
  function Below(s: State, t: Tid): State
    requires Stack(s, t) != []
  {
    s.(stacks := s.stacks[t := Stack(s, t)[..|Stack(s, t)| - 1]])
  }

  lemma TopPlaced(s: State, t: Tid, b: Name)
    requires Stack(s, t) != [] && Top(s, t).PrimFrame? && Top(s, t).name == b && b in s.cells
    ensures Placed(Below(s, t), t, b, Spot(Top(s, t), s.cells[b], s.contexts, s.next)) == s
  {
    var stack := Stack(s, t);
    assert stack[..|stack| - 1] + [Top(s, t)] == stack;
    assert s.stacks[t := stack[..|stack| - 1]][t := stack] == s.stacks;
    assert s.cells[b := s.cells[b]] == s.cells;
  }

  /**
   * When an operation nested in a switch's own callback acts on its entries, the
   * switch can end with both gates open: from every reachable state in which the source of a
   * switch has stopped and the target's activation callback is running, in trees
   * without adapted components, some run of the same thread leads to a successful
   * switch whose source is open again.
   */
  lemma SwitchMayLeaveBothOpen(run: seq<Action>, t: Tid, a: Name, b: Name)
    requires Protocol.Legal(Init, run) && Exposed(After(Init, run), t, a, b)
    ensures exists s': State ::
              && Leads(After(Init, run), s') && |Stack(s', t)| == 1 && Switches(Stack(s', t)[0], a, b)
              && Stack(s', t)[0].sw == SLeaving(Ret(true, None), Stopped)
              && a in s'.cells && b in s'.cells && s'.cells[a].e.gate && s'.cells[b].e.gate
  {
    hide Inv, After, Protocol.Legal, Leads, Reaches, Placed, CallBack, Return, Unwind, AllNative, Exposed, HeldNow, Undisturbed.Ends, Complete;
    Reachable(run);
    var s := After(Init, run);
    ExposedFacts(s, t, a, b);
    ReopensSource(s, t, a, b);
    var s1: State :| Leads(s, s1) && Reopened(s, s1, t, a, b);
    var base := Below(s1, t);
    var p := Spot(Top(s1, t), s1.cells[b], s1.contexts, s1.next);
    TopPlaced(s1, t, b);
    var h := HeldNow(s1, b);
    var env := Env(t, false, OBLIGING);
    HeldShows(s1, b, p);
    LastCallbackEnds(base, t, b, p, env, h, []);
    var out := Complete(CallBack(env, h, [], Activating, p.f.op.state), p.f.op);
    CallbackOpens(env, h, p.f.op);
    EndsOpen(base, t, a, b, p, out);
    var s2: State :|
      && Leads(s1, s2) && |Stack(s2, t)| == 1 && Switches(Stack(s2, t)[0], a, b)
      && Stack(s2, t)[0].sw == SLeaving(Ret(true, None), Stopped)
      && a in s2.cells && b in s2.cells && s2.cells[a].e.gate && s2.cells[b].e.gate;
    LeadsOn(s, s1, s2);
  }

  lemma ExposedFacts(s: State, t: Tid, a: Name, b: Name)
    requires Exposed(s, t, a, b)
    ensures |Stack(s, t)| == 2 && Switches(Stack(s, t)[0], a, b) && Stack(s, t)[0].sw.SStarting? && a != b && a in s.cells && b in s.cells
    ensures Top(s, t).PrimFrame? && Top(s, t).op.Activate? && Top(s, t).name == b && Top(s, t).stage == Running(Activating)
    ensures s.cells[b].owner == Some(t)
    ensures var h := HeldNow(s, b); h.tree.Some? && AllNative(h.tree.value) && RootAccepts(h.tree.value, Top(s, t).op.state)
  {
  }

  lemma HeldShows(s: State, b: Name, p: Spot)
    requires b in s.cells && p.cell == s.cells[b] && p.contexts == s.contexts && HeldNow(s, b).tree.Some?
    ensures Shows(p, HeldNow(s, b))
  {
  }

  lemma CallbackOpens(env: Env, h: Held, op: Prim)
    requires op.Activate? && h.tree.Some? && AllNative(h.tree.value) && RootAccepts(h.tree.value, op.state) && env.oracle == OBLIGING
    ensures var out := Complete(CallBack(env, h, [], Activating, op.state), op);
            out.ret == Ret(true, None) && out.held.e.gate
  {
    hide ActivateTree, AllNative;
    NothingFails([], h.tree.value, op.state);
  }

  /** The target's operation ends, and the switch resumes. */
  lemma EndsOpen(base: State, t: Tid, a: Name, b: Name, p: Spot, out: Outcome)
    requires p.f.PrimFrame? && p.f.name == b && Undisturbed.Ends(base, t, b, p, out) && out.ret == Ret(true, None) && out.held.e.gate
    requires |Stack(base, t)| == 1 && Switches(Stack(base, t)[0], a, b) && Stack(base, t)[0].sw.SStarting?
    requires a != b && a in base.cells && base.cells[a].e.gate
    ensures exists s': State ::
              && Leads(Placed(base, t, b, p), s') && |Stack(s', t)| == 1 && Switches(Stack(s', t)[0], a, b)
              && Stack(s', t)[0].sw == SLeaving(Ret(true, None), Stopped)
              && a in s'.cells && b in s'.cells && s'.cells[a].e.gate && s'.cells[b].e.gate
  {
    hide Leads, Reaches, Placed, Return, Unwind;
    var q: Spot :|
      && q.f == p.f.(stage := Leaving(out.ret)) && q.cell.owner == Some(t) && Shows(q, out.held) && Nearby(p, q)
      && Reaches(Placed(base, t, b, p), t, Placed(base, t, b, q));
    var s1 := Placed(base, t, b, q);
    AloneLeads(Placed(base, t, b, p), t, s1);
    PlacedFacts(base, t, b, q);
    PlacedOther(base, t, b, q, a);
    Returns(s1, t, q.f);
    var s2 := Return(s1, t, out.ret);
    LeadsOn(Placed(base, t, b, p), s1, s2);
    ReturnStacks(s1, t, out.ret, t);
    SwitchResumes(Stack(base, t)[0], q.f);
    assert Stack(s1, t) == [Stack(base, t)[0], q.f];
    ReturnCells(s1, t, out.ret, a);
    ReturnCells(s1, t, out.ret, b);
  }

  lemma PlacedOther(s: State, t: Tid, n: Name, p: Spot, m: Name)
    requires m != n && m in s.cells
    ensures m in Placed(s, t, n, p).cells && Placed(s, t, n, p).cells[m] == s.cells[m]
  {
  }

  lemma SwitchResumes(f: Frame, child: Frame)
    requires f.SwitchFrame? && f.sw.SStarting?
    ensures Unwind([f, child], Ret(true, None)) == [f.(sw := SLeaving(Ret(true, None), Stopped))]
  {
    assert [f, child][..1] == [f];
  }
}
