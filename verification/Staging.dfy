/** Whole operations as parts of runs: one thread works while the others rest. */
module Staging {
  import opened Lifecycle
  import opened Plugins
  import opened ContextTree
  import opened StopTheorems
  import opened Names
  import opened Entries
  import opened Protocol
  import opened Invariant
  import opened Calls
  import opened PrimSteps
  import opened AllSteps
  import opened Operations
  import opened Runs
  import opened Undisturbed

  /** Foreign code in which nothing fails. */
  const OBLIGING: Oracle := (_, _) => GaveCallback(true)

  lemma {:induction false} LeadsKeeps(s: State, s': State)
    requires Inv(s) && Leads(s, s')
    ensures Inv(s')
  {
    hide Inv;
    var run: seq<Action> :| Protocol.Legal(s, run) && After(s, run) == s';
    RunsKeep(s, run);
  }

  /** A run leads from `s` to `s'`, in which entry `n` is as `held` says and all others are as before. */
  ghost predicate Worked(s: State, s': State, t: Tid, n: Name, held: Held) {
    && Leads(s, s') && s'.closing == s.closing
    && (forall u | u != t :: Stack(s', u) == Stack(s, u))
    && n in s'.cells && HeldNow(s', n) == held
    && (forall m | m in s.cells && m != n :: m in s'.cells && s'.cells[m] == s.cells[m] && HeldNow(s', m) == HeldNow(s, m))
    && (forall m | m in s'.cells :: m in s.cells || m == n)
  }

  lemma WorkedOn(a: State, b: State, c: State, t: Tid, n: Name, h: Held, held: Held)
    requires Worked(a, b, t, n, h) && Worked(b, c, t, n, held)
    ensures Worked(a, c, t, n, held)
  {
    hide Leads;
    LeadsOn(a, b, c);
  }

  /** No other entry uses the context of `n`. */
  predicate OwnContext(s: State, n: Name)
    requires n in s.cells
  {
    forall m | m in s.cells && m != n && s.cells[m].e.context.Some? ::
      s.cells[m].e.context != s.cells[n].e.context && s.cells[m].e.context.value in s.contexts
  }

  lemma ContextsAreOwn(s: State, n: Name)
    requires Inv(s) && n in s.cells
    ensures OwnContext(s, n)
  {
    hide Inv, CellOk;
    CellOf(s, n);
    CellFacts(s, n);
    forall m | m in s.cells && m != n && s.cells[m].e.context.Some?
      ensures s.cells[m].e.context != s.cells[n].e.context && s.cells[m].e.context.value in s.contexts
    {
      CellOf(s, m);
      CellFacts(s, m);
    }
  }

  /** An operation that is about to return does so. */
  lemma Returns(s: State, t: Tid, f: Frame)
    requires Stack(s, t) != [] && Top(s, t) == f && f.PrimFrame? && f.stage.Leaving? && f.name in s.cells
    ensures Leads(s, Return(s, t, f.stage.ret))
  {
    hide Return, Leads;
    var c := Quietly(OBLIGING, []);
    assert Enabled(s, Run(t, c)) && Next(s, Run(t, c)) == Return(s, t, f.stage.ret);
    OneStep(s, Run(t, c));
  }

  /** What the thread has above it once the operation has returned. */
  function Resumed(below: seq<Frame>, r: Ret): seq<Frame> {
    if below == [] then [] else below[|below| - 1 := Resume(below[|below| - 1], r)]
  }

  lemma UnwindPushed(below: seq<Frame>, f: Frame, r: Ret)
    ensures Unwind(below + [f], r) == Resumed(below, r)
  {
    assert (below + [f])[..|below|] == below;
  }

  /** An operation that ends so from `p` on has worked on its entry only. */
  lemma EndsWork(s: State, base: State, t: Tid, n: Name, p: Spot, out: Outcome) returns (s': State)
    requires p.f.PrimFrame? && p.f.name == n && n in base.cells && Undisturbed.Ends(base, t, n, p, out)
    requires p.contexts == base.contexts && p.cell.e.context == base.cells[n].e.context && OwnContext(base, n)
    requires Leads(s, Placed(base, t, n, p))
    ensures Leads(s, s') && s'.closing == base.closing && n in s'.cells && HeldNow(s', n) == out.held
    ensures forall u :: Stack(s', u) == if u == t then Resumed(Stack(base, t), out.ret) else Stack(base, u)
    ensures forall m | m in base.cells && m != n ::
              m in s'.cells && s'.cells[m] == base.cells[m] && HeldNow(s', m) == HeldNow(base, m)
    ensures forall m | m in s'.cells :: m in base.cells
    ensures Stack(base, t) == [] ==> s'.cells[n].owner.None?
    ensures HeldIn(Resumed(Stack(base, t), out.ret), n) ==> s'.cells[n].owner == Some(t)
  {
    hide Leads, Reaches, Placed, Return, Unwind, HeldIn, OwnContext;
    var q: Spot :|
      && q.f == p.f.(stage := Leaving(out.ret)) && q.cell.owner == Some(t) && Shows(q, out.held) && Nearby(p, q)
      && Reaches(Placed(base, t, n, p), t, Placed(base, t, n, q));
    var s1 := Placed(base, t, n, q);
    AloneLeads(Placed(base, t, n, p), t, s1);
    PlacedFacts(base, t, n, q);
    Returns(s1, t, q.f);
    s' := Return(s1, t, out.ret);
    LeadsOn(s, Placed(base, t, n, p), s1);
    LeadsOn(s, s1, s');
    ReturnSame(s1, t, out.ret);
    UnwindPushed(Stack(base, t), q.f, out.ret);
    forall u ensures Stack(s', u) == if u == t then Resumed(Stack(base, t), out.ret) else Stack(base, u) {
      ReturnStacks(s1, t, out.ret, u);
      PlacedStacks(base, t, n, q, u);
    }
    ReturnCells(s1, t, out.ret, n);
    NotHeld(n);
    assert Holds(Top(s1, t), n);
    forall m ensures m in s'.cells <==> m in base.cells
      ensures m in base.cells && m != n ==> s'.cells[m] == base.cells[m] && HeldNow(s', m) == HeldNow(base, m)
    {
      ReturnCells(s1, t, out.ret, m);
      PlacedCells(base, t, n, q, m);
      if m in base.cells && m != n {
        ReturnOther(s1, t, out.ret, n, m);
        OtherHeldNow(base, s', n, p, q, m);
      }
    }
  }

  lemma NotHeld(n: Name)
    ensures !HeldIn([], n)
  {
  }

  lemma PlacedStacks(s: State, t: Tid, n: Name, p: Spot, u: Tid)
    ensures Stack(Placed(s, t, n, p), u) == if u == t then Stack(s, t) + [p.f] else Stack(s, u)
  {
  }

  lemma PlacedCells(s: State, t: Tid, n: Name, p: Spot, m: Name)
    ensures m in Placed(s, t, n, p).cells <==> m in s.cells || m == n
    ensures m in s.cells && m != n ==> Placed(s, t, n, p).cells[m] == s.cells[m]
  {
  }

  lemma ReturnOther(s: State, t: Tid, r: Ret, n: Name, m: Name)
    requires Stack(s, t) != [] && Top(s, t).PrimFrame? && Top(s, t).name == n && m in s.cells && m != n
    ensures m in Return(s, t, r).cells && Return(s, t, r).cells[m] == s.cells[m]
  {
    hide HeldIn, Unwind;
  }

  lemma OtherHeldNow(base: State, s': State, n: Name, p: Spot, q: Spot, m: Name)
    requires n in base.cells && m in base.cells && m != n && OwnContext(base, n) && Nearby(p, q)
    requires p.contexts == base.contexts && p.cell.e.context == base.cells[n].e.context
    requires m in s'.cells && s'.cells[m] == base.cells[m] && s'.contexts == q.contexts
    ensures HeldNow(s', m) == HeldNow(base, m)
  {
  }

  // --------------------------------------------------------- operations of idle threads

  ghost predicate AllIdle(s: State) {
    forall u :: Stack(s, u) == []
  }

  lemma IdleBuilders(s: State, t: Tid)
    requires AllIdle(s)
    ensures BuilderFree(s, t)
  {
    forall u | u in s.stacks ensures s.stacks[u] == [] {
      assert Stack(s, u) == [];
    }
  }

  /** An idle thread performs one operation on a free entry. */
  lemma Performs(s: State, t: Tid, n: Name, op: Prim, o: Oracle, built: Option<Tree>) returns (s': State)
    requires Inv(s) && AllIdle(s) && n in s.cells && s.cells[n].owner.None?
    requires (op.Deactivate? || op.Unload?) && s.cells[n].e.inFlight != 0 ==> op.timed
    requires op.Load? ==> !Blank(n) && !s.closing && (built.Some? ==> NewTree(built.value))
    ensures Steady(HeldNow(s, n))
    ensures Worked(s, s', t, n, Operate(Env(t, s.closing, o), HeldNow(s, n), [], op, built, s.next).held)
    ensures Inv(s') && AllIdle(s') && s'.cells[n].owner.None?
  {
    hide Inv, Steady, Leads, Placed, Operate, NewTree, BuilderFree, Undisturbed.Ends, Enabled, Next, Resumed, OwnContext;
    HeldIsSteady(s, n);
    NextIsFresh(s);
    IdleBuilders(s, t);
    ContextsAreOwn(s, n);
    var h := HeldNow(s, n);
    var p0 := Spot(PrimFrame(op, n, Lookup), s.cells[n], s.contexts, s.next);
    var p1 := p0.(f := PrimFrame(op, n, Acquire));
    ShowsAnyway(Spot(PrimFrame(Configure, n, Lookup), s.cells[n], s.contexts, s.next), p1, h);
    AcquireEnds(s, t, n, p1, op, Env(t, s.closing, o), h, [], built);
    StartStep(s, t, n, op);
    OneStep(s, StartOp(t, PrimFrame(op, n, Lookup)));
    LookupStep(s, t, n, p0, o, []);
    PlacedFacts(s, t, n, p0);
    OneStep(Placed(s, t, n, p0), Run(t, Quietly(o, [])));
    LeadsOn(s, Placed(s, t, n, p0), Placed(s, t, n, p1));
    s' := EndsWork(s, s, t, n, p1, Operate(Env(t, s.closing, o), h, [], op, built, s.next));
    NothingResumed(Operate(Env(t, s.closing, o), h, [], op, built, s.next).ret);
    LeadsKeeps(s, s');
  }

  lemma NothingResumed(r: Ret)
    ensures Resumed([], r) == []
  {
  }

  /** An idle thread loads an entry that does not exist yet. */
  lemma Loads(s: State, t: Tid, n: Name, component: string, built: Option<Tree>) returns (s': State)
    requires Inv(s) && AllIdle(s) && n !in s.cells && !Blank(n) && !s.closing && (built.Some? ==> NewTree(built.value))
    ensures Worked(s, s', t, n, LoadOp(Env(t, false, OBLIGING), Held(NewEntry, None), [], Some(component), built, s.next).held)
    ensures Inv(s') && AllIdle(s') && s'.cells[n].owner.None?
  {
    hide Inv, Leads, Placed, LoadOp, NewTree, Undisturbed.Ends, Resumed, OwnContext, Created;
    var op := Load(Some(component));
    var p := Spot(PrimFrame(op, n, Acquire), EmptyCell, s.contexts, s.next);
    CreateKeeps(s, n);
    CreatedFacts(s, n);
    ContextsAreOwn(Created(s, n), n);
    NewEnds(s, t, n, op, built);
    Appears(s, t, n, op);
    var out := LoadOp(Env(t, false, OBLIGING), Held(NewEntry, None), [], Some(component), built, s.next);
    s' := EndsWork(s, Created(s, n), t, n, p, out);
    NothingResumed(out.ret);
    LeadsKeeps(s, s');
  }

  lemma CreatedFacts(s: State, n: Name)
    requires n !in s.cells
    ensures var c := Created(s, n);
            && n in c.cells && c.cells[n] == EmptyCell && c.contexts == s.contexts && c.closing == s.closing
            && (forall u :: Stack(c, u) == Stack(s, u))
            && (forall m | m in s.cells :: m in c.cells && c.cells[m] == s.cells[m] && HeldNow(c, m) == HeldNow(s, m))
            && (forall m | m in c.cells :: m in s.cells || m == n)
  {
  }

  lemma NewEnds(s: State, t: Tid, n: Name, op: Prim, built: Option<Tree>)
    requires Inv(s) && AllIdle(s) && n !in s.cells && !Blank(n) && !s.closing && (built.Some? ==> NewTree(built.value)) && op.Load?
    ensures var p := Spot(PrimFrame(op, n, Acquire), EmptyCell, s.contexts, s.next);
            Undisturbed.Ends(Created(s, n), t, n, p, Operate(Env(t, false, OBLIGING), Held(NewEntry, None), [], op, built, s.next))
  {
    hide Inv, NewTree, BuilderFree, Undisturbed.Ends, Operate;
    CreatedIdle(s, n);
    NextIsFresh(s);
    IdleBuilders(Created(s, n), t);
    NewIsSound();
    AcquireEnds(Created(s, n), t, n, Spot(PrimFrame(op, n, Acquire), EmptyCell, s.contexts, s.next),
      op, Env(t, false, OBLIGING), Held(NewEntry, None), [], built);
  }

  lemma CreatedIdle(s: State, n: Name)
    requires AllIdle(s)
    ensures AllIdle(Created(s, n))
  {
    forall u ensures Stack(Created(s, n), u) == [] {
      assert Stack(s, u) == [];
    }
  }

  /** A load asked of an unknown name makes an entry and asks for its lock. */
  lemma Appears(s: State, t: Tid, n: Name, op: Prim)
    requires Stack(s, t) == [] && op.Load? && n !in s.cells && !Blank(n) && !s.closing
    ensures Leads(s, Placed(Created(s, n), t, n, Spot(PrimFrame(op, n, Acquire), EmptyCell, s.contexts, s.next)))
  {
    hide Leads, Blank, Next, Enabled;
    var f := PrimFrame(op, n, Lookup);
    var p := Spot(PrimFrame(op, n, Acquire), EmptyCell, s.contexts, s.next);
    Asked(s, t, f);
    OneStep(s, StartOp(t, f));
    LooksUp(s, t, n, op);
    OneStep(Push(s, t, f), Run(t, Quietly(OBLIGING, [])));
    LeadsOn(s, Push(s, t, f), Placed(Created(s, n), t, n, p));
  }

  lemma Asked(s: State, t: Tid, f: Frame)
    requires MayCall(Stack(s, t)) && Starting(f)
    ensures Enabled(s, StartOp(t, f)) && Next(s, StartOp(t, f)) == Push(s, t, f)
  {
  }

  lemma LooksUp(s: State, t: Tid, n: Name, op: Prim)
    requires Stack(s, t) == [] && op.Load? && n !in s.cells && !Blank(n) && !s.closing
    ensures var s1 := Push(s, t, PrimFrame(op, n, Lookup));
            var a := Run(t, Quietly(OBLIGING, []));
            && Enabled(s1, a)
            && Next(s1, a) == Placed(Created(s, n), t, n, Spot(PrimFrame(op, n, Acquire), EmptyCell, s.contexts, s.next))
  {
    hide Blank;
    var f, g := PrimFrame(op, n, Lookup), PrimFrame(op, n, Acquire);
    var s1 := Push(s, t, f);
    assert Stack(s1, t) == [f];
    assert [f][0 := g] == [] + [g];
    assert Created(s, n).cells[n := EmptyCell] == Created(s, n).cells;
    assert s.stacks[t := [f]][t := [g]] == s.stacks[t := [g]];
  }
}
