/** A run from the initial state to a switch whose target callback can reopen the source. */
module SwitchRuns {
  import opened Lifecycle
  import opened Plugins
  import opened ContextTree
  import opened StopTheorems
  import opened Names
  import opened Entries
  import opened Protocol
  import opened Invariant
  import opened Calls
  import opened PrimSteps
  import opened AllSteps
  import opened Operations
  import opened Runs
  import opened Undisturbed
  import opened Staging
  import opened Witnesses
  import Reentrancy

  /** All threads but one are idle. */
  ghost predicate OthersIdle(s: State, t: Tid) {
    forall u | u != t :: Stack(s, u) == []
  }

  lemma OtherBuilders(s: State, t: Tid)
    requires OthersIdle(s, t)
    ensures BuilderFree(s, t)
  {
    forall u | u in s.stacks && u != t ensures s.stacks[u] == [] {
      assert Stack(s, u) == [];
    }
  }

  // ---------------------------------------------------------- awaited operations

  function ChildSpot(s: State, g: Frame, stage: Stage): Spot
    requires Awaits(g).Some? && Awaits(g).value.1 in s.cells
  {
    Spot(PrimFrame(Awaits(g).value.0, Awaits(g).value.1, stage), s.cells[Awaits(g).value.1], s.contexts, s.next)
  }

  lemma AwaitPlaces(s: State, t: Tid, g: Frame)
    requires |Stack(s, t)| == 1 && Awaits(g).Some? && Awaits(g).value.1 in s.cells
    ensures Await(s, t, g) == Placed(SetTop(s, t, g), t, Awaits(g).value.1, ChildSpot(s, g, Lookup))
    ensures Stack(SetTop(s, t, g), t) == [g]
  {
    var n := Awaits(g).value.1;
    assert s.cells[n := s.cells[n]] == s.cells;
    assert Stack(s, t)[0 := g] == [g];
  }

  /** The activation `g` awaits an operation; it is looked up and asks for the lock. */
  lemma ChildAsks(s: State, t: Tid, g: Frame)
    requires |Stack(s, t)| == 1 && Awaits(g).Some? && Awaits(g).value.1 in s.cells
    requires Awaits(g).value.0.Load? ==> !Blank(Awaits(g).value.1) && !s.closing
    ensures Leads(Await(s, t, g), Placed(SetTop(s, t, g), t, Awaits(g).value.1, ChildSpot(s, g, Acquire)))
  {
    hide Leads, Next, Placed, Blank;
    var n := Awaits(g).value.1;
    var base := SetTop(s, t, g);
    AwaitPlaces(s, t, g);
    LookupStep(base, t, n, ChildSpot(s, g, Lookup), OBLIGING, []);
    PlacedFacts(base, t, n, ChildSpot(s, g, Lookup));
    OneStep(Placed(base, t, n, ChildSpot(s, g, Lookup)), Run(t, Quietly(OBLIGING, [])));
  }

  /** The awaited operation runs, and the activation resumes. */
  lemma CallsAndResumes(s0: State, s: State, t: Tid, g: Frame, built: Option<Tree>) returns (s': State)
    requires Inv(s) && |Stack(s, t)| == 1 && OthersIdle(s, t) && Awaits(g).Some? && Leads(s0, Await(s, t, g))
    requires var (op, n) := Awaits(g).value;
             && n in s.cells && s.cells[n].owner == Some(t) && s.cells[n].e.inFlight == 0
             && (op.Load? ==> !Blank(n) && !s.closing && (built.Some? ==> NewTree(built.value)))
    ensures var (op, n) := Awaits(g).value;
            && Steady(HeldNow(s, n))
            && var out := Operate(Env(t, s.closing, OBLIGING), HeldNow(s, n), [], op, built, s.next);
            && Leads(s0, s') && s'.closing == s.closing && OthersIdle(s', t) && n in s'.cells && HeldNow(s', n) == out.held
            && Stack(s', t) == [Resume(g, out.ret)]
            && (forall m | m in s.cells && m != n :: m in s'.cells && s'.cells[m] == s.cells[m] && HeldNow(s', m) == HeldNow(s, m))
            && (Holds(Resume(g, out.ret), n) ==> s'.cells[n].owner == Some(t))
  {
    hide Inv, Leads, Placed, Steady, NewTree, BuilderFree, Operate, Undisturbed.Ends, Blank, Awaits, Resume, Holds, OwnContext;
    var (op, n) := Awaits(g).value;
    var base := SetTop(s, t, g);
    var h := HeldNow(s, n);
    HeldIsSteady(s, n);
    NextIsFresh(s);
    ContextsAreOwn(s, n);
    AwaitPlaces(s, t, g);
    BaseFacts(s, t, g, n);
    OtherBuilders(base, t);
    ChildAsks(s, t, g);
    var p := ChildSpot(s, g, Acquire);
    LeadsOn(s0, Await(s, t, g), Placed(base, t, n, p));
    ShowsAnyway(Spot(PrimFrame(Configure, n, Lookup), s.cells[n], s.contexts, s.next), p, h);
    AcquireEnds(base, t, n, p, op, Env(t, s.closing, OBLIGING), h, [], built);
    var out := Operate(Env(t, s.closing, OBLIGING), h, [], op, built, s.next);
    s' := EndsWork(s0, base, t, n, p, out);
    assert Resumed([g], out.ret) == [Resume(g, out.ret)];
    HeldByOne(Resume(g, out.ret), n);
  }

  lemma HeldByOne(f: Frame, n: Name)
    ensures Holds(f, n) ==> HeldIn([f], n)
  {
    hide Holds;
    if Holds(f, n) {
      assert Holds([f][0], n);
    }
  }

  lemma BaseFacts(s: State, t: Tid, g: Frame, n: Name)
    requires |Stack(s, t)| == 1 && n in s.cells && OthersIdle(s, t)
    ensures var base := SetTop(s, t, g);
            && base.cells == s.cells && base.contexts == s.contexts && base.closing == s.closing && base.next == s.next
            && OthersIdle(base, t) && (OwnContext(s, n) ==> OwnContext(base, n))
            && (forall m | m in s.cells :: HeldNow(base, m) == HeldNow(s, m))
  {
    forall u | u != t ensures Stack(SetTop(s, t, g), u) == [] {
      assert Stack(s, u) == [];
    }
  }

  // -------------------------------------------------------------- the switch itself

  function Switching(a: Name, b: Name, sw: SwitchStage): (f: Frame)
    ensures f.SwitchFrame?
  {
    SwitchFrame(a, b, false, false, sw)
  }

  /** The switch is the only activation of its thread, at stage `sw`. */
  predicate SwitchAt(s: State, t: Tid, a: Name, b: Name, sw: SwitchStage) {
    Stack(s, t) == [Switching(a, b, sw)] && a in s.cells && b in s.cells && a != b && Before(a, b)
  }

  /** The same entries, contexts and other threads; locks may differ. */
  ghost predicate Alike(s: State, s': State, t: Tid) {
    && s'.contexts == s.contexts && s'.next == s.next && s'.closing == s.closing
    && (OthersIdle(s, t) ==> OthersIdle(s', t))
    && (forall m | m in s.cells :: m in s'.cells && s'.cells[m].e == s.cells[m].e && HeldNow(s', m) == HeldNow(s, m))
  }

  lemma AlikeOn(a: State, b: State, c: State, t: Tid)
    requires Alike(a, b, t) && Alike(b, c, t)
    ensures Alike(a, c, t)
  {
    hide OthersIdle;
  }

  lemma SwitchStarts(s: State, t: Tid, a: Name, b: Name)
    requires Stack(s, t) == [] && a in s.cells && b in s.cells && a != b && Before(a, b)
    ensures var act := StartOp(t, Switching(a, b, SLookup));
            Enabled(s, act) && SwitchAt(Next(s, act), t, a, b, SLookup) && Alike(s, Next(s, act), t)
            && Next(s, act).cells == s.cells
  {
    var s' := Next(s, StartOp(t, Switching(a, b, SLookup)));
    forall u | u != t ensures Stack(s', u) == Stack(s, u) {
    }
  }

  lemma SwitchFinds(s: State, t: Tid, a: Name, b: Name, c: Choice)
    requires SwitchAt(s, t, a, b, SLookup)
    ensures var act := Run(t, c);
            Enabled(s, act) && SwitchAt(Next(s, act), t, a, b, SFirst) && Alike(s, Next(s, act), t)
            && Next(s, act).cells == s.cells
  {
    hide Before;
    SetAlike(s, s, t, Switching(a, b, SFirst));
  }

  lemma SetAlike(s: State, mid: State, t: Tid, g: Frame)
    requires |Stack(mid, t)| == 1 && Alike(s, mid, t)
    ensures Alike(s, SetTop(mid, t, g), t) && Stack(SetTop(mid, t, g), t) == [g] && SetTop(mid, t, g).cells == mid.cells
  {
    assert Stack(mid, t)[0 := g] == [g];
    forall u | u != t ensures Stack(SetTop(mid, t, g), u) == Stack(mid, u) {
    }
  }

  lemma SwitchLocks(s: State, t: Tid, a: Name, b: Name, c: Choice, first: bool)
    requires SwitchAt(s, t, a, b, if first then SFirst else SSecond)
    requires var n := if first then a else b; s.cells[n].owner.None?
    ensures var act := Run(t, c);
            var n := if first then a else b;
            && Enabled(s, act)
            && SwitchAt(Next(s, act), t, a, b, if first then SSecond else SGuard) && Alike(s, Next(s, act), t)
            && Next(s, act).cells == s.cells[n := s.cells[n].(owner := Some(t))]
  {
    hide Before;
    BeforeTotal(a, b);
    var n := if first then a else b;
    assert FirstLock(a, b) == a && SecondLock(a, b) == b;
    LockAlike(s, t, n);
    SetAlike(s, Lock(s, t, n), t, Switching(a, b, if first then SSecond else SGuard));
  }

  lemma LockAlike(s: State, t: Tid, n: Name)
    requires n in s.cells
    ensures Alike(s, Lock(s, t, n), t) && Stack(Lock(s, t, n), t) == Stack(s, t)
  {
    forall u ensures Stack(Lock(s, t, n), u) == Stack(s, u) {
    }
  }

  /** An idle thread starts a switch and takes both locks. */
  lemma TakesBoth(s: State, t: Tid, a: Name, b: Name) returns (s': State)
    requires AllIdle(s) && a in s.cells && b in s.cells && a != b && Before(a, b)
    requires s.cells[a].owner.None? && s.cells[b].owner.None?
    ensures Leads(s, s') && SwitchAt(s', t, a, b, SGuard) && Alike(s, s', t) && OthersIdle(s', t)
    ensures s'.cells[a].owner == Some(t) && s'.cells[b].owner == Some(t)
  {
    hide Leads, Alike, Next, Enabled, Before, SwitchAt;
    var c := Quietly(OBLIGING, []);
    assert Stack(s, t) == [];
    SwitchStarts(s, t, a, b);
    OneStep(s, StartOp(t, Switching(a, b, SLookup)));
    var s1 := Next(s, StartOp(t, Switching(a, b, SLookup)));
    SwitchFinds(s1, t, a, b, c);
    OneStep(s1, Run(t, c));
    var s2 := Next(s1, Run(t, c));
    SwitchLocks(s2, t, a, b, c, true);
    OneStep(s2, Run(t, c));
    var s3 := Next(s2, Run(t, c));
    SwitchLocks(s3, t, a, b, c, false);
    OneStep(s3, Run(t, c));
    s' := Next(s3, Run(t, c));
    LeadsOn(s, s1, s2);
    LeadsOn(s, s2, s3);
    LeadsOn(s, s3, s');
    AlikeOn(s, s1, s2, t);
    AlikeOn(s, s2, s3, t);
    AlikeOn(s, s3, s', t);
    IdleAlike(s, s', t);
  }

  lemma IdleAlike(s: State, s': State, t: Tid)
    requires AllIdle(s) && Alike(s, s', t)
    ensures OthersIdle(s', t)
  {
    assert OthersIdle(s, t);
  }

  /** A stage in which the switch only decides to go on. */
  lemma SwitchGoes(s: State, t: Tid, a: Name, b: Name, sw: SwitchStage, sw': SwitchStage) returns (s': State)
    requires SwitchAt(s, t, a, b, sw) && Decides(sw) && sw' == Decided(s, t, Switching(a, b, sw)) && Awaits(Switching(a, b, sw')).None?
    ensures Leads(s, s') && SwitchAt(s', t, a, b, sw') && Alike(s, s', t) && s'.cells == s.cells
  {
    hide Leads, Before, Decided, RunSwitch;
    var c := Quietly(OBLIGING, []);
    SwitchForm(s, t);
    SetAlike(s, s, t, Switching(a, b, sw'));
    assert Enabled(s, Run(t, c)) && Next(s, Run(t, c)) == RunSwitch(s, t);
    OneStep(s, Run(t, c));
    s' := RunSwitch(s, t);
  }

  /** A stage in which the switch starts an operation. */
  lemma SwitchCalls(s: State, t: Tid, a: Name, b: Name, sw: SwitchStage, g: Frame)
    requires SwitchAt(s, t, a, b, sw) && Decides(sw) && g == Switching(a, b, Decided(s, t, Switching(a, b, sw))) && Awaits(g).Some?
    ensures Leads(s, Await(s, t, g))
  {
    hide Leads, Before, Decided, RunSwitch;
    var c := Quietly(OBLIGING, []);
    SwitchForm(s, t);
    assert Enabled(s, Run(t, c)) && Next(s, Run(t, c)) == RunSwitch(s, t);
    OneStep(s, Run(t, c));
  }

  // ------------------------------------------------------------ up to the callback

  lemma StopOutcome(t: Tid, id: ContextId)
    requires Steady(Held(Witnesses.Running(id), Some(LEAF.(outstanding := true))))
    ensures var out := DeactivateOp(Env(t, false, OBLIGING), Held(Witnesses.Running(id), Some(LEAF.(outstanding := true))), []);
            out.held == Held(Configured(id), Some(LEAF)) && out.ret == Ret(true, None)
  {
  }

  /** The activation of the target comes to its callback. */
  lemma ComesToActivate(s: State, t: Tid, g: Frame, b: Name) returns (s': State)
    requires Inv(s) && |Stack(s, t)| == 1 && Awaits(g) == Some((Activate(None), b)) && b in s.cells && !s.closing
    requires s.cells[b].owner == Some(t) && s.cells[b].e.state.INACTIVE? && s.cells[b].e.transition.None? && s.cells[b].e.callers == map[]
    ensures Leads(Await(s, t, g), s') && Stack(s', t) == [g, PrimFrame(Activate(None), b, Protocol.Running(Activating))]
    ensures s'.closing == s.closing && b in s'.cells && s'.cells[b].owner == Some(t) && HeldNow(s', b).tree == HeldNow(s, b).tree
    ensures forall m | m in s.cells && m != b :: m in s'.cells && s'.cells[m] == s.cells[m] && HeldNow(s', m) == HeldNow(s, m)
  {
    hide Inv, Leads, Placed, Next, CanRun, Marked, Steady, OwnContext;
    var op := Activate(None);
    var base := SetTop(s, t, g);
    var h := HeldNow(s, b);
    var env := Env(t, s.closing, OBLIGING);
    var c := Quietly(OBLIGING, []);
    HeldIsSteady(s, b);
    ContextsAreOwn(s, b);
    InactiveIsAccepted(env, h.e);
    NeedsContext(env, h, op);
    ChildAsks(s, t, g);
    AwaitPlaces(s, t, g);
    var p := ChildSpot(s, g, Acquire);
    ShowsAnyway(Spot(PrimFrame(Configure, b, Lookup), s.cells[b], s.contexts, s.next), p, h);
    PlacedFacts(base, t, b, p);
    AcquireStep(base, t, b, p, OBLIGING, []);
    OneStep(Placed(base, t, b, p), Run(t, c));
    var q := p.(f := PrimFrame(op, b, Check), cell := p.cell.(owner := Some(t)));
    PlacedFacts(base, t, b, q);
    ChecksInactive(base, t, b, q);
    OneStep(Placed(base, t, b, q), Run(t, c));
    var r := q.(f := PrimFrame(op, b, Stage.Begin));
    PlacedFacts(base, t, b, r);
    BeginCallbackStep(base, t, b, r, op, env, h, OBLIGING, []);
    OneStep(Placed(base, t, b, r), Run(t, c));
    MarkedKeeps(env, h);
    var v := Visited(Entering(r, |Stack(base, t)|, Marked(env, h, op).e, Stage.Begin), Activating);
    LeadsOn(Await(s, t, g), Placed(base, t, b, p), Placed(base, t, b, q));
    LeadsOn(Await(s, t, g), Placed(base, t, b, q), Placed(base, t, b, r));
    LeadsOn(Await(s, t, g), Placed(base, t, b, r), Placed(base, t, b, v));
    s' := Placed(base, t, b, v);
    PlacedFacts(base, t, b, v);
    ActivatingFacts(s, base, t, b, v, h);
  }

  lemma InactiveIsAccepted(env: Env, e: Entry)
    requires e.transition.None? && e.callers == map[] && !env.closing && e.state.INACTIVE?
    ensures Accepted(env, e, Activate(None))
  {
  }

  lemma MarkedKeeps(env: Env, h: Held)
    ensures var m := Marked(env, h, Activate(None)); m.e.context == h.e.context && m.tree == h.tree
  {
  }

  lemma ChecksInactive(s: State, t: Tid, n: Name, p: Spot)
    requires p.f == PrimFrame(Activate(None), n, Check) && p.cell.e.state.INACTIVE?
    ensures var c := Quietly(OBLIGING, []);
            && CanRun(Placed(s, t, n, p), t, c)
            && Next(Placed(s, t, n, p), Run(t, c)) == Placed(s, t, n, p.(f := PrimFrame(Activate(None), n, Stage.Begin)))
  {
    hide ToStage, Placed;
    PlacedFacts(s, t, n, p);
    PlacedStage(s, t, n, p, Stage.Begin);
  }

  /** What the callback's start left alone. */
  lemma ActivatingFacts(s: State, base: State, t: Tid, b: Name, v: Spot, h: Held)
    requires b in s.cells && base.cells == s.cells && base.contexts == s.contexts && OwnContext(s, b)
    requires v.cell.e.context == s.cells[b].e.context == h.e.context && h == HeldNow(s, b) && h.tree.Some?
    requires h.e.context.value in v.contexts && v.contexts[h.e.context.value].tree == h.tree.value
    requires forall c | c in s.contexts && s.cells[b].e.context != Some(c) :: c in v.contexts && v.contexts[c] == s.contexts[c]
    ensures var s' := Placed(base, t, b, v);
            && HeldNow(s', b).tree == h.tree
            && forall m | m in s.cells && m != b :: m in s'.cells && s'.cells[m] == s.cells[m] && HeldNow(s', m) == HeldNow(s, m)
  {
  }

  /** The source is open, the target configured, and the switch is the only activation. */
  ghost predicate Midway(s: State, t: Tid, a: Name, b: Name, sw: SwitchStage, i: ContextId, j: ContextId) {
    && Inv(s) && OthersIdle(s, t) && !s.closing && SwitchAt(s, t, a, b, sw)
    && s.cells[a].owner == Some(t) && s.cells[b].owner == Some(t)
    && HeldNow(s, a) == Held(Witnesses.Running(i), Some(LEAF.(outstanding := true)))
    && HeldNow(s, b) == Held(Configured(j), Some(LEAF))
  }

  lemma ComesToCompare(s: State, t: Tid, a: Name, b: Name, i: ContextId, j: ContextId) returns (s': State)
    requires Inv(s) && AllIdle(s) && !s.closing && a in s.cells && b in s.cells && a != b && Before(a, b)
    requires s.cells[a].owner.None? && s.cells[b].owner.None?
    requires HeldNow(s, a) == Held(Witnesses.Running(i), Some(LEAF.(outstanding := true)))
    requires HeldNow(s, b) == Held(Configured(j), Some(LEAF))
    ensures Leads(s, s') && Midway(s', t, a, b, SCompare, i, j)
  {
    hide Inv, Leads, Before, AllIdle, OthersIdle, SwitchAt;
    var s1 := TakesBoth(s, t, a, b);
    var s2 := SwitchGoes(s1, t, a, b, SGuard, SConfigure);
    s' := SwitchGoes(s2, t, a, b, SConfigure, SCompare);
    LeadsOn(s, s1, s2);
    LeadsOn(s, s2, s');
    LeadsKeeps(s, s');
    StillOthers(s1, s2, t);
    StillOthers(s2, s', t);
  }

  lemma StillOthers(s: State, s': State, t: Tid)
    requires Alike(s, s', t) && OthersIdle(s, t)
    ensures OthersIdle(s', t)
  {
  }

  /** The source stops, and the switch goes on to start its target. */
  lemma StopsSource(s: State, t: Tid, a: Name, b: Name, i: ContextId, j: ContextId) returns (s': State)
    requires Midway(s, t, a, b, SCompare, i, j)
    ensures Leads(s, s') && Inv(s') && OthersIdle(s', t) && !s'.closing && SwitchAt(s', t, a, b, SStart(None))
    ensures s'.cells[a].owner == Some(t) && s'.cells[b].owner == Some(t)
    ensures HeldNow(s', a) == Held(Configured(i), Some(LEAF)) && HeldNow(s', b) == Held(Configured(j), Some(LEAF))
  {
    hide Inv, Leads, Before, OthersIdle, Steady;
    var g := Switching(a, b, SStopping);
    SwitchCalls(s, t, a, b, SCompare, g);
    s' := CallsAndResumes(s, s, t, g, None);
    StopOutcome(t, i);
    LeadsKeeps(s, s');
    BothHeld(a, b);
  }

  lemma BothHeld(a: Name, b: Name)
    requires Before(a, b)
    ensures Holds(Switching(a, b, SStart(None)), a) && Holds(Switching(a, b, SStart(None)), b)
  {
    BeforeTotal(a, b);
  }

  /** A switch from an open entry to a configured one comes to run its target's activation. */
  lemma ComesToExpose(s: State, t: Tid, a: Name, b: Name, i: ContextId, j: ContextId) returns (s': State)
    requires Inv(s) && AllIdle(s) && !s.closing && a in s.cells && b in s.cells && a != b && Before(a, b)
    requires s.cells[a].owner.None? && s.cells[b].owner.None?
    requires HeldNow(s, a) == Held(Witnesses.Running(i), Some(LEAF.(outstanding := true)))
    requires HeldNow(s, b) == Held(Configured(j), Some(LEAF))
    ensures Leads(s, s') && Reentrancy.Exposed(s', t, a, b)
  {
    hide Inv, Leads, Before, OthersIdle, Midway;
    var s1 := ComesToCompare(s, t, a, b, i, j);
    var s2 := StopsSource(s1, t, a, b, i, j);
    LeadsOn(s, s1, s2);
    var g := Switching(a, b, SStarting(None));
    SwitchCalls(s2, t, a, b, SStart(None), g);
    s' := ComesToActivate(s2, t, g, b);
    LeadsOn(s, s2, Await(s2, t, g));
    LeadsOn(s, Await(s2, t, g), s');
  }

  /** The dangerous moment of a switch is reached from the initial state. */
  lemma ExposedIsReached() returns (s: State)
    ensures Leads(Init, s) && Reentrancy.Exposed(s, 1, "a", "b")
  {
    hide Inv, Leads, NewTree, Reentrancy.Exposed, Before;
    InitInv();
    InitIdle();
    LetterNames();
    TreesAreNew();
    var s1 := Opens(Init, 1, "a");
    var s2 := Prepares(s1, 1, "b", LEAF);
    LeadsOn(Init, s1, s2);
    s := ComesToExpose(s2, 1, "a", "b", 0, s1.next);
    LeadsOn(Init, s2, s);
  }

  /** So is a successful switch that leaves both of its entries open. */
  lemma BothOpenIsReached() returns (s: State)
    ensures Leads(Init, s) && |Stack(s, 1)| == 1 && Reentrancy.Switches(Stack(s, 1)[0], "a", "b")
    ensures Stack(s, 1)[0].sw == SLeaving(Ret(true, None), Stopped)
    ensures "a" in s.cells && "b" in s.cells && s.cells["a"].e.gate && s.cells["b"].e.gate
  {
    hide Leads, Reentrancy.Exposed, Protocol.Legal, After;
    var s1 := ExposedIsReached();
    var run := RunTo(s1);
    Reentrancy.SwitchMayLeaveBothOpen(run, 1, "a", "b");
    s :| Leads(s1, s) && |Stack(s, 1)| == 1 && Reentrancy.Switches(Stack(s, 1)[0], "a", "b")
      && Stack(s, 1)[0].sw == SLeaving(Ret(true, None), Stopped)
      && "a" in s.cells && "b" in s.cells && s.cells["a"].e.gate && s.cells["b"].e.gate;
    LeadsOn(Init, s1, s);
  }
}
