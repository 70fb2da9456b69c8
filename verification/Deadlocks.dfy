/**
 * Why callbacks must ask for locks in order and builders for none: runs of two
 * threads that end with both of them waiting for each other for ever.
 */
module Deadlocks {
  import opened Lifecycle
  import opened Plugins
  import opened ContextTree
  import opened Names
  import opened Entries
  import opened Protocol
  import opened Invariant
  import opened PrimSteps
  import opened AllSteps
  import opened Operations
  import opened Runs
  import opened Undisturbed
  import opened Staging
  import opened CrossBorrows
  import opened Witnesses

  /** The thread can neither go on, nor start an operation, nor end a borrow. */
  ghost predicate Blocked(s: State, t: Tid) {
    && (forall c :: !Enabled(s, Run(t, c)))
    && (forall f :: !Enabled(s, StartOp(t, f)))
    && (forall n, v :: !Enabled(s, EndBorrow(t, n, v)))
    && (forall n, g :: !Enabled(s, Borrow(t, n, g)))
    && Stack(s, t) != []
  }

  /** The thread asks for a lock that another one holds. */
  predicate AsksInVain(s: State, t: Tid, n: Name, u: Tid) {
    && Stack(s, t) != [] && Top(s, t).PrimFrame? && Top(s, t).name == n && Top(s, t).stage.Acquire?
    && n in s.cells && s.cells[n].owner == Some(u) && u != t
  }

  lemma InVainIsBlocked(s: State, t: Tid, n: Name, u: Tid)
    requires AsksInVain(s, t, n, u)
    ensures Blocked(s, t)
  {
  }

  lemma WaitingIsBlocked(s: State, t: Tid, n: Name)
    requires Waits(s, t, n)
    ensures Blocked(s, t)
  {
  }

  // ------------------------------------------------------- from inside foreign code

  function AskingSpot(s: State, n: Name, op: Prim): Spot
    requires n in s.cells
  {
    Spot(PrimFrame(op, n, Acquire), s.cells[n], s.contexts, s.next)
  }

  /** The thread has asked for an operation and wants its lock. */
  function Asking(s: State, t: Tid, n: Name, op: Prim): State
    requires n in s.cells
  {
    Placed(s, t, n, AskingSpot(s, n, op))
  }

  /** An operation asked from inside foreign code comes to ask for its lock. */
  lemma AsksFor(s: State, t: Tid, n: Name, op: Prim)
    requires MayCall(Stack(s, t)) && n in s.cells && (op.Load? ==> !Blank(n) && !s.closing)
    ensures var s' := Asking(s, t, n, op);
            && Leads(s, s') && Stack(s', t) == Stack(s, t) + [PrimFrame(op, n, Acquire)]
            && s'.cells == s.cells && s'.contexts == s.contexts && s'.next == s.next && s'.closing == s.closing
            && (forall u | u != t :: Stack(s', u) == Stack(s, u))
  {
    hide Leads, Enabled, Next, Blank;
    var p := Spot(PrimFrame(op, n, Lookup), s.cells[n], s.contexts, s.next);
    StartStep(s, t, n, op);
    OneStep(s, StartOp(t, p.f));
    LookupStep(s, t, n, p, OBLIGING, []);
    PlacedFacts(s, t, n, p);
    OneStep(Placed(s, t, n, p), Run(t, Quietly(OBLIGING, [])));
    LeadsOn(s, Placed(s, t, n, p), Asking(s, t, n, op));
    assert s.cells[n := s.cells[n]] == s.cells;
  }

  /** The entry may be configured by this thread. */
  predicate Configurable(s: State, t: Tid, n: Name) {
    && n in s.cells && s.cells[n].owner.None? && s.cells[n].e.state.UNCONFIGURED? && s.cells[n].e.transition.None?
    && Calling(s.cells[n].e, t) == 0
  }

  lemma MarkedContext(env: Env, h: Held, op: Prim)
    ensures Marked(env, h, op).e.context == h.e.context && Marked(env, h, op).e.inFlight == h.e.inFlight
  {
  }

  lemma CalmIsAccepted(env: Env, e: Entry, op: Prim)
    requires e.transition.None? && Calling(e, env.t) == 0 && !env.closing && e.state in Allowed(op)
    ensures Accepted(env, e, op)
  {
  }

  /** An idle thread comes to run the configure callback of an entry. */
  lemma Configures(s: State, t: Tid, n: Name) returns (s': State)
    requires Inv(s) && Stack(s, t) == [] && Configurable(s, t, n) && !s.closing
    ensures Leads(s, s') && Inv(s') && Stack(s', t) == [PrimFrame(Configure, n, Protocol.Running(Configuring))]
    ensures n in s'.cells && s'.cells[n].owner == Some(t) && s'.closing == s.closing
    ensures s'.cells[n].e.inFlight == s.cells[n].e.inFlight
    ensures forall m | m in s.cells && m != n :: m in s'.cells && s'.cells[m] == s.cells[m]
    ensures forall u | u != t :: Stack(s', u) == Stack(s, u)
  {
    hide Inv, Leads, Placed, Next, CanRun, Marked, Steady;
    var h := HeldNow(s, n);
    var env := Env(t, s.closing, OBLIGING);
    HeldIsSteady(s, n);
    CalmIsAccepted(env, h.e, Configure);
    NeedsContext(env, h, Configure);
    AsksFor(s, t, n, Configure);
    var p := AskingSpot(s, n, Configure);
    PlacedFacts(s, t, n, p);
    var q := p.(cell := p.cell.(owner := Some(t)), f := p.f.(stage := Stage.Begin));
    ShowsAnyway(Spot(PrimFrame(Configure, n, Lookup), s.cells[n], s.contexts, s.next), p, h);
    AcquireStep(s, t, n, p, OBLIGING, []);
    OneStep(Placed(s, t, n, p), Run(t, Quietly(OBLIGING, [])));
    PlacedFacts(s, t, n, q);
    BeginCallbackStep(s, t, n, q, Configure, env, h, OBLIGING, []);
    MarkedContext(env, h, Configure);
    var r := Visited(Entering(q, |Stack(s, t)|, Marked(env, h, Configure).e, Stage.Begin), Configuring);
    OneStep(Placed(s, t, n, q), Run(t, Quietly(OBLIGING, [])));
    LeadsOn(s, Placed(s, t, n, p), Placed(s, t, n, q));
    LeadsOn(s, Placed(s, t, n, q), Placed(s, t, n, r));
    s' := Placed(s, t, n, r);
    PlacedFacts(s, t, n, r);
    PlacedElse(s, t, n, r);
    LeadsKeeps(s, s');
  }

  /**
   * Two callbacks that each start an operation on the other one's entry: from every
   * reachable state in which two idle threads may configure two entries, a run leads
   * to a state in which both wait for the lock that the other one holds.
   */
  lemma CrossCallbacksDeadlock(s: State, t: Tid, u: Tid, a: Name, b: Name) returns (s': State)
    requires Inv(s) && t != u && a != b && Stack(s, t) == [] && Stack(s, u) == [] && !s.closing
    requires Configurable(s, t, a) && Configurable(s, u, b)
    ensures Leads(s, s') && AsksInVain(s', t, b, u) && AsksInVain(s', u, a, t)
    ensures Blocked(s', t) && Blocked(s', u)
    ensures forall v | v != t && v != u :: Stack(s', v) == Stack(s, v)
  {
    hide Inv, Leads, Asking, Blocked;
    var s1 := Configures(s, t, a);
    var s2 := Configures(s1, u, b);
    AsksFor(s2, t, b, Configure);
    var s3 := Asking(s2, t, b, Configure);
    AsksFor(s3, u, a, Configure);
    s' := Asking(s3, u, a, Configure);
    LeadsOn(s, s1, s2);
    LeadsOn(s, s2, s3);
    LeadsOn(s, s3, s');
    InVainIsBlocked(s', t, b, u);
    InVainIsBlocked(s', u, a, t);
  }

  /** Such a deadlock is reached from the initial state. */
  lemma CallbackDeadlockIsReached() returns (s: State)
    ensures Leads(Init, s) && Blocked(s, 1) && Blocked(s, 2) && AsksInVain(s, 1, "b", 2) && AsksInVain(s, 2, "a", 1)
    ensures forall v | v != 1 && v != 2 :: Stack(s, v) == []
  {
    hide Inv, Leads, Blocked, AsksInVain, NewTree;
    InitInv();
    InitIdle();
    LetterNames();
    TreesAreNew();
    var s1 := Loads(Init, 1, "a", "c", Some(LEAF));
    LoadOutcome(1, LEAF, 0);
    WorkedFacts(Init, s1, 1, "a", Held(Loaded(0), Some(LEAF)));
    var s2 := Loads(s1, 1, "b", "c", Some(LEAF));
    LoadOutcome(1, LEAF, s1.next);
    WorkedFacts(s1, s2, 1, "b", Held(Loaded(s1.next), Some(LEAF)));
    LeadsOn(Init, s1, s2);
    s := CrossCallbacksDeadlock(s2, 1, 2, "a", "b");
    LeadsOn(Init, s2, s);
  }

  // ------------------------------------------------------------------- builders

  /** The entry may be loaded by anybody. */
  predicate Loadable(s: State, n: Name) {
    && n in s.cells && !Blank(n) && s.cells[n].owner.None? && s.cells[n].e.state.UNLOADED? && s.cells[n].e.transition.None?
    && s.cells[n].e.callers == map[]
  }

  /** An idle thread comes to wait for the builder. */
  lemma ComesToBuild(s: State, t: Tid, n: Name) returns (s': State)
    requires Inv(s) && Stack(s, t) == [] && Loadable(s, n) && !s.closing
    ensures Leads(s, s') && Inv(s') && Stack(s', t) == [PrimFrame(Load(Some("c")), n, WaitBuild)]
    ensures n in s'.cells && s'.cells[n].owner == Some(t) && s'.closing == s.closing
    ensures forall m | m in s.cells && m != n :: m in s'.cells && s'.cells[m] == s.cells[m]
    ensures forall u | u != t :: Stack(s', u) == Stack(s, u)
  {
    hide Inv, Leads, Placed, Next, CanRun, Named, Steady, Blank;
    var op := Load(Some("c"));
    var h := HeldNow(s, n);
    var env := Env(t, s.closing, OBLIGING);
    HeldIsSteady(s, n);
    CalmIsAccepted(env, h.e, op);
    AsksFor(s, t, n, op);
    var p := AskingSpot(s, n, op);
    PlacedFacts(s, t, n, p);
    var q := p.(cell := p.cell.(owner := Some(t)), f := p.f.(stage := Stage.Begin));
    ShowsAnyway(Spot(PrimFrame(Configure, n, Lookup), s.cells[n], s.contexts, s.next), p, h);
    AcquireStep(s, t, n, p, OBLIGING, []);
    OneStep(Placed(s, t, n, p), Run(t, Quietly(OBLIGING, [])));
    PlacedFacts(s, t, n, q);
    BeginLoadStep(s, t, n, q, op, env, h, OBLIGING, []);
    NamedC(env, h);
    var r := Entering(q, |Stack(s, t)|, Named(env, h, op), WaitBuild);
    OneStep(Placed(s, t, n, q), Run(t, Quietly(OBLIGING, [])));
    LeadsOn(s, Placed(s, t, n, p), Placed(s, t, n, q));
    LeadsOn(s, Placed(s, t, n, q), Placed(s, t, n, r));
    s' := Placed(s, t, n, r);
    PlacedFacts(s, t, n, r);
    PlacedElse(s, t, n, r);
    LeadsKeeps(s, s');
  }

  lemma NamedC(env: Env, h: Held)
    ensures Named(env, h, Load(Some("c"))).component == "c"
  {
  }

  lemma PlacedElse(s: State, t: Tid, n: Name, p: Spot)
    ensures var s' := Placed(s, t, n, p);
            && (forall m | m in s.cells && m != n :: m in s'.cells && s'.cells[m] == s.cells[m])
            && (forall u | u != t :: Stack(s', u) == Stack(s, u))
  {
  }

  /** The thread waits for a builder that another thread uses. */
  ghost predicate AwaitsBuilder(s: State, t: Tid, u: Tid) {
    && Stack(s, t) != [] && Top(s, t).PrimFrame? && Top(s, t).stage.WaitBuild?
    && u != t && u in s.stacks && BuildsIn(s.stacks[u])
  }

  lemma AwaitingIsBlocked(s: State, t: Tid, u: Tid)
    requires AwaitsBuilder(s, t, u)
    ensures Blocked(s, t)
  {
  }

  /** The builder is free, and the thread enters it. */
  lemma EntersBuilder(s: State, t: Tid, n: Name) returns (s': State)
    requires Stack(s, t) == [PrimFrame(Load(Some("c")), n, WaitBuild)] && n in s.cells && BuilderFree(s, t)
    ensures Leads(s, s') && Stack(s', t) == [PrimFrame(Load(Some("c")), n, Building)] && s'.cells == s.cells
    ensures forall u | u != t :: Stack(s', u) == Stack(s, u)
  {
    hide Leads, BuilderFree;
    var c := Quietly(OBLIGING, []);
    assert Enabled(s, Run(t, c));
    s' := Next(s, Run(t, c));
    OneStep(s, Run(t, c));
  }

  /**
   * A builder that starts an operation on an entry whose lock is held by a thread that
   * waits for the builder: both wait for ever.
   */
  lemma BuilderDeadlock(s: State, t: Tid, u: Tid, a: Name, b: Name) returns (s': State)
    requires Inv(s) && t != u && a != b && AllIdle(s) && !s.closing && Loadable(s, a) && Loadable(s, b)
    ensures Leads(s, s') && AsksInVain(s', t, b, u) && AwaitsBuilder(s', u, t)
    ensures Blocked(s', t) && Blocked(s', u)
    ensures forall v | v != t && v != u :: Stack(s', v) == []
  {
    hide Inv, Leads, Asking, Blocked, Blank, BuilderFree, BuildsIn;
    var s1 := ComesToBuild(s, u, b);
    var s2 := ComesToBuild(s1, t, a);
    OnlyWaiting(s2, t, u);
    var s3 := EntersBuilder(s2, t, a);
    AsksFor(s3, t, b, Configure);
    s' := Asking(s3, t, b, Configure);
    LeadsOn(s, s1, s2);
    LeadsOn(s, s2, s3);
    LeadsOn(s, s3, s');
    InBuilder(s', t);
    InVainIsBlocked(s', t, b, u);
    AwaitingIsBlocked(s', u, t);
  }

  lemma OnlyWaiting(s: State, t: Tid, u: Tid)
    requires forall v | v != t && v != u :: Stack(s, v) == []
    requires |Stack(s, u)| == 1 && Stack(s, u)[0].PrimFrame? && Stack(s, u)[0].stage.WaitBuild?
    ensures BuilderFree(s, t)
  {
    forall v | v in s.stacks && v != t ensures !BuildsIn(s.stacks[v]) {
      assert s.stacks[v] == Stack(s, v);
    }
  }

  lemma InBuilder(s: State, t: Tid)
    requires |Stack(s, t)| == 2 && Stack(s, t)[0].PrimFrame? && Stack(s, t)[0].stage.Building?
    ensures t in s.stacks && BuildsIn(s.stacks[t])
  {
    assert s.stacks[t] == Stack(s, t);
  }

  /** Such a deadlock is reached from the initial state. */
  lemma BuilderDeadlockIsReached() returns (s: State)
    ensures Leads(Init, s) && Blocked(s, 1) && Blocked(s, 2) && AsksInVain(s, 1, "b", 2) && AwaitsBuilder(s, 2, 1)
    ensures forall v | v != 1 && v != 2 :: Stack(s, v) == []
  {
    hide Inv, Leads, Blocked, AsksInVain, AwaitsBuilder;
    InitInv();
    InitIdle();
    LetterNames();
    var s1 := Loads(Init, 1, "a", "", None);
    EmptyOutcome(1, 0);
    WorkedFacts(Init, s1, 1, "a", Held(NewEntry.(lastOk := false), None));
    var s2 := Loads(s1, 1, "b", "", None);
    EmptyOutcome(1, s1.next);
    WorkedFacts(s1, s2, 1, "b", Held(NewEntry.(lastOk := false), None));
    LeadsOn(Init, s1, s2);
    s := BuilderDeadlock(s2, 1, 2, "a", "b");
    LeadsOn(Init, s2, s);
  }

  /** A load without a component path makes an entry and leaves it unloaded. */
  lemma EmptyOutcome(t: Tid, id: ContextId)
    ensures LoadOp(Env(t, false, OBLIGING), Held(NewEntry, None), [], Some(""), None, id).held == Held(NewEntry.(lastOk := false), None)
  {
  }

  // -------------------------------------------------------------------- borrowers

  /** The deadlock of two borrowers is reached from the initial state. */
  lemma BorrowDeadlockIsReached() returns (s: State)
    ensures Leads(Init, s) && Waits(s, 1, "b") && Waits(s, 2, "a") && Blocked(s, 1) && Blocked(s, 2)
  {
    hide Inv, Leads, Blocked, Waits, Protocol.Legal, After, Lends;
    LetterNames();
    var s1 := TwoOpenAreReached();
    var run := RunTo(s1);
    LendsNow(s1, "a");
    LendsNow(s1, "b");
    CrossBorrowersDeadlock(run, 1, 2, "a", "b");
    s :| Leads(s1, s) && Waits(s, 1, "b") && Waits(s, 2, "a");
    LeadsOn(Init, s1, s);
    WaitingIsBlocked(s, 1, "b");
    WaitingIsBlocked(s, 2, "a");
  }

  lemma LendsNow(s: State, n: Name)
    requires n in s.cells && s.cells[n].owner.None?
    requires exists id :: HeldNow(s, n) == Held(Witnesses.Running(id), Some(LEAF.(outstanding := true)))
    ensures Lends(s, n) && forall t :: Calling(s.cells[n].e, t) == 0
  {
  }
}
