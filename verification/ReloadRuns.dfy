/** A run from the initial state to a refresh that has loaded its own entry again. */
module ReloadRuns {
  import opened Lifecycle
  import opened Plugins
  import opened ContextTree
  import opened Names
  import opened Entries
  import opened Protocol
  import opened Invariant
  import opened Calls
  import opened PrimSteps
  import opened AllSteps
  import opened Operations
  import opened Runs
  import opened Undisturbed
  import opened Staging
  import opened Witnesses
  import opened SwitchRuns
  import Safety

  /** A reload of an entry that was not active, with a refresh. */
  function Reloading(n: Name, since: nat, rl: ReloadStage): (f: Frame)
    ensures f.ReloadFrame?
  {
    ReloadFrame(n, false, false, true, false, None, Past(since, None), rl)
  }

  predicate ReloadAt(s: State, t: Tid, n: Name, since: nat, rl: ReloadStage) {
    Stack(s, t) == [Reloading(n, since, rl)] && n in s.cells
  }

  lemma ReloadStarts(s: State, t: Tid, n: Name)
    requires Stack(s, t) == [] && n in s.cells
    ensures var act := StartOp(t, Reloading(n, 0, RLookup));
            && Enabled(s, act) && ReloadAt(Next(s, act), t, n, 0, RLookup)
            && Alike(s, Next(s, act), t) && Next(s, act).cells == s.cells
  {
    forall u | u != t ensures Stack(Next(s, StartOp(t, Reloading(n, 0, RLookup))), u) == Stack(s, u) {
    }
  }

  lemma ReloadFinds(s: State, t: Tid, n: Name, c: Choice)
    requires ReloadAt(s, t, n, 0, RLookup)
    ensures var act := Run(t, c);
            && Enabled(s, act) && ReloadAt(Next(s, act), t, n, 0, RAcquire)
            && Alike(s, Next(s, act), t) && Next(s, act).cells == s.cells
  {
    SetAlike(s, s, t, Reloading(n, 0, RAcquire));
  }

  lemma ReloadLocks(s: State, t: Tid, n: Name, c: Choice)
    requires ReloadAt(s, t, n, 0, RAcquire) && s.cells[n].owner.None?
    ensures var act := Run(t, c);
            && Enabled(s, act) && ReloadAt(Next(s, act), t, n, 0, RStart)
            && Alike(s, Next(s, act), t) && Next(s, act).cells == s.cells[n := s.cells[n].(owner := Some(t))]
  {
    LockAlike(s, t, n);
    SetAlike(s, Lock(s, t, n), t, Reloading(n, 0, RStart));
  }

  /** A reload of an entry that is not active goes straight on to its unload. */
  lemma ReloadGoes(s: State, t: Tid, n: Name, c: Choice)
    requires ReloadAt(s, t, n, 0, RStart) && !s.cells[n].e.state.ACTIVE?
    ensures var act := Run(t, c);
            && Enabled(s, act) && ReloadAt(Next(s, act), t, n, s.cells[n].e.generation, RUnload)
            && Alike(s, Next(s, act), t) && Next(s, act).cells == s.cells
  {
    ReloadForm(s, t, c);
    SetAlike(s, s, t, Reloading(n, s.cells[n].e.generation, RUnload));
  }

  lemma ReloadCalls(s: State, t: Tid, n: Name, since: nat)
    requires ReloadAt(s, t, n, since, RUnload)
    ensures Awaits(Reloading(n, since, RUnloading)) == Some((Unload(false), n))
    ensures Leads(s, Await(s, t, Reloading(n, since, RUnloading)))
  {
    hide Leads, RunReload;
    var c := Quietly(OBLIGING, []);
    ReloadForm(s, t, c);
    assert Enabled(s, Run(t, c)) && Next(s, Run(t, c)) == RunReload(s, t, c);
    OneStep(s, Run(t, c));
  }

  /** An idle thread starts a reload of an entry that is not active, and comes to unload it. */
  lemma ComesToUnload(s: State, t: Tid, n: Name) returns (s': State)
    requires AllIdle(s) && n in s.cells && s.cells[n].owner.None? && !s.cells[n].e.state.ACTIVE?
    ensures Leads(s, s') && ReloadAt(s', t, n, s.cells[n].e.generation, RUnload) && Alike(s, s', t) && OthersIdle(s', t)
    ensures s'.cells[n].owner == Some(t)
  {
    hide Leads, Alike, Next, Enabled, ReloadAt;
    var c := Quietly(OBLIGING, []);
    assert Stack(s, t) == [];
    ReloadStarts(s, t, n);
    OneStep(s, StartOp(t, Reloading(n, 0, RLookup)));
    var s1 := Next(s, StartOp(t, Reloading(n, 0, RLookup)));
    ReloadFinds(s1, t, n, c);
    OneStep(s1, Run(t, c));
    var s2 := Next(s1, Run(t, c));
    ReloadLocks(s2, t, n, c);
    OneStep(s2, Run(t, c));
    var s3 := Next(s2, Run(t, c));
    ReloadGoes(s3, t, n, c);
    OneStep(s3, Run(t, c));
    s' := Next(s3, Run(t, c));
    LeadsOn(s, s1, s2);
    LeadsOn(s, s2, s3);
    LeadsOn(s, s3, s');
    AlikeOn(s, s1, s2, t);
    AlikeOn(s, s2, s3, t);
    AlikeOn(s, s3, s', t);
    IdleAlike(s, s', t);
  }

  /** Unloading an entry that was only loaded closes its tree and nothing else. */
  lemma UnloadOutcome(t: Tid, id: ContextId)
    requires Steady(Held(Loaded(id), Some(LEAF)))
    ensures var out := UnloadOp(Env(t, false, OBLIGING), Held(Loaded(id), Some(LEAF)), []);
            out.held == Held(Loaded(id).(state := UNLOADED, context := None), None) && out.ret == Ret(true, None)
  {
    assert CloseKids(OBLIGING, [], LEAF.kids) == KidsResult([], [], None, 0);
    assert CloseTree(OBLIGING, [], LEAF).error.None?;
  }

  /** The refresh is about to run. */
  lemma ComesToRefresh(s: State, t: Tid, n: Name, id: ContextId) returns (s': State)
    requires Inv(s) && AllIdle(s) && !s.closing && n in s.cells && s.cells[n].owner.None?
    requires HeldNow(s, n) == Held(Loaded(id), Some(LEAF))
    ensures Leads(s, s') && Inv(s') && OthersIdle(s', t) && !s'.closing && ReloadAt(s', t, n, 1, RRefreshing)
    ensures s'.cells[n].owner == Some(t) && HeldNow(s', n) == Held(Loaded(id).(state := UNLOADED, context := None), None)
  {
    hide Inv, Leads, AllIdle, OthersIdle, Steady, UnloadOp;
    var s1 := ComesToUnload(s, t, n);
    LeadsKeeps(s, s1);
    var g := Reloading(n, 1, RUnloading);
    ReloadCalls(s1, t, n, 1);
    s' := CallsAndResumes(s1, s1, t, g, None);
    UnloadOutcome(t, id);
    LeadsOn(s, s1, s');
    LeadsKeeps(s, s');
  }

  /** The refresh performs an operation on its own entry. */
  lemma RefreshPerforms(s: State, t: Tid, n: Name, op: Prim, built: Option<Tree>) returns (s': State)
    requires Inv(s) && OthersIdle(s, t) && ReloadAt(s, t, n, 1, RRefreshing) && s.cells[n].owner == Some(t)
    requires (op.Deactivate? || op.Unload?) && s.cells[n].e.inFlight != 0 ==> op.timed
    requires op.Load? ==> !Blank(n) && !s.closing && (built.Some? ==> NewTree(built.value))
    ensures Steady(HeldNow(s, n))
    ensures Leads(s, s') && Inv(s') && ReloadAt(s', t, n, 1, RRefreshing) && OthersIdle(s', t) && s'.closing == s.closing
    ensures s'.cells[n].owner == Some(t)
    ensures HeldNow(s', n) == Operate(Env(t, s.closing, OBLIGING), HeldNow(s, n), [], op, built, s.next).held
  {
    hide Inv, Leads, Placed, NewTree, BuilderFree, Undisturbed.Ends, OwnContext, Steady, Enabled, Next, Blank, Operate;
    var h := HeldNow(s, n);
    var p0 := Spot(PrimFrame(op, n, Lookup), s.cells[n], s.contexts, s.next);
    var p := p0.(f := PrimFrame(op, n, Acquire));
    HeldIsSteady(s, n);
    NextIsFresh(s);
    ContextsAreOwn(s, n);
    OtherBuilders(s, t);
    StartStep(s, t, n, op);
    OneStep(s, StartOp(t, PrimFrame(op, n, Lookup)));
    LookupStep(s, t, n, p0, OBLIGING, []);
    PlacedFacts(s, t, n, p0);
    OneStep(Placed(s, t, n, p0), Run(t, Quietly(OBLIGING, [])));
    LeadsOn(s, Placed(s, t, n, p0), Placed(s, t, n, p));
    ShowsAnyway(Spot(PrimFrame(Configure, n, Lookup), s.cells[n], s.contexts, s.next), p, h);
    AcquireEnds(s, t, n, p, op, Env(t, s.closing, OBLIGING), h, [], built);
    var out := Operate(Env(t, s.closing, OBLIGING), h, [], op, built, s.next);
    s' := EndsWork(s, s, t, n, p, out);
    StaysRefreshing(n, out.ret);
    HeldByOne(Reloading(n, 1, RRefreshing), n);
    LeadsKeeps(s, s');
  }

  lemma ReloadOutcome(t: Tid, id: ContextId, next: ContextId)
    ensures LoadOp(Env(t, false, OBLIGING), Held(Loaded(id).(state := UNLOADED, context := None), None), [], None, Some(LEAF), next).held
         == Held(Loaded(next).(generation := 2), Some(LEAF))
  {
  }

  lemma StaysRefreshing(n: Name, r: Ret)
    ensures Resumed([Reloading(n, 1, RRefreshing)], r) == [Reloading(n, 1, RRefreshing)]
  {
  }

  /** A run to a refresh that has loaded its own entry again. */
  lemma LoadedAgain() returns (s: State, id: ContextId)
    ensures Leads(Init, s) && Inv(s) && OthersIdle(s, 1) && !s.closing && ReloadAt(s, 1, "a", 1, RRefreshing)
    ensures s.cells["a"].owner == Some(1) && HeldNow(s, "a") == Held(Loaded(id).(generation := 2), Some(LEAF))
  {
    hide Inv, Leads, NewTree, Steady, AllIdle, OthersIdle, Blank;
    InitInv();
    InitIdle();
    LetterNames();
    TreesAreNew();
    var s1 := Loads(Init, 1, "a", "c", Some(LEAF));
    LoadOutcome(1, LEAF, 0);
    WorkedFacts(Init, s1, 1, "a", Held(Loaded(0), Some(LEAF)));
    var s2 := ComesToRefresh(s1, 1, "a", 0);
    id := s2.next;
    s := RefreshPerforms(s2, 1, "a", Load(None), Some(LEAF));
    ReloadOutcome(1, 0, id);
    LeadsOn(Init, s1, s2);
    LeadsOn(Init, s2, s);
  }

  /**
   * A refresh that loads its own entry and then raises: a run from the initial state
   * reaches the moment before, and the step leaves the entry UNLOADED with a context,
   * against the table of states.
   */
  lemma RelapseIsReached() returns (s: State)
    ensures Leads(Init, s) && ReloadAt(s, 1, "a", 1, RRefreshing)
    ensures Enabled(s, Run(1, Plain))
    ensures var s' := Next(s, Run(1, Plain));
            && "a" in s'.cells && s'.cells["a"].e.state.UNLOADED? && s'.cells["a"].e.transition.None?
            && s'.cells["a"].e.context.Some? && !Quiet(s'.cells["a"].e) && s'.cells["a"].lost
  {
    hide Inv, Leads, Protocol.Legal, After;
    var id;
    s, id := LoadedAgain();
    var run := RunTo(s);
    Safety.RefreshMayRaiseIff(run, 1);
  }
}
