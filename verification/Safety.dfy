/**
 * What holds in every state that any number of interleaved threads can reach,
 * whatever callbacks, builders, timeouts and re-entrant calls do.
 */
module Safety {
  import opened Lifecycle
  import opened ContextTree
  import opened StopTheorems
  import opened Names
  import opened Entries
  import opened Protocol
  import opened Invariant
  import opened Calls
  import opened PrimSteps
  import opened AllSteps
  import opened Effects
  import opened Turns
  import StartTheorems

  // ------------------------------------------------------- borrows and callbacks

  /**
   * While any callback runs on an entry's context, none can borrow it and no other
   * callback runs on it in any thread. No borrow of it is in flight either; if a
   * refresh has lost a context of the entry, that is sure only of a stop or an unload.
   */
  lemma NoBorrowDuringCallback(run: seq<Action>, t: Tid, i: nat)
    requires Protocol.Legal(Init, run)
    requires var s := After(Init, run); i < |Stack(s, t)| && Stack(s, t)[i].PrimFrame? && Stack(s, t)[i].stage.Running?
    ensures var s := After(Init, run);
            var n := Stack(s, t)[i].name;
            && n in s.cells && !s.cells[n].e.gate
            && (!s.cells[n].lost || Stack(s, t)[i].op.Deactivate? || Stack(s, t)[i].op.Unload? ==>
                  s.cells[n].e.inFlight == 0 && s.cells[n].e.callers == map[])
            && forall u, j: nat | j < |Stack(s, u)| && Begun(Stack(s, u)[j], n) :: u == t && j == i
  {
    hide CellOk, After, Protocol.Legal;
    Reachable(run);
    var s := After(Init, run);
    var n := Stack(s, t)[i].name;
    assert FrameOk(s, t, i);
    CellOf(s, n);
    CellFacts(s, n);
    if s.cells[n].e.inFlight == 0 {
      NoCallers(s.cells[n].e);
    }
    forall u, j: nat | j < |Stack(s, u)| && Begun(Stack(s, u)[j], n) ensures u == t && j == i {
      assert FrameOk(s, u, j);
    }
  }

  lemma NoCallers(e: Entry)
    requires Counted(e) && e.inFlight == 0
    ensures e.callers == map[]
  {
    SomeTotal(e.callers);
  }

  lemma SomeTotal(callers: map<Tid, nat>)
    ensures callers != map[] && (forall t | t in callers :: callers[t] > 0) ==> Total(callers) > 0
  {
    if callers != map[] {
      var t :| t in callers;
      TotalWithout(callers, t);
    }
  }

  // -------------------------------------------------------------------- typestate

  /** The manager runs a callback on a context only when it is due. */
  lemma CallbacksAreDue(run: seq<Action>, c: ContextId)
    requires Protocol.Legal(Init, run) && c in After(Init, run).contexts
    ensures Trajectory(After(Init, run).contexts[c].visits).Typestate?
  {
    hide CellOk, FrameOk, After, Protocol.Legal, Trajectory;
    Reachable(run);
    assert ContextOk(After(Init, run), c);
  }

  /**
   * What an unviolated trajectory means: every callback started when it was due,
   * callbacks never overlap, and nothing follows a successful close.
   */
  lemma {:induction false} DueMeans(visits: seq<Visit>, i: nat)
    requires Trajectory(visits).Typestate? && i < |visits|
    ensures Trajectory(visits[..i]).Typestate?
    ensures visits[i].Started? ==> Due(Trajectory(visits[..i]), visits[i].callback)
    ensures visits[i].Ended? ==> i > 0 && visits[i - 1].Started? && visits[i - 1].callback == visits[i].callback
    ensures visits[i].Ended? && visits[i].callback.Closing? && visits[i].ok ==> i == |visits| - 1
    ensures Trajectory(visits).closed ==> visits[|visits| - 1].Ended? && visits[|visits| - 1].callback.Closing?
    ensures Trajectory(visits).running.Some? ==>
              visits[|visits| - 1].Started? && visits[|visits| - 1].callback == Trajectory(visits).running.value
  {
    var n := |visits| - 1;
    if n > 0 {
      DueMeans(visits[..n], if i < n then i else n - 1);
    }
    if i < n {
      assert visits[..n][..i] == visits[..i];
      if n == 1 {
        assert visits[..n] == [visits[0]];
      }
    }
  }

  /** An entry's flags are exactly the debts of its context's trajectory. */
  lemma FlagsAreDebts(run: seq<Action>, n: Name)
    requires Protocol.Legal(Init, run) && n in After(Init, run).cells
    ensures var s := After(Init, run);
            var e := s.cells[n].e;
            e.context.Some? ==>
              && e.context.value in s.contexts
              && var ts := Trajectory(s.contexts[e.context.value].visits);
                 && ts.Typestate? && !ts.closed && ts.configured == e.configured && ts.active == e.mayBeActive
  {
    hide FrameOk, After, Protocol.Legal, Trajectory, CellOk;
    Reachable(run);
    CellOf(After(Init, run), n);
    CellFacts(After(Init, run), n);
  }

  /**
   * Across the layers: whenever an entry may not be active, no node anywhere in
   * its tree owes a deactivation. Cleanup, close, configure and activate
   * therefore always meet a tree in which everything is stopped.
   */
  lemma InactiveOwesNothing(run: seq<Action>, n: Name)
    requires Protocol.Legal(Init, run) && n in After(Init, run).cells
    ensures var s := After(Init, run);
            var e := s.cells[n].e;
            e.context.Some? && !e.mayBeActive ==>
              e.context.value in s.contexts && Owing(s.contexts[e.context.value].tree) == []
  {
    hide FrameOk, After, Protocol.Legal, Trajectory, CellOk;
    Reachable(run);
    CellOf(After(Init, run), n);
    CellFacts(After(Init, run), n);
  }

  lemma OnlyDeactivateMeetsDebts(run: seq<Action>, t: Tid, i: nat)
    requires Protocol.Legal(Init, run)
    requires var s := After(Init, run); i < |Stack(s, t)| && Stack(s, t)[i].PrimFrame? && Stack(s, t)[i].stage.Running?
    ensures var s := After(Init, run);
            var f := Stack(s, t)[i];
            && f.name in s.cells && s.cells[f.name].e.context.Some?
            && s.cells[f.name].e.context.value in s.contexts
            && (!f.stage.callback.Deactivating? ==> Owing(s.contexts[s.cells[f.name].e.context.value].tree) == [])
  {
    hide After, Protocol.Legal, Trajectory, CellOk;
    Reachable(run);
    var s := After(Init, run);
    assert FrameOk(s, t, i);
    CellOf(s, Stack(s, t)[i].name);
    CellFacts(s, Stack(s, t)[i].name);
  }

  // ----------------------------------------------------------- states of an entry

  /**
   * The table of entry states between operations, and what holds even during one.
   * A context that a refresh has lost takes two of its lines away: UNLOADED may
   * hold a context, and calls may be in flight on an instance that was not started.
   */
  lemma EntryTable(run: seq<Action>, n: Name)
    requires Protocol.Legal(Init, run) && n in After(Init, run).cells
    ensures var cell := After(Init, run).cells[n];
            var e := cell.e;
            && (e.transition.None? ==> Rests(e) && (!cell.lost ==> Quiet(e)))
            && (e.mayBeActive ==> e.configured) && (e.configured ==> e.context.Some?)
            && (e.gate ==> e.state.ACTIVE? && e.transition.None? && e.context.Some?)
            && (e.inFlight > 0 ==> e.context.Some? && (!cell.lost ==> e.mayBeActive))
            && e.inFlight == Total(e.callers) >= 0 && (forall u | u in e.callers :: e.callers[u] > 0)
  {
    hide FrameOk, After, Protocol.Legal, CellOk, Linked, History;
    Reachable(run);
    CellOf(After(Init, run), n);
    CellFacts(After(Init, run), n);
  }

  /** The mark is the name of the operation. */
  predicate IsNameOf(mark: Op, op: Prim) {
    match mark
    case OpLoad => op.Load?
    case OpConfigure => op.Configure?
    case OpActivate => op.Activate?
    case OpDeactivate => op.Deactivate?
    case OpCleanup => op.Cleanup?
    case OpUnload => op.Unload?
  }

  /**
   * A transition mark belongs to an operation that is still under way and names it,
   * or it was left behind by a cleanup of an entry whose load had failed.
   */
  lemma TransitionsBelongToOperations(run: seq<Action>, n: Name)
    requires Protocol.Legal(Init, run) && n in After(Init, run).cells
    requires After(Init, run).cells[n].e.transition.Some?
    ensures var s := After(Init, run);
            || (exists t, i: nat | i < |Stack(s, t)| ::
                  Begun(Stack(s, t)[i], n) && IsNameOf(s.cells[n].e.transition.value, Stack(s, t)[i].op))
            || Stuck(s.cells[n].e)
    ensures var s := After(Init, run);
            !((exists t, i: nat | i < |Stack(s, t)| :: Begun(Stack(s, t)[i], n)) && Stuck(s.cells[n].e))
  {
    hide After, Protocol.Legal, CellOk;
    Reachable(run);
    var s := After(Init, run);
    CellOf(s, n);
    if !Stuck(s.cells[n].e) {
      WitnessOf(s, n);
    }
    if t, i: nat :| i < |Stack(s, t)| && Begun(Stack(s, t)[i], n) {
      assert FrameOk(s, t, i);
      StuckIsIdle(s, n, t, i);
    }
  }

  lemma WitnessOf(s: State, n: Name)
    requires CellOk(s, n) && s.cells[n].e.transition.Some? && !Stuck(s.cells[n].e)
    ensures exists t, i: nat | i < |Stack(s, t)| ::
              Begun(Stack(s, t)[i], n) && IsNameOf(s.cells[n].e.transition.value, Stack(s, t)[i].op)
  {
    assert Witnessed(s, n);
    var t := s.cells[n].e.operationThread.value;
    assert Begun(Stack(s, t)[s.cells[n].frame], n) && IsNameOf(s.cells[n].e.transition.value, Stack(s, t)[s.cells[n].frame].op);
  }

  /** No operation is under way on a stuck entry. */
  lemma StuckIsIdle(s: State, n: Name, t: Tid, i: nat)
    requires n in s.cells && FrameOk(s, t, i) && Begun(Stack(s, t)[i], n)
    ensures !Stuck(s.cells[n].e)
  {
    hide Trajectory;
  }

  /** A cleanup that passes `_begin` sticks iff the load it cleans up after failed. */
  lemma CleanupSticksIff(run: seq<Action>, t: Tid, c: Choice)
    requires Protocol.Legal(Init, run)
    requires var s := After(Init, run); Begins(s, t) && Top(s, t).op.Cleanup?
    ensures var s := After(Init, run);
            var n := Top(s, t).name;
            && CanRun(s, t, c)
            && (Stuck(Next(s, Run(t, c)).cells[n].e) <==> s.cells[n].e.context.None?)
            && (s.cells[n].e.context.None? ==> s.cells[n].e.state.ERROR?)
  {
    hide After, Protocol.Legal, CellOk, FrameOk, Inv, Trajectory;
    Reachable(run);
    var s := After(Init, run);
    BeginFacts(s, t);
    BegunForm(s, t);
    StuckBegun(s, t);
  }

  lemma StuckBegun(s: State, t: Tid)
    requires Inside(s, t) && Top(s, t).op.Cleanup? && MayBegin(Top(s, t).op, s.cells[Top(s, t).name].e)
    requires Rests(s.cells[Top(s, t).name].e)
    ensures var n := Top(s, t).name;
            var e := s.cells[n].e;
            var mid := WithEntry(s, n, BegunEntry(Cleanup, e, t), |Stack(s, t)| - 1);
            && (e.context.Some? ==> !Stuck(StartCallback(mid, t, CleaningUp).cells[n].e))
            && (e.context.None? ==> e.state.ERROR? && Stuck(ToStage(mid, t, Leaving(Raised)).cells[n].e))
  {
  }

  /** Some reload of the entry runs its refresh. */
  ghost predicate BeingRefreshed(s: State, n: Name) {
    exists t, i: nat | i < |Stack(s, t)| :: Refreshing(Stack(s, t)[i]) && Stack(s, t)[i].name == n
  }

  /**
   * A stuck entry refuses every operation of every thread forever, including unload
   * and close. Only a refresh of its own reload, already running when it stuck, could
   * still release it, by raising.
   */
  lemma {:induction false} StuckForever(s: State, run: seq<Action>, n: Name)
    requires Inv(s) && Protocol.Legal(s, run)
    requires n in s.cells && Stuck(s.cells[n].e) && !BeingRefreshed(s, n)
    ensures n in After(s, run).cells && Stuck(After(s, run).cells[n].e) && !After(s, run).closedOk
    decreases |run|
  {
    hide CellOk, FrameOk, Next, Enabled, BeingRefreshed;
    if run != [] {
      StuckStep(s, run[0], n);
      StaysUnrefreshed(s, run[0], n);
      NextKeeps(s, run[0]);
      StuckForever(Next(s, run[0]), run[1..], n);
    }
  }

  lemma StuckStep(s: State, a: Action, n: Name)
    requires Inv(s) && Enabled(s, a) && n in s.cells && Stuck(s.cells[n].e) && !BeingRefreshed(s, n)
    ensures n in Next(s, a).cells && Stuck(Next(s, a).cells[n].e)
  {
    hide Inv, Next, CanRun, FrameOk, CellOk;
    if a.Run? && Acts(s, a.t, n) {
      ActsAreFramed(s, a.t, n);
      TopUnrefreshed(s, a.t, n);
      if Begun(Top(s, a.t), n) {
        StuckIsIdle(s, n, a.t, |Stack(s, a.t)| - 1);
      }
    }
    NotActing(s, a, n);
  }

  lemma TopUnrefreshed(s: State, t: Tid, n: Name)
    requires Stack(s, t) != [] && !BeingRefreshed(s, n)
    ensures Refreshing(Top(s, t)) ==> Top(s, t).name != n
  {
    assert Top(s, t) == Stack(s, t)[|Stack(s, t)| - 1];
  }

  /** A reload does not reach its refresh while its entry is stuck. */
  lemma StaysUnrefreshed(s: State, a: Action, n: Name)
    requires Inv(s) && Enabled(s, a) && n in s.cells && Stuck(s.cells[n].e) && !BeingRefreshed(s, n)
    ensures !BeingRefreshed(Next(s, a), n)
  {
    hide Inv, Next, CanRun, Stuck, Turned, MayTurn, Starting;
    forall u, i: nat | i < |Stack(Next(s, a), u)| && Refreshing(Stack(Next(s, a), u)[i])
      ensures Stack(Next(s, a), u)[i].name != n
    {
      if u == a.t && a.Run? {
        assert Stack(s, u) != [] by { HasTop(s, a); }
        var turn := RunTurns(s, u, a.choice);
        TurnUnrefreshed(s, u, turn, i, n);
      } else if u == a.t && a.StartOp? {
        StartUnrefreshed(s, a, i);
        assert !Refreshing(Stack(s, u)[i]) || Stack(s, u)[i].name != n;
      } else {
        OtherStacks(s, a, u);
        assert !Refreshing(Stack(s, u)[i]) || Stack(s, u)[i].name != n;
      }
    }
  }

  lemma StartUnrefreshed(s: State, a: Action, i: nat)
    requires Enabled(s, a) && a.StartOp? && i < |Stack(Next(s, a), a.t)| && Refreshing(Stack(Next(s, a), a.t)[i])
    ensures i < |Stack(s, a.t)| && Stack(Next(s, a), a.t)[i] == Stack(s, a.t)[i]
  {
    assert Stack(Next(s, a), a.t) == Stack(s, a.t) + [a.f];
  }

  lemma TurnUnrefreshed(s: State, t: Tid, turn: Turn, i: nat, n: Name)
    requires Inv(s) && n in s.cells && Stuck(s.cells[n].e) && !BeingRefreshed(s, n)
    requires Stack(s, t) != [] && MayTurn(Top(s, t), turn)
    requires i < |Turned(Stack(s, t), turn)| && Refreshing(Turned(Stack(s, t), turn)[i])
    ensures Turned(Stack(s, t), turn)[i].name != n
  {
    hide CellOk, Unwind, Resume, Underway, Locked, Before;
    var stack := Stack(s, t);
    assert i < |stack| ==> !Refreshing(stack[i]) || stack[i].name != n;
    if turn.GoBack? {
      UnwindLength(stack, turn.r);
      UnwindAt(stack, turn.r, i);
      if i == |stack| - 2 {
        assert FrameOk(s, t, i) && FrameOk(s, t, i + 1);
        UnloadedRefreshes(stack[i], Top(s, t), turn.r);
      }
    }
  }

  /** A refresh starts when the unload that its reload awaited has succeeded. */
  lemma UnloadedRefreshes(p: Frame, f: Frame, r: Ret)
    requires Returning(f, r) && (Awaits(p).Some? ==> f.PrimFrame? && Awaits(p).value == (f.op, f.name))
    requires Refreshing(Resume(p, r))
    ensures Resume(p, r) == p || (f.PrimFrame? && f.stage == Leaving(r) && Succeeded(r) && f.name == Resume(p, r).name)
  {
  }

  lemma ActsAreFramed(s: State, t: Tid, n: Name)
    requires Inv(s) && n in s.cells && Acts(s, t, n)
    ensures FrameOk(s, t, |Stack(s, t)| - 1)
  {
    hide CellOk;
    assert FrameOk(s, t, |Stack(s, t)| - 1);
  }

  // ------------------------------------------------------------ a refresh that raises

  /** The state in which a refresh has raised. */
  function Raise(s: State, t: Tid): State
    requires Stack(s, t) != [] && Refreshing(Top(s, t))
  {
    RunReload(s, t, Plain)
  }

  /**
   * A refresh that raises leaves its entry UNLOADED. That keeps the table of states
   * iff the entry holds no context then; if it holds one, the entry has lost it.
   */
  lemma RefreshMayRaiseIff(run: seq<Action>, t: Tid)
    requires Protocol.Legal(Init, run)
    requires var s := After(Init, run); Stack(s, t) != [] && Refreshing(Top(s, t))
    ensures var s := After(Init, run);
            var n := Top(s, t).name;
            && n in s.cells && n in Raise(s, t).cells
            && var e := Raise(s, t).cells[n].e;
               && e.state.UNLOADED? && e.transition.None? && e.context == s.cells[n].e.context
               && (Quiet(e) <==> s.cells[n].e.context.None?)
               && (Raise(s, t).cells[n].lost <==> s.cells[n].lost || s.cells[n].e.context.Some?)
  {
    hide After, Protocol.Legal, Inv;
    Reachable(run);
    var s := After(Init, run);
    RefreshIsAlone(s, t);
  }

  lemma LostStep(s: State, a: Action, n: Name)
    requires Inv(s) && Enabled(s, a) && n in s.cells && s.cells[n].lost
    ensures n in Next(s, a).cells && Next(s, a).cells[n].lost
  {
    hide Inv, CanRun;
    if a.Run? {
      hide Next, Turned, MayTurn;
      HasTop(s, a);
      var _ := RunTurns(s, a.t, a.choice);
    }
  }

  /** No step of the run acts on the entry. */
  predicate Spared(s: State, run: seq<Action>, n: Name)
    requires Protocol.Legal(s, run)
    decreases |run|
  {
    run == [] ||
      (n in s.cells && (run[0].Run? ==> !Acts(s, run[0].t, n)) && Spared(Next(s, run[0]), run[1..], n))
  }

  /** A refresh that does not operate on its own entry meets it without a context at its end. */
  lemma {:induction false} SparedKeepsContext(s: State, run: seq<Action>, n: Name)
    requires Inv(s) && Protocol.Legal(s, run) && n in s.cells && Spared(s, run, n)
    ensures n in After(s, run).cells && After(s, run).cells[n].e.context == s.cells[n].e.context
    decreases |run|
  {
    hide Inv, Next, Enabled, Acts;
    if run != [] {
      NotActing(s, run[0], n);
      NextKeeps(s, run[0]);
      SparedKeepsContext(Next(s, run[0]), run[1..], n);
    }
  }

  // ----------------------------------------------------- generations and loans

  /**
   * Every borrow that ever succeeded was given the context of the generation it
   * was checked against, and different generations are different contexts: a
   * token never revives after a reload.
   */
  lemma LoansNameTheirContext(run: seq<Action>, i: nat, j: nat)
    requires Protocol.Legal(Init, run) && i < |After(Init, run).loans| && j < |After(Init, run).loans|
    ensures var s := After(Init, run);
            var a, b := s.loans[i], s.loans[j];
            && a.name in s.cells && 1 <= a.generation <= s.cells[a.name].e.generation == |s.cells[a.name].built|
            && a.context == s.cells[a.name].built[a.generation - 1]
            && (a.name == b.name ==> (a.context == b.context <==> a.generation == b.generation))
  {
    hide CellOk, FrameOk, After, Protocol.Legal;
    Reachable(run);
    var s := After(Init, run);
    assert LoanOk(s, s.loans[i]) && LoanOk(s, s.loans[j]);
    CellOf(s, s.loans[i].name);
    CellFacts(s, s.loans[i].name);
  }

  /** In an active entry that no operation is under way on, every instance of the tree is started. */
  lemma ActiveIsStarted(run: seq<Action>, n: Name)
    requires Protocol.Legal(Init, run) && n in After(Init, run).cells
    requires var e := After(Init, run).cells[n].e; e.state.ACTIVE? && e.transition.None?
    ensures var s := After(Init, run);
            var e := s.cells[n].e;
            && e.context.Some? && e.context.value in s.contexts && AllStarted(s.contexts[e.context.value].tree)
  {
    hide FrameOk, After, Protocol.Legal, CellOk, AllStarted;
    Reachable(run);
    CellOf(After(Init, run), n);
    CellFacts(After(Init, run), n);
  }

  /**
   * When a borrow is granted: exactly to an idle thread or from inside foreign code, of the
   * current generation or of any, while the gate is open, if the entry has a local root.
   */
  lemma BorrowGrantedIff(run: seq<Action>, t: Tid, n: Name, generation: Option<nat>)
    requires Protocol.Legal(Init, run)
    ensures var s := After(Init, run);
            Enabled(s, Borrow(t, n, generation)) <==>
              && (Stack(s, t) == [] || CallsOut(Top(s, t)))
              && n in s.cells && s.cells[n].e.gate
              && (generation.Some? ==> generation.value == s.cells[n].e.generation)
              && RootClass(s, n).Some?
  {
    hide FrameOk, After, Protocol.Legal, CellOk;
    Reachable(run);
    if n in After(Init, run).cells {
      CellOf(After(Init, run), n);
      CellFacts(After(Init, run), n);
    }
  }

  /**
   * What a borrow hands out: the root of the context loaded as the current generation,
   * which was started and has not been stopped since.
   */
  lemma BorrowLendsCurrent(run: seq<Action>, a: Action)
    requires Protocol.Legal(Init, run) && Enabled(After(Init, run), a) && a.Borrow?
    ensures var s := After(Init, run);
            var e := s.cells[a.n].e;
            var s' := Next(s, a);
            && s'.loans == s.loans + [Loan(a.n, e.generation, e.context.value)]
            && (a.generation.Some? ==> a.generation.value == e.generation)
            && 1 <= e.generation == |s.cells[a.n].built| && e.context.value == s.cells[a.n].built[e.generation - 1]
            && s.contexts[e.context.value].home == a.n && s.contexts[e.context.value].tree.plugin.Some?
            && s.contexts[e.context.value].tree.outstanding
            && s'.cells[a.n].e.inFlight == e.inFlight + 1
  {
    hide CellOk, FrameOk, After, Protocol.Legal;
    Reachable(run);
    CellOf(After(Init, run), a.n);
    CellFacts(After(Init, run), a.n);
  }

  // --------------------------------------------------------------------- close

  lemma {:induction false} ClosedStays(s: State, run: seq<Action>)
    requires Inv(s) && s.closedOk && Protocol.Legal(s, run)
    ensures After(s, run).closedOk && Inv(After(s, run))
    decreases |run|
  {
    hide Inv, Next, Enabled;
    if run != [] {
      ClosedStep(s, run[0]);
      NextKeeps(s, run[0]);
      ClosedStays(Next(s, run[0]), run[1..]);
    }
  }

  /** Success of `close` is never taken back. */
  lemma ClosedStep(s: State, a: Action)
    requires Inv(s) && Enabled(s, a)
    ensures s.closedOk ==> Next(s, a).closedOk
  {
    hide Inv, RunPrim, RunSwitch, RunReload, RunClose, Idle, Effects.Local, CanRun;
    if a.Run? {
      HasTop(s, a);
      match Top(s, a.t) {
        case PrimFrame(_, n, _) => PrimClosed(s, a.t, a.choice);
        case SwitchFrame(_, _, _, _, _) => SwitchIdle(s, a.t); IdleFlags(s, RunSwitch(s, a.t));
        case ReloadFrame(_, _, _, _, _, _, _, _) => ReloadClosed(s, a.t, a.choice);
        case CloseFrame(_, _, _, _) => CloseIdle(s, a.t);
      }
    }
  }

  lemma ReloadClosed(s: State, t: Tid, c: Choice)
    requires Stack(s, t) != [] && Top(s, t).ReloadFrame?
    ensures RunReload(s, t, c).closedOk == s.closedOk
  {
    if Top(s, t).rl.RRefreshing? && !c.refreshed && Top(s, t).name in s.cells {
    } else {
      hide RunReload;
      ReloadIdle(s, t, c);
    }
  }

  lemma PrimClosed(s: State, t: Tid, c: Choice)
    requires Inv(s) && CanRun(s, t, c) && Top(s, t).PrimFrame?
    ensures RunPrim(s, t, c).closedOk == s.closedOk
  {
    hide Inv, RunLookup, RunCheck, RunBegin, RunBuilding, RunDrain, RunCallback, Return, Effects.Local, CellOk, FrameOk;
    var f := Top(s, t);
    if f.stage.Lookup? {
      LookupClosed(s, t);
    } else {
      InsideFacts(s, t);
      CellFacts(s, f.name);
      match f.stage {
        case Check => CheckLeft(s, t, f.name);
        case Begin => BeginLocal(s, t); LocalFlags(s, RunBegin(s, t), f.name);
        case Building => NextIsFresh(s); BuildingLocal(s, t, c); LocalFlags(s, RunBuilding(s, t, c), f.name);
        case Drain => DrainLocal(s, t); LocalFlags(s, RunDrain(s, t), f.name);
        case Running(_) => CallbackEffect(s, t, c); LocalFlags(s, RunCallback(s, t, c), f.name);
        case Leaving(r) => ReturnIdle(s, t, r);
        case _ =>
      }
    }
  }

  lemma LookupClosed(s: State, t: Tid)
    requires Stack(s, t) != [] && Top(s, t).PrimFrame?
    ensures RunLookup(s, t).closedOk == s.closedOk
  {
    hide Return;
    ReturnIdle(s, t, Raised);
    ReturnIdle(s, t, Ret(false, None));
  }

  /**
   * Once some `close()` returned success, every entry that exists then or at any
   * later time is unloaded, has no context and nothing in flight, whatever any
   * thread does afterwards, including loads that had passed their first check.
   */
  lemma CloseIsFinal(run: seq<Action>, later: seq<Action>, n: Name)
    requires Protocol.Legal(Init, run) && After(Init, run).closedOk
    requires Protocol.Legal(After(Init, run), later)
    requires n in After(After(Init, run), later).cells
    ensures var e := After(After(Init, run), later).cells[n].e;
            && e.state.UNLOADED? && e.context.None? && e.inFlight == 0 && e.callers == map[] && !e.gate
            && (e.transition.None? || e.transition == Some(OpUnload))
  {
    hide CellOk, FrameOk, After, Protocol.Legal;
    Reachable(run);
    ClosedStays(After(Init, run), later);
    var s := After(After(Init, run), later);
    CellOf(s, n);
    CellFacts(s, n);
    NoCallers(s.cells[n].e);
  }

  // ------------------------------------------------ adapted components and `activate`

  /** An activation was attempted on a tree that contains an adapted component. */
  predicate Trapped(s: State, n: Name) {
    && n in s.cells && s.cells[n].e.mayBeActive && s.cells[n].e.context.Some?
    && s.cells[n].e.context.value in s.contexts
    && s.contexts[s.cells[n].e.context.value].home == n
    && !AllNative(s.contexts[s.cells[n].e.context.value].tree)
  }

  lemma {:induction false} ShapeNative(a: Tree, b: Tree)
    requires Shape(a) == Shape(b)
    ensures AllNative(a) == AllNative(b)
    decreases a, 1
  {
    ShapesNative(a.kids, b.kids);
  }

  lemma {:induction false} ShapesNative(a: seq<Tree>, b: seq<Tree>)
    requires Shapes(a) == Shapes(b)
    ensures AllNativeKids(a) == AllNativeKids(b)
    decreases a, 0
  {
    assert |Shapes(a)| == |a| && |Shapes(b)| == |b|;
    if a != [] {
      var n := |a| - 1;
      assert Shapes(a)[n] == Shape(a[n]) && Shapes(b)[n] == Shape(b[n]);
      assert Shapes(a)[..n] == Shapes(a[..n]) && Shapes(b)[..n] == Shapes(b[..n]);
      ShapeNative(a[n], b[n]);
      ShapesNative(a[..n], b[..n]);
    }
  }

  /**
   * After an activation was attempted on a tree with an adapted component, no
   * run ever gets the entry out of that condition again, unless a refresh raises
   * over it: it stays possibly active, so it is never cleaned up or unloaded and
   * `close` never succeeds.
   */
  lemma {:induction false} AdaptedActivationIsTerminal(s: State, run: seq<Action>, n: Name)
    requires Inv(s) && Protocol.Legal(s, run) && n in s.cells && (s.cells[n].lost || Trapped(s, n))
    ensures n in After(s, run).cells
    ensures After(s, run).cells[n].lost ||
            (Trapped(After(s, run), n) && !After(s, run).cells[n].e.state.UNLOADED? && !After(s, run).closedOk)
    decreases |run|
  {
    hide CellOk, FrameOk, Next, Enabled, Trapped;
    if run == [] {
      if !s.cells[n].lost {
        TrappedState(s, n);
      }
    } else {
      if s.cells[n].lost {
        LostStep(s, run[0], n);
      } else {
        TrappedStep(s, run[0], n);
      }
      NextKeeps(s, run[0]);
      AdaptedActivationIsTerminal(Next(s, run[0]), run[1..], n);
    }
  }

  lemma TrappedState(s: State, n: Name)
    requires Inv(s) && Trapped(s, n) && !s.cells[n].lost
    ensures !s.cells[n].e.state.UNLOADED? && !s.closedOk
  {
    hide FrameOk, AllNative, Trajectory;
    assert CellOk(s, n);
  }

  lemma TrappedStep(s: State, a: Action, n: Name)
    requires Inv(s) && Enabled(s, a) && Trapped(s, n) && !s.cells[n].lost
    ensures n in Next(s, a).cells && (Next(s, a).cells[n].lost || Trapped(Next(s, a), n))
  {
    hide Inv, Next, CanRun, FrameOk, CellOk, AllNative, Effects.Local;
    CellOf(s, n);
    if a.Run? && Stack(s, a.t) != [] && Refreshing(Top(s, a.t)) && Top(s, a.t).name == n {
      if a.choice.refreshed {
        RefreshedIdle(s, a);
        IdleLeft(s, Next(s, a), n);
      } else {
        RaisedLoses(s, a);
      }
    } else if a.Run? && Acts(s, a.t, n) {
      HasTop(s, a);
      ActsAreFramed(s, a.t, n);
      TrappedActs(s, a, n);
    } else {
      NotActing(s, a, n);
    }
  }

  lemma RaisedLoses(s: State, a: Action)
    requires a.Run? && Enabled(s, a) && Stack(s, a.t) != [] && Refreshing(Top(s, a.t)) && !a.choice.refreshed
    requires Top(s, a.t).name in s.cells && s.cells[Top(s, a.t).name].e.context.Some?
    ensures var n := Top(s, a.t).name;
            n in Next(s, a).cells && Next(s, a).cells[n].lost
  {
  }

  /** A refresh that does not raise changes no entry. */
  lemma RefreshedIdle(s: State, a: Action)
    requires a.Run? && Enabled(s, a) && Stack(s, a.t) != [] && Refreshing(Top(s, a.t)) && a.choice.refreshed
    ensures Idle(s, Next(s, a))
  {
    hide Idle, RunReload;
    ReloadIdle(s, a.t, a.choice);
  }

  /** The trees and homes of all contexts are as before. */
  predicate TreesKept(s: State, s': State) {
    forall c | c in s.contexts ::
      c in s'.contexts && s'.contexts[c].tree == s.contexts[c].tree && s'.contexts[c].home == s.contexts[c].home
  }

  lemma TrappedActs(s: State, a: Action, n: Name)
    requires Inv(s) && Enabled(s, a) && a.Run? && Trapped(s, n) && Acts(s, a.t, n)
    requires FrameOk(s, a.t, |Stack(s, a.t)| - 1) && CellOk(s, n) && !Refreshing(Top(s, a.t)) && !s.cells[n].lost
    ensures Trapped(Next(s, a), n)
  {
    hide Inv, RunBegin, RunDrain, RunCallback, AllNative, Trajectory, Effects.Local, Perform;
    var t := a.t;
    var f := Top(s, t);
    CellFacts(s, n);
    assert f.PrimFrame? && Inside(s, t);
    match f.stage {
      case Begin => TrappedBegin(s, t);
      case Drain => DrainTrees(s, t);
      case Running(k) =>
        CallbackEffect(s, t, a.choice);
        TrappedCallback(s, t, a.choice);
      case _ =>
    }
  }

  /** Only a stop, or a refusal, can begin on the entry. */
  lemma TrappedBegin(s: State, t: Tid)
    requires Inside(s, t) && Top(s, t).stage.Begin? && Trapped(s, Top(s, t).name) && !s.cells[Top(s, t).name].lost
    requires CellOk(s, Top(s, t).name) && PrimOk(s, t, |Stack(s, t)| - 1, Top(s, t))
    ensures Trapped(RunBegin(s, t), Top(s, t).name)
  {
    hide AllNative, Linked, History, HeldIn, Counted, Witnessed, StartCallback, Underway, CellOk, Allowed;
    CellFacts(s, Top(s, t).name);
    if !Refuses(s.cells[Top(s, t).name].e, t, s.closing, Allowed(Top(s, t).op), Top(s, t).op.Unload?) {
      StopBegins(s, t);
    }
  }

  lemma StopBegins(s: State, t: Tid)
    requires Begins(s, t) && CellOk(s, Top(s, t).name) && PrimOk(s, t, |Stack(s, t)| - 1, Top(s, t))
    requires s.cells[Top(s, t).name].e.mayBeActive && !s.cells[Top(s, t).name].lost
    ensures Top(s, t).op.Deactivate? || Top(s, t).op.Unload?
  {
    hide Linked, History, HeldIn, Counted, Witnessed, Underway;
  }

  lemma SameTrees(s: State, s': State)
    requires s'.contexts == s.contexts
    ensures TreesKept(s, s')
  {
  }

  lemma StartTrees(s: State, mid: State, t: Tid, k: Callback)
    requires Stack(mid, t) != [] && Top(mid, t).PrimFrame? && Top(mid, t).name in mid.cells
    requires mid.contexts == s.contexts
    ensures TreesKept(s, StartCallback(mid, t, k)) && StartCallback(mid, t, k).cells == mid.cells
  {
  }

  lemma DrainTrees(s: State, t: Tid)
    requires Inside(s, t)
    ensures TreesKept(s, RunDrain(s, t)) && RunDrain(s, t).cells == s.cells
  {
    hide StartCallback, TreesKept;
    forall k ensures TreesKept(s, StartCallback(s, t, k)) && StartCallback(s, t, k).cells == s.cells {
      StartTrees(s, s, t, k);
    }
    forall s': State | s'.contexts == s.contexts ensures TreesKept(s, s') {
      SameTrees(s, s');
    }
  }

  lemma TrappedCallback(s: State, t: Tid, c: Choice)
    requires Inside(s, t) && Top(s, t).stage.Running? && Trapped(s, Top(s, t).name)
    requires MayRun(Top(s, t).op, Top(s, t).stage.callback, s.cells[Top(s, t).name].e)
    requires WellFormed(s.contexts[s.cells[Top(s, t).name].e.context.value].tree)
    requires Top(s, t).stage.callback.Activating? ==> Owing(s.contexts[s.cells[Top(s, t).name].e.context.value].tree) == []
    ensures var f := Top(s, t);
            var e := s.cells[f.name].e;
            var k := f.stage.callback;
            var r := Perform(c.outside, k, s.contexts[e.context.value].tree, if f.op.Activate? then f.op.state else None);
            && Settle(e, k, r.error.None?) == e
            && !AllNative(r.tree)
  {
    hide AllNative, WellFormed, Owing, ActivateTree, DeactivateTree, Shape;
    var f := Top(s, t);
    var tree := s.contexts[s.cells[f.name].e.context.value].tree;
    var o, state := c.outside, if f.op.Activate? then f.op.state else None;
    if f.stage.callback.Activating? {
      if ActivateTree(o.oracle, o.history, tree, state).error.None? {
        StartTheorems.ActivateSucceeds(o.oracle, o.history, tree, state);
      } else {
        var _, _, _ := StartTheorems.ActivateFails(o.oracle, o.history, tree, state);
      }
      ShapeNative(ActivateTree(o.oracle, o.history, tree, state).tree, tree);
    } else {
      DeactivatePass(o.oracle, o.history, tree);
      ShapeNative(DeactivateTree(o.oracle, o.history, tree).tree, tree);
    }
  }
}
