/**
 * A run in which a callback runs while a borrow of the same entry is in flight: the
 * entry's refresh had started it again, it was borrowed, and then the refresh raised.
 */
module LostRuns {
  import opened Lifecycle
  import opened Plugins
  import opened ContextTree
  import opened Names
  import opened Entries
  import opened Protocol
  import opened Invariant
  import opened Calls
  import opened PrimSteps
  import opened AllSteps
  import opened Operations
  import opened Runs
  import opened Undisturbed
  import opened Staging
  import opened Witnesses
  import opened SwitchRuns
  import opened ReloadRuns
  import Deadlocks
  import Safety

  /** The refresh configures and activates the instance it has loaded. */
  lemma StartedAgain() returns (s: State, id: ContextId)
    ensures Leads(Init, s) && Inv(s) && OthersIdle(s, 1) && !s.closing && ReloadAt(s, 1, "a", 1, RRefreshing)
    ensures s.cells["a"].owner == Some(1)
    ensures HeldNow(s, "a") == Held(Witnesses.Running(id).(generation := 2), Some(LEAF.(outstanding := true)))
  {
    hide Inv, Leads, Steady, OthersIdle, ConfigureOp, ActivateOp;
    var s1;
    s1, id := LoadedAgain();
    var s2 := RefreshPerforms(s1, 1, "a", Configure, None);
    ConfigureAgain(id);
    s := RefreshPerforms(s2, 1, "a", Activate(None), None);
    ActivateAgain(id);
    LeadsOn(Init, s1, s2);
    LeadsOn(Init, s2, s);
  }

  lemma ConfigureAgain(id: ContextId)
    requires Steady(Held(Loaded(id).(generation := 2), Some(LEAF)))
    ensures ConfigureOp(Env(1, false, OBLIGING), Held(Loaded(id).(generation := 2), Some(LEAF)), []).held
         == Held(Configured(id).(generation := 2), Some(LEAF))
  {
    assert ConfigureKids(OBLIGING, [], LEAF.kids) == KidsResult([], [], None, 0);
  }

  lemma ActivateAgain(id: ContextId)
    requires Steady(Held(Configured(id).(generation := 2), Some(LEAF)))
    ensures ActivateOp(Env(1, false, OBLIGING), Held(Configured(id).(generation := 2), Some(LEAF)), [], None).held
         == Held(Witnesses.Running(id).(generation := 2), Some(LEAF.(outstanding := true)))
  {
  }

  /** The entry once it is borrowed by thread 2 and its refresh has raised. */
  function Relapsed(id: ContextId): Entry {
    Witnesses.Running(id).(generation := 2, state := UNLOADED, gate := false, lastOk := false, inFlight := 1, callers := map[2 := 1])
  }

  /** Thread 2 borrows the instance, the refresh raises, and the reload returns. */
  lemma RaisesWhileLent() returns (s: State, id: ContextId)
    ensures Leads(Init, s) && Inv(s) && AllIdle(s) && !s.closing && "a" in s.cells && s.cells["a"].owner.None?
    ensures s.cells["a"].e == Relapsed(id)
  {
    hide Inv, Leads, OthersIdle;
    var s0;
    s0, id := StartedAgain();
    IdleAndHome(s0, id);
    OneStep(s0, Borrow(2, "a", None));
    var s1 := Next(s0, Borrow(2, "a", None));
    BorrowedFacts(s0, id);
    OneStep(s1, Run(1, Plain));
    var s2 := Next(s1, Run(1, Plain));
    RaisedFacts(s1, id);
    OneStep(s2, Run(1, Plain));
    s := Next(s2, Run(1, Plain));
    ReturnedFacts(s2, id);
    LeadsOn(Init, s0, s1);
    LeadsOn(Init, s1, s2);
    LeadsOn(Init, s2, s);
    LeadsKeeps(s0, s1);
    LeadsKeeps(s1, s2);
    LeadsKeeps(s2, s);
  }

  /** Thread 2 may borrow. */
  lemma IdleAndHome(s: State, id: ContextId)
    requires OthersIdle(s, 1) && "a" in s.cells
    requires HeldNow(s, "a") == Held(Witnesses.Running(id).(generation := 2), Some(LEAF.(outstanding := true)))
    ensures Enabled(s, Borrow(2, "a", None)) && Stack(s, 2) == []
  {
  }

  /** `s` is like this between the refresh and the end of the reload. */
  predicate Rising(s: State, rl: ReloadStage, e: Entry) {
    && Stack(s, 1) == [Reloading("a", 1, rl)] && !s.closing
    && "a" in s.cells && s.cells["a"].e == e && s.cells["a"].owner == Some(1)
  }

  lemma BorrowedFacts(s: State, id: ContextId)
    requires OthersIdle(s, 1) && Rising(s, RRefreshing, Witnesses.Running(id).(generation := 2)) && Enabled(s, Borrow(2, "a", None))
    ensures var s' := Next(s, Borrow(2, "a", None));
            && OthersIdle(s', 1)
            && Rising(s', RRefreshing, Witnesses.Running(id).(generation := 2, inFlight := 1, callers := map[2 := 1]))
            && Enabled(s', Run(1, Plain))
  {
    var s' := Next(s, Borrow(2, "a", None));
    forall u | u != 1 ensures Stack(s', u) == [] {
      assert Stack(s, u) == [];
    }
    assert Stack(s', 1) == Stack(s, 1);
  }

  lemma RaisedFacts(s: State, id: ContextId)
    requires OthersIdle(s, 1)
    requires Rising(s, RRefreshing, Witnesses.Running(id).(generation := 2, inFlight := 1, callers := map[2 := 1]))
    ensures var s' := Next(s, Run(1, Plain));
            && OthersIdle(s', 1) && Rising(s', RLeaving(Ret(false, None)), Relapsed(id)) && Enabled(s', Run(1, Plain))
  {
    var s' := Next(s, Run(1, Plain));
    forall u | u != 1 ensures Stack(s', u) == [] {
      assert Stack(s, u) == [];
    }
    assert Stack(s', 1) == Stack(s, 1)[0 := Reloading("a", 1, RLeaving(Ret(false, None)))];
  }

  lemma ReturnedFacts(s: State, id: ContextId)
    requires OthersIdle(s, 1) && Rising(s, RLeaving(Ret(false, None)), Relapsed(id))
    ensures var s' := Next(s, Run(1, Plain));
            && AllIdle(s') && !s'.closing && "a" in s'.cells && s'.cells["a"].e == Relapsed(id) && s'.cells["a"].owner.None?
  {
    hide Return, Unwind, HeldIn;
    var r := Ret(false, None);
    assert Next(s, Run(1, Plain)) == Return(s, 1, r);
    ReturnCells(s, 1, r, "a");
    ReturnSame(s, 1, r);
    UnwindLength(Stack(s, 1), r);
    forall u ensures Stack(Return(s, 1, r), u) == [] {
      ReturnStacks(s, 1, r, u);
    }
    NotHeld("a");
    assert Holds(Top(s, 1), "a");
  }

  lemma LoadsOver(id: ContextId, tree: Option<Tree>, next: ContextId)
    ensures LoadOp(Env(1, false, OBLIGING), Held(Relapsed(id), tree), [], None, Some(LEAF), next).held
         == Held(Loaded(next).(generation := 3, inFlight := 1, callers := map[2 := 1]), Some(LEAF))
  {
  }

  /**
   * A run from the initial state to a configure callback during which a borrow of the
   * same entry is in flight: the entry was loaded over the context that its refresh
   * had started, lent and lost.
   */
  lemma LentDuringCallbackIsReached() returns (s: State)
    ensures Leads(Init, s) && Stack(s, 1) == [PrimFrame(Configure, "a", Protocol.Running(Configuring))]
    ensures "a" in s.cells && s.cells["a"].e.inFlight == 1 && s.cells["a"].lost
  {
    hide Inv, Leads, LoadOp, AllIdle, Protocol.Legal, After, Steady, NewTree;
    var s1, id := RaisesWhileLent();
    LetterNames();
    TreesAreNew();
    var s2 := Performs(s1, 1, "a", Load(None), OBLIGING, Some(LEAF));
    LoadsOver(id, HeldNow(s1, "a").tree, s1.next);
    LeadsOn(Init, s1, s2);
    IdleOne(s2);
    s := Deadlocks.Configures(s2, 1, "a");
    LeadsOn(Init, s2, s);
    var run := RunTo(s);
    Safety.NoBorrowDuringCallback(run, 1, 0);
  }

  lemma IdleOne(s: State)
    requires AllIdle(s)
    ensures Stack(s, 1) == []
  {
  }
}
