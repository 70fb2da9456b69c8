/** Runs from the initial state that reach the states in which a guarantee fails. */
module Witnesses {
  import opened Lifecycle
  import opened Plugins
  import opened ContextTree
  import opened StopTheorems
  import opened Names
  import opened Entries
  import opened Protocol
  import opened Invariant
  import opened PrimSteps
  import opened AllSteps
  import opened Operations
  import opened Runs
  import opened Undisturbed
  import opened Staging
  import OperationTheorems
  import Safety

  /** A component with one local instance. */
  const LEAF: Tree := Node(0, Some(PluginClass(None)), None, false, false, [])

  /** A component behind a runtime in another process. */
  const ADAPTED: Tree := Node(0, None, Some(0), false, false, [])

  lemma TreesAreNew()
    ensures NewTree(LEAF) && NewTree(ADAPTED) && AllNative(LEAF) && !AllNative(ADAPTED)
  {
  }

  // ----------------------------------------------------- what single operations do

  function Loaded(id: ContextId): Entry {
    Entry("c", Some(id), 1, UNCONFIGURED, None, None, true, false, 0, map[], false, false)
  }

  function Configured(id: ContextId): Entry {
    Loaded(id).(state := INACTIVE, configured := true)
  }

  function Running(id: ContextId): Entry {
    Configured(id).(state := ACTIVE, mayBeActive := true, gate := true)
  }

  lemma LoadOutcome(t: Tid, tree: Tree, id: ContextId)
    ensures LoadOp(Env(t, false, OBLIGING), Held(NewEntry, None), [], Some("c"), Some(tree), id).held == Held(Loaded(id), Some(tree))
    ensures LoadOp(Env(t, false, OBLIGING), Held(NewEntry, None), [], Some("c"), None, id).held
         == Held(NewEntry.(component := "c", state := ERROR, lastOk := false), None)
  {
  }

  lemma ConfigureOutcome(t: Tid, tree: Tree, id: ContextId)
    requires tree.kids == [] && Steady(Held(Loaded(id), Some(tree)))
    ensures ConfigureOp(Env(t, false, OBLIGING), Held(Loaded(id), Some(tree)), []).held == Held(Configured(id), Some(tree))
  {
    assert ConfigureKids(OBLIGING, [], tree.kids) == KidsResult([], [], None, 0);
    assert ConfigureTree(OBLIGING, [], tree).error.None? && ConfigureTree(OBLIGING, [], tree).tree == tree;
  }

  lemma ActivateOutcome(t: Tid, id: ContextId)
    requires Steady(Held(Configured(id), Some(LEAF)))
    ensures ActivateOp(Env(t, false, OBLIGING), Held(Configured(id), Some(LEAF)), [], None).held
         == Held(Running(id), Some(LEAF.(outstanding := true)))
  {
  }

  lemma AdaptedOutcome(t: Tid, id: ContextId)
    requires Steady(Held(Configured(id), Some(ADAPTED)))
    ensures ActivateOp(Env(t, false, OBLIGING), Held(Configured(id), Some(ADAPTED)), [], None).held
         == Held(Running(id).(state := ERROR, gate := false, lastOk := false), Some(ADAPTED))
  {
  }

  lemma CleanupOutcome(t: Tid)
    requires Steady(Held(NewEntry.(component := "c", state := ERROR, lastOk := false), None))
    ensures Stuck(CleanupOp(Env(t, false, OBLIGING), Held(NewEntry.(component := "c", state := ERROR, lastOk := false), None), []).held.e)
  {
  }

  // ----------------------------------------------------------------- short runs

  /** A thread loads and configures a new entry. */
  lemma Prepares(s: State, t: Tid, n: Name, tree: Tree) returns (s': State)
    requires Inv(s) && AllIdle(s) && n !in s.cells && !Blank(n) && !s.closing && NewTree(tree) && tree.kids == []
    ensures Worked(s, s', t, n, Held(Configured(s.next), Some(tree)))
    ensures Inv(s') && AllIdle(s') && s'.cells[n].owner.None?
  {
    hide Inv, Worked, NewTree, AllIdle, Steady;
    var s1 := Loads(s, t, n, "c", Some(tree));
    LoadOutcome(t, tree, s.next);
    WorkedFacts(s, s1, t, n, Held(Loaded(s.next), Some(tree)));
    s' := Performs(s1, t, n, Configure, OBLIGING, None);
    ConfigureOutcome(t, tree, s.next);
    WorkedOn(s, s1, s', t, n, Held(Loaded(s.next), Some(tree)), Held(Configured(s.next), Some(tree)));
  }

  lemma WorkedFacts(s: State, s': State, t: Tid, n: Name, held: Held)
    requires Worked(s, s', t, n, held)
    ensures n in s'.cells && HeldNow(s', n) == held && s'.cells[n].e == held.e && s'.closing == s.closing
  {
  }

  /** A thread loads, configures and activates a new entry. */
  lemma Opens(s: State, t: Tid, n: Name) returns (s': State)
    requires Inv(s) && AllIdle(s) && n !in s.cells && !Blank(n) && !s.closing
    ensures Worked(s, s', t, n, Held(Running(s.next), Some(LEAF.(outstanding := true))))
    ensures Inv(s') && AllIdle(s') && s'.cells[n].owner.None?
  {
    hide Inv, Worked, NewTree, AllIdle, Steady;
    TreesAreNew();
    var s1 := Prepares(s, t, n, LEAF);
    WorkedFacts(s, s1, t, n, Held(Configured(s.next), Some(LEAF)));
    s' := Performs(s1, t, n, Activate(None), OBLIGING, None);
    ActivateOutcome(t, s.next);
    WorkedOn(s, s1, s', t, n, Held(Configured(s.next), Some(LEAF)), Held(Running(s.next), Some(LEAF.(outstanding := true))));
  }

  lemma RunTo(s: State) returns (run: seq<Action>)
    requires Leads(Init, s)
    ensures Protocol.Legal(Init, run) && After(Init, run) == s
  {
    run :| Protocol.Legal(Init, run) && After(Init, run) == s;
  }

  lemma InitIdle()
    ensures AllIdle(Init)
  {
  }

  lemma LetterNames()
    ensures !Blank("a") && !Blank("b") && "a" != "b" && Before("a", "b")
  {
    assert "a"[0] == 'a' && "b"[0] == 'b';
  }

  // ------------------------------------------------------------------- theorems

  /** A load that fails and a cleanup after it leave an entry stuck for ever. */
  lemma StuckIsReached() returns (s: State)
    ensures Leads(Init, s) && "a" in s.cells && Stuck(s.cells["a"].e) && !Safety.BeingRefreshed(s, "a") && AllIdle(s)
  {
    hide Inv, NewTree, Steady;
    InitInv();
    InitIdle();
    LetterNames();
    var s1 := Loads(Init, 1, "a", "c", None);
    LoadOutcome(1, LEAF, 0);
    s := Performs(s1, 1, "a", Cleanup, OBLIGING, None);
    CleanupOutcome(1);
    LeadsOn(Init, s1, s);
  }

  /** An activation of an adapted component can never be undone. */
  lemma TrappedIsReached() returns (s: State)
    ensures Leads(Init, s) && Safety.Trapped(s, "a") && AllIdle(s)
  {
    hide Inv, NewTree, Steady, AllNative;
    InitInv();
    InitIdle();
    LetterNames();
    TreesAreNew();
    var s1 := Prepares(Init, 1, "a", ADAPTED);
    s := Performs(s1, 1, "a", Activate(None), OBLIGING, None);
    AdaptedOutcome(1, 0);
    LeadsOn(Init, s1, s);
    HomeOf(s, "a");
  }

  lemma HomeOf(s: State, n: Name)
    requires Inv(s) && n in s.cells && s.cells[n].e.context.Some?
    ensures s.cells[n].e.context.value in s.contexts && s.contexts[s.cells[n].e.context.value].home == n
  {
    hide CellOk, FrameOk;
    CellOf(s, n);
    CellFacts(s, n);
  }

  /** Two open entries and only idle threads. */
  lemma TwoOpenAreReached() returns (s: State)
    ensures Leads(Init, s) && AllIdle(s) && !s.closing && Inv(s)
    ensures forall n | n == "a" || n == "b" ::
              n in s.cells && s.cells[n].owner.None? && exists id :: HeldNow(s, n) == Held(Running(id), Some(LEAF.(outstanding := true)))
  {
    hide Inv;
    InitInv();
    InitIdle();
    LetterNames();
    var s1 := Opens(Init, 1, "a");
    s := Opens(s1, 1, "b");
    LeadsOn(Init, s1, s);
    assert HeldNow(s, "a") == Held(Running(0), Some(LEAF.(outstanding := true)));
    assert HeldNow(s, "b") == Held(Running(s1.next), Some(LEAF.(outstanding := true)));
  }

  /** An open gate with a failed last result: an open entry was asked to be configured again. */
  lemma OpenFailureIsReached() returns (s: State)
    ensures Leads(Init, s) && AllIdle(s) && "a" in s.cells
    ensures s.cells["a"].e.gate && s.cells["a"].e.state.ACTIVE? && !s.cells["a"].e.lastOk
  {
    hide Inv, Steady, ConfigureOp;
    var s1 := TwoOpenAreReached();
    s := Performs(s1, 1, "a", Configure, OBLIGING, None);
    OperationTheorems.AskedOfOpenEntry(Env(1, false, OBLIGING), HeldNow(s1, "a"), [], Configure, None, s1.next);
    LeadsOn(Init, s1, s);
  }
}
