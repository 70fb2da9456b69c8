/** Every step of a single operation keeps the invariant. */
module PrimSteps {
  import opened Lifecycle
  import opened Plugins
  import opened ContextTree
  import opened StopTheorems
  import opened Names
  import opened Entries
  import opened Protocol
  import opened Invariant
  import opened Preservation
  import opened Calls
  import StartTheorems
  import ConfigureTheorems
  import CloseTheorems

  // ------------------------------------------------------- one common shape

  /** The innermost activation of `t` is a single operation that holds its entry's lock. */
  predicate Inside(s: State, t: Tid) {
    && Stack(s, t) != [] && Top(s, t).PrimFrame?
    && !Top(s, t).stage.Lookup? && !Top(s, t).stage.Acquire?
    && Top(s, t).name in s.cells
  }

  lemma InsideFacts(s: State, t: Tid)
    requires Inv(s) && Stack(s, t) != [] && Top(s, t).PrimFrame? && !Top(s, t).stage.Lookup?
    ensures var f := Top(s, t);
            && f.name in s.cells && CellOk(s, f.name)
            && FrameOk(s, t, |Stack(s, t)| - 1) && Chained(Stack(s, t), |Stack(s, t)| - 1)
            && PrimOk(s, t, |Stack(s, t)| - 1, f) && Locked(s.cells, t, f)
            && (Begun(f, f.name) ==> Mine(s, t, f.name))
            && (!f.stage.Acquire? ==> Inside(s, t) && s.cells[f.name].owner == Some(t))
  {
    assert FrameOk(s, t, |Stack(s, t)| - 1);
  }

  /** `s` with a new cell and new contexts for the entry, and a new stage for its operation. */
  function Changed(s: State, t: Tid, cell: Cell, contexts: map<ContextId, Context>, next: ContextId, stage: Stage): State
    requires Inside(s, t)
  {
    ToStage(s.(cells := s.cells[Top(s, t).name := cell], contexts := contexts, next := next), t, stage)
  }

  /** The entry after the step is right by itself. */
  ghost predicate EntryRight(contexts: map<ContextId, Context>, e: Entry, lost: bool, stuckOrBegun: bool) {
    && EntryOk(e, lost)
    && (e.context.Some? ==> e.context.value in contexts && Linked(e, contexts[e.context.value]))
    && (e.transition.Some? ==> stuckOrBegun)
  }

  /** A change made by the thread that may change the entry. */
  lemma ChangeKeeps(s: State, t: Tid, cell: Cell, contexts: map<ContextId, Context>, next: ContextId, stage: Stage)
    requires Inv(s) && Inside(s, t) && Mine(s, t, Top(s, t).name)
    requires cell.owner == Some(t) && !stage.Lookup? && !stage.Acquire?
    requires var f' := Top(s, t).(stage := stage);
             var s' := Changed(s, t, cell, contexts, next, stage);
             && ContextsKept(s, s', f'.name) && Settled(s, s', f'.name)
             && History(s', f'.name)
             && PrimOk(s', t, |Stack(s, t)| - 1, f')
             && EntryRight(contexts, cell.e, cell.lost, Stuck(cell.e) || Begun(f', f'.name))
    ensures Inv(Changed(s, t, cell, contexts, next, stage))
  {
    hide Inv, ContextsKept, Settled, Underway, EntryOk, Linked, Mine, History;
    var f := Top(s, t);
    var f' := f.(stage := stage);
    var s' := Changed(s, t, cell, contexts, next, stage);
    var k := |Stack(s, t)| - 1;
    InsideFacts(s, t);
    assert Stack(s', t) == Stack(s, t)[k := f'];
    assert Locked(s'.cells, t, f');
    assert Chained(Stack(s', t), k);
    assert FrameOk(s', t, k) by { assert f'.PrimFrame?; }
    assert HeldIn(Stack(s', t), f.name) by { assert Holds(Stack(s', t)[k], f.name); }
    assert CellOk(s', f.name) by {
      if cell.e.transition.Some? && !Stuck(cell.e) {
        assert Witnessed(s', f.name);
      }
    }
    assert Replaced(s, s', t, f.name, f');
    assert Touched(s, s', t, f.name);
    ReplaceKeeps(s, s', t, f.name, f');
  }

  /** The operation was refused: at most the last result changes. */
  lemma RejectKeeps(s: State, t: Tid)
    requires Inv(s) && Inside(s, t) && (Top(s, t).stage.Check? || Top(s, t).stage.Begin?)
    ensures var f := Top(s, t);
            Inv(ToStage(SetEntry(s, f.name, Reject(s.cells[f.name].e)), t, Leaving(Ret(false, None))))
  {
    hide Inv, CellOk, Underway, Linked;
    var f := Top(s, t);
    var f' := f.(stage := Leaving(Ret(false, None)));
    var e' := Reject(s.cells[f.name].e);
    var s' := ToStage(SetEntry(s, f.name, e'), t, f'.stage);
    var k := |Stack(s, t)| - 1;
    InsideFacts(s, t);
    assert Stack(s', t) == Stack(s, t)[k := f'];
    assert FrameOk(s', t, k);
    RejectCell(s, s', t, f');
    assert ContextsKept(s, s', f.name) by { NoContexts(s, s', f.name); }
    ReplaceKeeps(s, s', t, f.name, f');
  }

  lemma NoContexts(s: State, s': State, n: Name)
    requires Inv(s) && s'.contexts == s.contexts && s'.next == s.next
    ensures ContextsKept(s, s', n)
  {
    hide CellOk, FrameOk;
    forall c | c in s'.contexts ensures ContextOk(s', c) {
      assert ContextOk(s, c);
    }
  }

  lemma RejectCell(s: State, s': State, t: Tid, f': Frame)
    requires Inside(s, t) && CellOk(s, Top(s, t).name) && !Begun(Top(s, t), Top(s, t).name)
    requires f' == Top(s, t).(stage := Leaving(Ret(false, None)))
    requires s' == ToStage(SetEntry(s, f'.name, Reject(s.cells[f'.name].e)), t, f'.stage)
    ensures CellOk(s', f'.name)
  {
    hide HeldIn, EntryOk;
    var n := f'.name;
    var c, c' := s.cells[n], s'.cells[n];
    assert EntryOk(c'.e, c'.lost) by { SameEntryOk(c.e, c'.e, c.lost); }
    if c.owner.Some? {
      RejectHeld(s, s', t, f', c.owner.value, n);
    }
    if c.e.transition.Some? && !Stuck(c.e) {
      assert Witnessed(s, n);
      assert Witnessed(s', n);
    }
    assert History(s', n);
  }

  lemma SameCounted(e: Entry, e': Entry)
    requires Counted(e) && e'.callers == e.callers && e'.inFlight == e.inFlight
    ensures Counted(e')
  {
  }

  lemma SameEntryOk(e: Entry, e': Entry, lost: bool)
    requires SameCore(e, e') && EntryOk(e, lost)
    ensures EntryOk(e', lost)
  {
    SameCounted(e, e');
  }

  lemma RejectHeld(s: State, s': State, t: Tid, f': Frame, u: Tid, n: Name)
    requires Inside(s, t) && f'.PrimFrame? && f' == Top(s, t).(stage := f'.stage) && !f'.stage.Lookup? && !f'.stage.Acquire?
    requires s'.stacks == s.stacks[t := Stack(s, t)[|Stack(s, t)| - 1 := f']]
    requires HeldIn(Stack(s, u), n)
    ensures HeldIn(Stack(s', u), n)
  {
    var i :| 0 <= i < |Stack(s, u)| && Holds(Stack(s, u)[i], n);
    assert Holds(Stack(s', u)[i], n);
  }

  // ------------------------------------------------------------- stage by stage

  lemma LookupKeeps(s: State, t: Tid)
    requires Inv(s) && Stack(s, t) != [] && Top(s, t).PrimFrame? && Top(s, t).stage.Lookup?
    ensures Inv(RunLookup(s, t))
  {
    hide Inv, Underway;
    var f := Top(s, t);
    TopOk(s, t);
    if f.op.Load? && !Blank(f.name) && !s.closing && f.name !in s.cells {
      CreateKeeps(s, f.name);
      var created := Created(s, f.name);
      assert Top(created, t) == f;
      MoveKeeps(created, t, f.(stage := Acquire));
    } else if f.op.Load? {
      if Blank(f.name) || s.closing {
        ReturnKeeps(s, t, Ret(false, None));
      } else {
        MoveKeeps(s, t, f.(stage := Acquire));
      }
    } else if f.name !in s.cells {
      ReturnKeeps(s, t, Raised);
    } else {
      MoveKeeps(s, t, f.(stage := Acquire));
    }
  }

  function Created(s: State, n: Name): State {
    s.(cells := s.cells[n := EmptyCell], order := s.order + [n])
  }

  lemma CreateKeeps(s: State, n: Name)
    requires Inv(s) && n !in s.cells && !s.closing
    ensures Inv(Created(s, n))
  {
    hide CellOk, FrameOk;
    var s' := Created(s, n);
    NewCell(s, n);
    forall m | m in s'.cells ensures CellOk(s', m) {
      if m != n {
        CreateCell(s, n, m);
      }
    }
    forall u, j: nat | j < |Stack(s', u)| ensures FrameOk(s', u, j) {
      assert Stack(s', u) == Stack(s, u);
      CreateFrame(s, n, u, j);
    }
    forall c | c in s'.contexts ensures ContextOk(s', c) {
      assert ContextOk(s, c);
    }
    forall i | 0 <= i < |s'.loans| ensures LoanOk(s', s'.loans[i]) {
      assert LoanOk(s, s.loans[i]);
    }
  }

  lemma NewCell(s: State, n: Name)
    ensures CellOk(Created(s, n), n)
  {
    assert Counted(NewEntry);
  }

  lemma CreateCell(s: State, n: Name, m: Name)
    requires n !in s.cells && m != n && CellOk(s, m)
    ensures CellOk(Created(s, n), m)
  {
    hide Linked, EntryOk;
    var s' := Created(s, n);
    forall u ensures Stack(s', u) == Stack(s, u) {
    }
    assert Witnessed(s, m) ==> Witnessed(s', m);
    assert History(s', m);
  }

  lemma CreateFrame(s: State, n: Name, u: Tid, j: nat)
    requires n !in s.cells && !s.closing && FrameOk(s, u, j)
    ensures FrameOk(Created(s, n), u, j)
  {
    hide Underway;
    var s' := Created(s, n);
    assert Stack(s', u) == Stack(s, u);
    var f := Stack(s, u)[j];
    if f.PrimFrame? && f.name == n {
      assert f.stage.Lookup?;
    }
  }

  lemma AcquireKeeps(s: State, t: Tid)
    requires Inv(s) && Stack(s, t) != [] && Top(s, t).PrimFrame? && Top(s, t).stage.Acquire?
    requires Top(s, t).name in s.cells && CanLock(s, t, Top(s, t).name)
    ensures var f := Top(s, t);
            Inv(ToStage(Lock(s, t, f.name), t, if f.op.Activate? || f.op.Deactivate? || f.op.Cleanup? then Check else Begin))
  {
    hide Inv, CellOk, Underway, Linked, EntryOk, Before;
    var f := Top(s, t);
    var f' := f.(stage := if f.op.Activate? || f.op.Deactivate? || f.op.Cleanup? then Check else Begin);
    var s' := ToStage(Lock(s, t, f.name), t, f'.stage);
    var k := |Stack(s, t)| - 1;
    InsideFacts(s, t);
    assert Stack(s', t) == Stack(s, t)[k := f'];
    AcquiredFrame(s, s', t, f');
    assert CellOk(s', f.name) by {
      LockCell(s, s', t, f');
    }
    NoContexts(s, s', f.name);
    ReplaceKeeps(s, s', t, f.name, f');
  }

  lemma AcquiredFrame(s: State, s': State, t: Tid, f': Frame)
    requires Stack(s, t) != [] && Top(s, t).PrimFrame? && Top(s, t).stage.Acquire? && Top(s, t).name in s.cells
    requires Chained(Stack(s, t), |Stack(s, t)| - 1)
    requires f' == Top(s, t).(stage := if Top(s, t).op.Activate? || Top(s, t).op.Deactivate? || Top(s, t).op.Cleanup? then Check else Begin)
    requires s' == ToStage(Lock(s, t, f'.name), t, f'.stage)
    ensures FrameOk(s', t, |Stack(s, t)| - 1) && Holds(f', f'.name)
  {
    hide Underway;
    assert Stack(s', t) == Stack(s, t)[|Stack(s, t)| - 1 := f'];
  }

  lemma LockCell(s: State, s': State, t: Tid, f': Frame)
    requires Stack(s, t) != [] && Top(s, t).PrimFrame? && Top(s, t).stage.Acquire? && Top(s, t).name in s.cells
    requires CellOk(s, Top(s, t).name) && f'.PrimFrame? && f' == Top(s, t).(stage := f'.stage)
    requires s' == ToStage(Lock(s, t, f'.name), t, f'.stage) && Holds(f', f'.name)
    ensures CellOk(s', f'.name)
  {
    hide Linked, EntryOk;
    var n := f'.name;
    assert HeldIn(Stack(s', t), n) by { assert Holds(Stack(s', t)[|Stack(s, t)| - 1], n); }
    if s.cells[n].e.transition.Some? && !Stuck(s.cells[n].e) {
      assert Witnessed(s, n);
      assert Witnessed(s', n);
    }
    assert History(s', n);
  }

  lemma CheckKeeps(s: State, t: Tid)
    requires Inv(s) && Inside(s, t) && Top(s, t).stage.Check?
    ensures Inv(RunCheck(s, t))
  {
    hide Inv, Underway, CellOk;
    var f := Top(s, t);
    var e := s.cells[f.name].e;
    InsideFacts(s, t);
    if f.op.Activate? && e.state.ACTIVE? && e.transition.None? && !s.closing {
      MoveKeeps(s, t, f.(stage := Leaving(Ret(true, None))));
    } else if f.op.Deactivate? && e.state.INACTIVE? && e.transition.None? {
      MoveKeeps(s, t, f.(stage := Leaving(Ret(true, None))));
    } else if (f.op.Deactivate? && e.state.ERROR? && !e.mayBeActive) || (f.op.Cleanup? && e.mayBeActive) {
      RejectKeeps(s, t);
    } else {
      MoveKeeps(s, t, f.(stage := Stage.Begin));
    }
  }

  // ------------------------------------------------------- callbacks on contexts

  /** One context of the entry records one more visit, and may have a new tree. */
  lemma OneContext(s: State, s': State, n: Name, c: ContextId, x': Context)
    requires Inv(s) && c in s.contexts && s.contexts[c].home == n && x'.home == n
    requires s'.contexts == s.contexts[c := x'] && s'.next == s.next
    requires Trajectory(x'.visits).Typestate?
    ensures ContextsKept(s, s', n)
  {
    hide CellOk, FrameOk, Trajectory;
    forall d | d in s'.contexts ensures ContextOk(s', d) {
      assert ContextOk(s, d);
      assert ContextOk(s, c);
    }
  }

  lemma KeptHistory(s: State, s': State, n: Name)
    requires n in s.cells && History(s, n) && ContextsKept(s, s', n)
    requires n in s'.cells && s'.cells[n].built == s.cells[n].built
    requires s'.cells[n].e.generation == s.cells[n].e.generation
    requires s'.cells[n].e.context == s.cells[n].e.context || s'.cells[n].e.context.None?
    ensures History(s', n)
  {
  }

  /** A callback starts on the entry's context: `e1` is the entry with the flags set before it. */
  lemma StartCallbackKeeps(s: State, t: Tid, e1: Entry, frame: nat, k: Callback, arg: Option<Value>)
    requires Inv(s) && Inside(s, t) && Mine(s, t, Top(s, t).name)
    requires var f := Top(s, t);
             var cell := s.cells[f.name];
             && e1.context.Some? && e1.context == cell.e.context && e1.generation == cell.e.generation
             && e1.context.value in s.contexts && s.contexts[e1.context.value].home == f.name
             && Linked(cell.e, s.contexts[e1.context.value])
             && Due(Trajectory(s.contexts[e1.context.value].visits), k)
             && e1.transition == Some(OpOf(f.op)) && e1.operationThread == Some(t) && frame == |Stack(s, t)| - 1
             && EntryOk(e1, cell.lost) && MayRun(f.op, k, e1)
             && (f.op.Deactivate? || f.op.Unload? || !cell.lost ==> e1.inFlight == 0)
             && (k.Deactivating? && e1.state.ACTIVE? ==> AllStarted(s.contexts[e1.context.value].tree))
             && e1.configured == (cell.e.configured || k.Configuring?)
             && e1.mayBeActive == (cell.e.mayBeActive || k.Activating?)
             && (s.closing ==> !Stable(cell.e))
    ensures var f := Top(s, t);
            var x := s.contexts[e1.context.value];
            Inv(Changed(s, t, s.cells[f.name].(e := e1, frame := frame),
              s.contexts[e1.context.value := x.(visits := x.visits + [Started(k, arg)])], s.next, Running(k)))
  {
    hide Inv, EntryOk, FrameOk, Trajectory, Stable;
    var f := Top(s, t);
    var n := f.name;
    var c := e1.context.value;
    var x := s.contexts[c];
    var x' := x.(visits := x.visits + [Started(k, arg)]);
    var cell := s.cells[n].(e := e1, frame := frame);
    var s' := Changed(s, t, cell, s.contexts[c := x'], s.next, Running(k));
    InsideFacts(s, t);
    TrajectoryNext(x.visits, Started(k, arg));
    OneContext(s, s', n, c, x');
    KeptHistory(s, s', n);
    assert Linked(e1, x');
    assert PrimOk(s', t, |Stack(s, t)| - 1, f.(stage := Running(k)));
    ChangeKeeps(s, t, cell, s.contexts[c := x'], s.next, Running(k));
  }

  // --------------------------------------------------------------------- begin

  function WithEntry(s: State, n: Name, e: Entry, frame: nat): State
    requires n in s.cells
  {
    s.(cells := s.cells[n := s.cells[n].(e := e, frame := frame)])
  }

  /** The entry after `_begin` and the code up to the next section. */
  function BegunEntry(op: Prim, e: Entry, t: Tid): Entry {
    var e' := Entries.Begin(e, OpOf(op), t);
    match op
    case Load(component) => if component.Some? then e'.(component := component.value) else e'
    case Configure => e'.(configured := true)
    case Activate(_) => e'.(mayBeActive := true)
    case _ => e'
  }

  function BegunCallback(op: Prim, e: Entry): Option<Callback> {
    match op
    case Configure => Some(Configuring)
    case Activate(_) => Some(Activating)
    case Cleanup => if e.context.None? then None else Some(CleaningUp)
    case _ => None
  }

  function BegunStage(op: Prim, e: Entry): Stage {
    match op
    case Load(_) => if e.component == "" then Finishing(UNLOADED, false, None) else WaitBuild
    case Cleanup => Leaving(Raised)
    case _ => Drain
  }

  lemma RefusedForm(s: State, t: Tid)
    requires Inside(s, t)
    requires Refuses(s.cells[Top(s, t).name].e, t, s.closing, Allowed(Top(s, t).op), Top(s, t).op.Unload?)
    ensures var n := Top(s, t).name;
            RunBegin(s, t) == ToStage(WithEntry(s, n, Reject(s.cells[n].e), s.cells[n].frame), t, Leaving(Ret(false, None)))
  {
    hide ToStage, Refuses, Allowed;
  }

  lemma BegunForm(s: State, t: Tid)
    requires Inside(s, t)
    requires !Refuses(s.cells[Top(s, t).name].e, t, s.closing, Allowed(Top(s, t).op), Top(s, t).op.Unload?)
    ensures var n, op := Top(s, t).name, Top(s, t).op;
            var e := s.cells[n].e;
            var e' := BegunEntry(op, e, t);
            var mid := WithEntry(s, n, e', |Stack(s, t)| - 1);
            var k := BegunCallback(op, e);
            RunBegin(s, t) == if k.Some? then StartCallback(mid, t, k.value) else ToStage(mid, t, BegunStage(op, e'))
  {
    hide StartCallback, ToStage, Refuses, Allowed;
    var f := Top(s, t);
    var e := s.cells[f.name].e;
    var began := WithEntry(s, f.name, Entries.Begin(e, OpOf(f.op), t), |Stack(s, t)| - 1);
    Twice(s, f.name, began, BegunEntry(f.op, e, t), |Stack(s, t)| - 1);
  }

  lemma Twice(s: State, n: Name, began: State, e: Entry, frame: nat)
    requires n in s.cells && n in began.cells && began == WithEntry(s, n, began.cells[n].e, frame)
    ensures SetEntry(began, n, e) == WithEntry(s, n, e, frame)
  {
    assert SetEntry(began, n, e).cells == WithEntry(s, n, e, frame).cells;
  }

  lemma BeginKeeps(s: State, t: Tid)
    requires Inv(s) && Inside(s, t) && Top(s, t).stage.Begin?
    ensures Inv(RunBegin(s, t))
  {
    hide Inv, CellOk, FrameOk, ToStage, RunBegin, BegunCallback, Refuses;
    var f := Top(s, t);
    var e := s.cells[f.name].e;
    if Refuses(e, t, s.closing, Allowed(f.op), f.op.Unload?) {
      RefusedForm(s, t);
      assert WithEntry(s, f.name, Reject(e), s.cells[f.name].frame) == SetEntry(s, f.name, Reject(e));
      RejectKeeps(s, t);
    } else if BegunCallback(f.op, e).None? {
      BeginMoves(s, t);
    } else {
      BeginCalls(s, t);
    }
  }

  /** `_begin` succeeds for the innermost activation. */
  predicate Begins(s: State, t: Tid) {
    && Inside(s, t) && Top(s, t).stage.Begin?
    && !Refuses(s.cells[Top(s, t).name].e, t, s.closing, Allowed(Top(s, t).op), Top(s, t).op.Unload?)
  }

  lemma BeginFacts(s: State, t: Tid)
    requires Inv(s) && Begins(s, t)
    ensures var f := Top(s, t);
            var cell := s.cells[f.name];
            && CellOk(s, f.name) && Mine(s, t, f.name)
            && MayBegin(f.op, cell.e) && EntryOk(cell.e, cell.lost) && History(s, f.name)
            && (s.closing ==> f.op.Unload?)
            && (cell.e.context.Some? ==>
                  && cell.e.context.value in s.contexts
                  && s.contexts[cell.e.context.value].home == f.name
                  && Linked(cell.e, s.contexts[cell.e.context.value]))
  {
    hide Trajectory;
    InsideFacts(s, t);
  }

  /** What the guards before `_begin`, and its own, leave of the entry's states. */
  predicate MayBegin(op: Prim, e: Entry) {
    && e.transition.None? && e.state in Allowed(op)
    && (op.Cleanup? ==> !e.mayBeActive)
    && (op.Deactivate? && e.state.ERROR? ==> e.mayBeActive)
  }

  /** The entry that an operation has marked as its own, before its first stage or callback. */
  lemma BegunEntryOk(op: Prim, e: Entry, lost: bool, t: Tid)
    requires EntryOk(e, lost) && MayBegin(op, e)
    ensures var e' := BegunEntry(op, e, t);
            && EntryOk(e', lost) && e'.transition == Some(OpOf(op)) && e'.operationThread == Some(t)
            && e'.context == e.context && e'.generation == e.generation
            && (BegunCallback(op, e).None? ==> e'.configured == e.configured && e'.mayBeActive == e.mayBeActive)
            && (op.Unload? && Stable(e) ==> Stable(e'))
  {
    SameCounted(e, BegunEntry(op, e, t));
  }

  /** What the first stage relies on. */
  lemma BegunUnderway(op: Prim, e: Entry, lost: bool, t: Tid, contexts: map<ContextId, Context>, f: Frame)
    requires EntryOk(e, lost) && MayBegin(op, e) && BegunCallback(op, e).None?
    requires var ts := Phase(contexts, e); ts.Typestate? && ts.running.None?
    requires e.state.ACTIVE? ==> Lively(contexts, e)
    requires var e' := BegunEntry(op, e, t);
             f.PrimFrame? && f.op == op && f.stage == BegunStage(op, e')
    ensures var e' := BegunEntry(op, e, t);
            && (if f.stage.Leaving? then f.stage.ret.Raised? && Stuck(e') else Begun(f, f.name))
            && (Begun(f, f.name) ==> Underway(contexts, e', lost, f))
  {
    hide Phase, Counted, AllStarted;
    assert Phase(contexts, BegunEntry(op, e, t)) == Phase(contexts, e) by { SamePhaseOf(contexts, e, BegunEntry(op, e, t)); }
  }

  lemma SamePhaseOf(contexts: map<ContextId, Context>, e: Entry, e': Entry)
    requires e'.context == e.context
    ensures Phase(contexts, e') == Phase(contexts, e)
  {
  }

  lemma BeginMoves(s: State, t: Tid)
    requires Inv(s) && Begins(s, t) && BegunCallback(Top(s, t).op, s.cells[Top(s, t).name].e).None?
    ensures Inv(RunBegin(s, t))
  {
    hide Inv, FrameOk, Trajectory, CellOk, EntryOk, Allowed, BegunEntry, BegunStage, BegunCallback, RunBegin, Refuses, Underway, Stable;
    BeginFacts(s, t);
    BegunForm(s, t);
    var f := Top(s, t);
    var cell := s.cells[f.name];
    var e' := BegunEntry(f.op, cell.e, t);
    var stage := BegunStage(f.op, e');
    var cell' := cell.(e := e', frame := |Stack(s, t)| - 1);
    var s' := Changed(s, t, cell', s.contexts, s.next, stage);
    BegunEntryOk(f.op, cell.e, cell.lost, t);
    BegunUnderway(f.op, cell.e, cell.lost, t, s.contexts, f.(stage := stage));
    NoContexts(s, s', f.name);
    KeptHistory(s, s', f.name);
    ChangeKeeps(s, t, cell', s.contexts, s.next, stage);
  }

  /** `_begin`, the flag set before the callback, and the call itself. */
  lemma BeginCalls(s: State, t: Tid)
    requires Inv(s) && Begins(s, t) && BegunCallback(Top(s, t).op, s.cells[Top(s, t).name].e).Some?
    ensures Inv(RunBegin(s, t))
  {
    hide Inv, FrameOk, CellOk, Trajectory, RunBegin, EntryOk, BegunEntry, Refuses, BegunStage;
    BeginFacts(s, t);
    BegunForm(s, t);
    var f := Top(s, t);
    var cell := s.cells[f.name];
    var e1 := BegunEntry(f.op, cell.e, t);
    var k := BegunCallback(f.op, cell.e).value;
    BegunEntryOk(f.op, cell.e, cell.lost, t);
    BegunDue(f.op, cell.e, cell.lost, t);
    var x := s.contexts[cell.e.context.value];
    var arg := if k.Activating? then f.op.state else None;
    StartCallbackKeeps(s, t, e1, |Stack(s, t)| - 1, k, arg);
    StartedForm(s, t, e1, |Stack(s, t)| - 1, k);
  }

  /** The first callback is due, and the flag that announces it is set. */
  lemma BegunDue(op: Prim, e: Entry, lost: bool, t: Tid)
    requires EntryOk(e, lost) && MayBegin(op, e) && BegunCallback(op, e).Some?
    ensures var e', k := BegunEntry(op, e, t), BegunCallback(op, e).value;
            && e.context.Some? && MayRun(op, k, e') && !op.Unload? && !op.Deactivate?
            && (!lost ==> e'.inFlight == 0)
            && e'.configured == (e.configured || k.Configuring?)
            && e'.mayBeActive == (e.mayBeActive || k.Activating?)
            && (k.Activating? ==> op.Activate?)
            && Due(Typestate(None, e.configured, e.mayBeActive, false), k)
  {
  }

  lemma StartedForm(s: State, t: Tid, e1: Entry, frame: nat, k: Callback)
    requires Inside(s, t) && e1.context.Some? && e1.context.value in s.contexts
    ensures var f := Top(s, t);
            var x := s.contexts[e1.context.value];
            var visit := Started(k, if k.Activating? && f.op.Activate? then f.op.state else None);
            var contexts := s.contexts[e1.context.value := x.(visits := x.visits + [visit])];
            var cell := s.cells[f.name].(e := e1, frame := frame);
            StartCallback(WithEntry(s, f.name, e1, frame), t, k) == Changed(s, t, cell, contexts, s.next, Running(k))
  {
  }

  // ------------------------------------------------------------------ building

  lemma BuildingKeeps(s: State, t: Tid, c: Choice)
    requires Inv(s) && Inside(s, t) && Top(s, t).stage.Building? && CanRun(s, t, c)
    ensures Inv(RunBuilding(s, t, c))
  {
    hide Inv, FrameOk, CellOk;
    InsideFacts(s, t);
    var f := Top(s, t);
    if c.built.None? {
      MoveKeeps(s, t, f.(stage := Finishing(ERROR, false, None)));
    } else {
      BuiltKeeps(s, t, c);
    }
  }

  lemma BuiltKeeps(s: State, t: Tid, c: Choice)
    requires Inv(s) && Inside(s, t) && Top(s, t).stage.Building? && c.built.Some? && NewTree(c.built.value)
    ensures Inv(RunBuilding(s, t, c))
  {
    hide Inv, FrameOk, CellOk, Trajectory, WellFormed, Owing, Stable, Counted;
    InsideFacts(s, t);
    var f := Top(s, t);
    var cell := s.cells[f.name];
    CellFacts(s, f.name);
    var e' := cell.e.(context := Some(s.next), generation := cell.e.generation + 1,
      configured := false, mayBeActive := false);
    var cell' := cell.(e := e', built := cell.built + [s.next]);
    var contexts' := s.contexts[s.next := Context(f.name, c.built.value, [])];
    var stage := Finishing(UNCONFIGURED, true, None);
    var s' := Changed(s, t, cell', contexts', s.next + 1, stage);
    assert RunBuilding(s, t, c) == s';
    BuiltFacts(s, s', f.name, c.built.value, e', cell');
    assert Counted(e') by { SameCounted(cell.e, e'); }
    LoadingIsUnstable(cell.e);
    ChangeKeeps(s, t, cell', contexts', s.next + 1, stage);
  }

  lemma LoadingIsUnstable(e: Entry)
    requires e.transition == Some(OpLoad)
    ensures !Stable(e)
  {
  }

  lemma BuiltFacts(s: State, s': State, n: Name, tree: Tree, e': Entry, cell': Cell)
    requires Inv(s) && n in s.cells && History(s, n) && NewTree(tree)
    requires s'.next == s.next + 1 && s'.contexts == s.contexts[s.next := Context(n, tree, [])]
    requires n in s'.cells && s'.cells[n] == cell' && cell'.e == e'
    requires cell'.built == s.cells[n].built + [s.next] && e'.context == Some(s.next)
    requires e'.generation == s.cells[n].e.generation + 1 && !e'.configured && !e'.mayBeActive && !e'.state.ACTIVE?
    ensures ContextsKept(s, s', n) && History(s', n)
    ensures Linked(e', s'.contexts[s.next]) && Phase(s'.contexts, e') == Fresh
  {
    hide CellOk, FrameOk;
    NewContext(s, s', n, tree);
    forall i | 0 <= i < |s.cells[n].built| ensures s.cells[n].built[i] < s.next {
      assert ContextOk(s, s.cells[n].built[i]);
    }
    assert cell'.built[|cell'.built| - 1] == s.next;
  }

  lemma CellFacts(s: State, n: Name)
    requires CellOk(s, n)
    ensures var e := s.cells[n].e;
            && EntryOk(e, s.cells[n].lost) && History(s, n)
            && (e.context.Some? ==>
                  && e.context.value in s.contexts && s.contexts[e.context.value].home == n
                  && Linked(e, s.contexts[e.context.value]))
  {
  }

  lemma NextIsFresh(s: State)
    requires Inv(s)
    ensures s.next !in s.contexts
  {
    hide CellOk, FrameOk;
    forall c | c in s.contexts ensures c < s.next {
      assert ContextOk(s, c);
    }
  }

  lemma NewContext(s: State, s': State, n: Name, tree: Tree)
    requires Inv(s) && s'.next == s.next + 1 && s'.contexts == s.contexts[s.next := Context(n, tree, [])]
    ensures ContextsKept(s, s', n) && s.next !in s.contexts
  {
    hide CellOk, FrameOk;
    NextIsFresh(s);
    forall c | c in s'.contexts ensures ContextOk(s', c) {
      if c != s.next {
        assert ContextOk(s, c);
      }
    }
  }

  // --------------------------------------------------------------------- drain

  lemma DrainKeeps(s: State, t: Tid)
    requires Inv(s) && Inside(s, t) && Top(s, t).stage.Drain?
    ensures Inv(RunDrain(s, t))
  {
    hide Inv, FrameOk, CellOk, Trajectory;
    InsideFacts(s, t);
    var f := Top(s, t);
    var e := s.cells[f.name].e;
    CellFacts(s, f.name);
    if e.inFlight != 0 {
      MoveKeeps(s, t, f.(stage := Finishing(ERROR, false, None)));
    } else if f.op.Deactivate? || e.mayBeActive {
      ContinueKeeps(s, t, Deactivating);
    } else if e.context.None? {
      MoveKeeps(s, t, f.(stage := Finishing(UNLOADED, true, None)));
    } else {
      ContinueKeeps(s, t, if e.configured then CleaningUp else Closing);
    }
  }

  /** An operation that has drained starts its next callback. */
  lemma ContinueKeeps(s: State, t: Tid, k: Callback)
    requires Inv(s) && Inside(s, t) && Top(s, t).stage.Drain?
    requires var f := Top(s, t);
             var e := s.cells[f.name].e;
             e.inFlight == 0 && e.context.Some? && MayRun(f.op, k, e) && !k.Configuring? && !k.Activating?
    ensures Inv(StartCallback(s, t, k))
  {
    hide Inv, FrameOk, CellOk, Trajectory;
    InsideFacts(s, t);
    var f := Top(s, t);
    var cell := s.cells[f.name];
    var e := cell.e;
    CellFacts(s, f.name);
    var x := s.contexts[e.context.value];
    var contexts' := s.contexts[e.context.value := x.(visits := x.visits + [Started(k, None)])];
    var s' := Changed(s, t, cell.(e := e, frame := cell.frame), contexts', s.next, Running(k));
    assert StartCallback(s, t, k) == s' by {
      assert s.cells[f.name := cell] == s.cells;
    }
    StartCallbackKeeps(s, t, e, cell.frame, k, None);
  }

  // ----------------------------------------------------------------- callbacks

  /** What a traversal does to the debts of a tree. */
  lemma PerformDebts(o: Outside, k: Callback, tree: Tree, arg: Option<Value>)
    requires WellFormed(tree)
    requires !k.Deactivating? ==> Owing(tree) == []
    ensures var r := Perform(o, k, tree, arg);
            && WellFormed(r.tree)
            && (!k.Activating? && !k.Deactivating? ==> Owing(r.tree) == [])
            && (k.Deactivating? && r.error.None? ==> Owing(r.tree) == [])
  {
    hide WellFormed, Owing, ConfigureTree, CleanupTree, ActivateTree, DeactivateTree, CloseTree;
    match k {
      case Configuring => ConfigureTheorems.ConfigurePass(o.oracle, o.history, tree);
      case Activating =>
        if ActivateTree(o.oracle, o.history, tree, arg).error.None? {
          StartTheorems.ActivateSucceeds(o.oracle, o.history, tree, arg);
        } else {
          var _, _, _ := StartTheorems.ActivateFails(o.oracle, o.history, tree, arg);
        }
      case Deactivating => DeactivatePass(o.oracle, o.history, tree);
      case CleaningUp => ConfigureTheorems.CleanupPass(o.oracle, o.history, tree);
      case Closing => CloseTheorems.CloseOwesNothing(o.oracle, o.history, tree);
    }
  }

  /** The context after its callback ended. */
  function EndedContext(x: Context, k: Callback, before: seq<Event>, r: TreeResult): Context {
    x.(tree := r.tree, visits := x.visits + [VisitOf(before, k, r)])
  }

  /** How a running callback may end. */
  predicate Ends(s: State, t: Tid, r: TreeResult, stage: Stage) {
    && Inside(s, t) && Top(s, t).stage.Running?
    && var f := Top(s, t);
    var ok := r.error.None?;
    || (f.op.Unload? && ok && (f.stage.callback.Deactivating? || f.stage.callback.CleaningUp?) && stage == Drain)
    || (stage.Finishing? && stage.to == Reached(f.op, ok) && stage.ok == ok
        && (f.op.Unload? && ok ==> f.stage.callback.Closing?))
  }

  lemma EndedEntry(e: Entry, lost: bool, x: Context, op: Prim, k: Callback, o: Outside, contexts: map<ContextId, Context>)
    requires e.context.Some? && e.context.value in contexts && contexts[e.context.value] == x
    requires Linked(e, x) && EntryOk(e, lost) && e.transition.Some?
    requires (op.Deactivate? || op.Unload? || !lost ==> e.inFlight == 0) && MayRun(op, k, e) && Trajectory(x.visits).running == Some(k)
    requires k.Activating? ==> Owing(x.tree) == []
    ensures var r := Perform(o, k, x.tree, if op.Activate? then op.state else None);
            var e' := Settle(e, k, r.error.None?);
            var x' := EndedContext(x, k, o.history, r);
            && EntryOk(e', lost)
            && Trajectory(x'.visits).Typestate? && Trajectory(x'.visits).running.None?
            && (e'.context.Some? ==> e'.context == e.context && Linked(e', x'))
            && e'.transition == e.transition && e'.generation == e.generation
            && (e'.context == e.context || e'.context.None?)
  {
    hide Trajectory, Perform, Counted, WellFormed, Owing, AllStarted;
    var arg := if op.Activate? then op.state else None;
    var r := Perform(o, k, x.tree, arg);
    TrajectoryNext(x.visits, VisitOf(o.history, k, r));
    PerformDebts(o, k, x.tree, arg);
    SameCounted(e, Settle(e, k, r.error.None?));
  }

  lemma EndedStage(e: Entry, lost: bool, f: Frame, ok: bool, contexts: map<ContextId, Context>, stage: Stage)
    requires f.PrimFrame? && f.stage.Running? && Coherent(e)
    requires var k := f.stage.callback;
             MayRun(f.op, k, e) && e.context.Some?
    requires var k := f.stage.callback;
             || (f.op.Unload? && ok && (k.Deactivating? || k.CleaningUp?) && stage == Drain)
             || (stage.Finishing? && stage.to == Reached(f.op, ok) && stage.ok == ok
                 && (f.op.Unload? && ok ==> k.Closing?))
    requires var ts := Phase(contexts, Settle(e, f.stage.callback, ok)); ts.Typestate? && ts.running.None?
    requires ok && f.stage.callback.Activating? ==> Lively(contexts, Settle(e, f.stage.callback, ok))
    ensures Underway(contexts, Settle(e, f.stage.callback, ok), lost, f.(stage := stage))
  {
    hide Phase, AllStarted;
  }

  lemma PerformStarts(o: Outside, tree: Tree, arg: Option<Value>)
    requires Perform(o, Activating, tree, arg).error.None?
    ensures AllStarted(Perform(o, Activating, tree, arg).tree)
  {
    StartTheorems.ActivateStartsAll(o.oracle, o.history, tree, arg);
  }

  /** A callback ends; the operation goes on to `stage`. */
  lemma EndKeeps(s: State, t: Tid, o: Outside, stage: Stage)
    requires Inv(s) && Inside(s, t) && Top(s, t).stage.Running?
    requires var f := Top(s, t);
             var e := s.cells[f.name].e;
             && e.context.Some? && e.context.value in s.contexts
             && Ends(s, t, Perform(o, f.stage.callback, s.contexts[e.context.value].tree,
                  if f.op.Activate? then f.op.state else None), stage)
    ensures var f := Top(s, t);
            var k := f.stage.callback;
            var cell := s.cells[f.name];
            var x := s.contexts[cell.e.context.value];
            var r := Perform(o, k, x.tree, if f.op.Activate? then f.op.state else None);
            Inv(Changed(s, t, cell.(e := Settle(cell.e, k, r.error.None?)),
              s.contexts[cell.e.context.value := EndedContext(x, k, o.history, r)], s.next, stage))
  {
    hide Inv, FrameOk, CellOk, Trajectory, Perform, Counted, WellFormed, Owing, AllStarted, Linked, Settle, Coherent, Rests, Flags, MayRun, Stable, Quiet, History, ContextsKept, EntryOk;
    InsideFacts(s, t);
    var f := Top(s, t);
    var k := f.stage.callback;
    var cell := s.cells[f.name];
    var e := cell.e;
    CellFacts(s, f.name);
    var x := s.contexts[e.context.value];
    var r := Perform(o, k, x.tree, if f.op.Activate? then f.op.state else None);
    var x' := EndedContext(x, k, o.history, r);
    var e' := Settle(e, k, r.error.None?);
    var contexts' := s.contexts[e.context.value := x'];
    var s' := Changed(s, t, cell.(e := e'), contexts', s.next, stage);
    if k.Activating? && r.error.None? {
      PerformStarts(o, x.tree, if f.op.Activate? then f.op.state else None);
    }
    EndedEntry(e, cell.lost, x, f.op, k, o, s.contexts);
    OneContext(s, s', f.name, e.context.value, x');
    KeptHistory(s, s', f.name);
    EndedStage(e, cell.lost, f, r.error.None?, contexts', stage);
    LinkedIsUnstable(e);
    SettleCore(e, k, r.error.None?);
    ChangeKeeps(s, t, cell.(e := e'), contexts', s.next, stage);
  }

  lemma LinkedIsUnstable(e: Entry)
    requires e.context.Some?
    ensures !Stable(e)
  {
  }

  lemma SettleCore(e: Entry, k: Callback, ok: bool)
    ensures var e' := Settle(e, k, ok);
            e'.transition == e.transition && e'.operationThread == e.operationThread && e'.state == e.state
  {
  }

  lemma CallbackKeeps(s: State, t: Tid, c: Choice)
    requires Inv(s) && Inside(s, t) && Top(s, t).stage.Running?
    ensures Inv(RunCallback(s, t, c))
  {
    hide Inv, FrameOk, CellOk, Trajectory, Perform, Linked, Counted, StartCallback;
    InsideFacts(s, t);
    var f := Top(s, t);
    var k := f.stage.callback;
    var cell := s.cells[f.name];
    var e := cell.e;
    CellFacts(s, f.name);
    var x := s.contexts[e.context.value];
    var r := Perform(c.outside, k, x.tree, if f.op.Activate? then f.op.state else None);
    var ok := r.error.None?;
    if f.op.Unload? && ok && !k.Closing? {
      EndKeeps(s, t, c.outside, Drain);
      var ended := s.(
        cells := s.cells[f.name := cell.(e := Settle(e, k, ok))],
        contexts := s.contexts[e.context.value := EndedContext(x, k, c.outside.history, r)]);
      var next := if k.Deactivating? && Settle(e, k, ok).configured then CleaningUp else Closing;
      StartFromAnyStage(ended, t, Drain, next);
      assert ToStage(ended, t, Drain) == Changed(s, t, cell.(e := Settle(e, k, ok)),
        s.contexts[e.context.value := EndedContext(x, k, c.outside.history, r)], s.next, Drain);
      ContinueKeeps(ToStage(ended, t, Drain), t, next);
    } else {
      EndKeeps(s, t, c.outside, Finishing(Reached(f.op, ok), ok, if f.op.Deactivate? then r.state else None));
    }
  }

  /** Starting a callback does not depend on the stage the operation passed through. */
  lemma StartFromAnyStage(s: State, t: Tid, stage: Stage, k: Callback)
    requires Stack(s, t) != [] && Top(s, t).PrimFrame? && Top(s, t).name in s.cells
    requires var id := s.cells[Top(s, t).name].e.context; id.Some? && id.value in s.contexts
    ensures Stack(ToStage(s, t, stage), t) != [] && Top(ToStage(s, t, stage), t) == Top(s, t).(stage := stage)
    ensures StartCallback(ToStage(s, t, stage), t, k) == StartCallback(s, t, k)
  {
    var stack := Stack(s, t);
    var top := |stack| - 1;
    var f := Top(s, t);
    var a, b := f.(stage := stage), f.(stage := Running(k));
    assert stack[top := a][top := b] == stack[top := b];
    assert s.stacks[t := stack[top := a]][t := stack[top := b]] == s.stacks[t := stack[top := b]];
  }

  // ----------------------------------------------------------------- finishing

  lemma FinishingKeeps(s: State, t: Tid)
    requires Inv(s) && Inside(s, t) && Top(s, t).stage.Finishing?
    ensures var f := Top(s, t);
            Inv(ToStage(SetEntry(s, f.name, Finish(s.cells[f.name].e, f.stage.to, f.stage.ok)), t,
              Leaving(Ret(f.stage.ok, if f.stage.ok then f.stage.exported else None))))
  {
    hide Inv, FrameOk, CellOk, Trajectory, Counted;
    InsideFacts(s, t);
    var f := Top(s, t);
    var cell := s.cells[f.name];
    CellFacts(s, f.name);
    var e' := Finish(cell.e, f.stage.to, f.stage.ok);
    var stage := Leaving(Ret(f.stage.ok, if f.stage.ok then f.stage.exported else None));
    var s' := Changed(s, t, cell.(e := e'), s.contexts, s.next, stage);
    NoContexts(s, s', f.name);
    KeptHistory(s, s', f.name);
    assert Counted(e') by { SameCounted(cell.e, e'); }
    ChangeKeeps(s, t, cell.(e := e'), s.contexts, s.next, stage);
  }

  /** Every step of a single operation keeps the invariant. */
  lemma PrimKeeps(s: State, t: Tid, c: Choice)
    requires Inv(s) && CanRun(s, t, c) && Top(s, t).PrimFrame?
    ensures Inv(RunPrim(s, t, c))
  {
    hide Inv, FrameOk, CellOk, RunLookup, RunCheck, RunBegin, RunBuilding, RunDrain, RunCallback, Return, Underway;
    var f := Top(s, t);
    if f.stage.Lookup? {
      LookupKeeps(s, t);
    } else {
      InsideFacts(s, t);
      match f.stage {
        case Lookup =>
        case Acquire => AcquireKeeps(s, t);
        case Check => CheckKeeps(s, t);
        case Begin => BeginKeeps(s, t);
        case WaitBuild => WaitKeeps(s, t);
        case Building => BuildingKeeps(s, t, c);
        case Drain => DrainKeeps(s, t);
        case Running(_) => CallbackKeeps(s, t, c);
        case Finishing(_, _, _) => FinishingKeeps(s, t);
        case Leaving(r) => TopOk(s, t); ReturnKeeps(s, t, r);
      }
    }
  }

  lemma WaitKeeps(s: State, t: Tid)
    requires Inv(s) && Inside(s, t) && Top(s, t).stage.WaitBuild?
    ensures Inv(ToStage(s, t, Building))
  {
    hide Inv, FrameOk, CellOk;
    InsideFacts(s, t);
    MoveKeeps(s, t, Top(s, t).(stage := Building));
  }
}
