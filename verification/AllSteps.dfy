/** Every step of every thread keeps the invariant, so every run does. */
module AllSteps {
  import opened Lifecycle
  import opened Names
  import opened Entries
  import opened Protocol
  import opened Invariant
  import opened Preservation
  import opened Calls
  import opened PrimSteps

  /** A switch or reload takes an operation lock. */
  lemma LockKeeps(s: State, t: Tid, n: Name, f': Frame)
    requires Inv(s) && Stack(s, t) != [] && n in s.cells && CanLock(s, t, n)
    requires !Top(s, t).PrimFrame? && (f'.SwitchFrame? || f'.ReloadFrame?) && Awaits(f').None?
    requires Holds(f', n) && forall m :: Holds(Top(s, t), m) ==> Holds(f', m)
    requires Locked(Lock(s, t, n).cells, t, f')
    requires !Refreshing(f')
    ensures Inv(SetTop(Lock(s, t, n), t, f'))
  {
    hide Inv, CellOk, Holds, Locked;
    var s' := SetTop(Lock(s, t, n), t, f');
    var k := |Stack(s, t)| - 1;
    TopOk(s, t);
    CellOf(s, n);
    assert Stack(s', t) == Stack(s, t)[k := f'];
    assert FrameOk(s', t, k);
    assert HeldIn(Stack(s', t), n) by { assert Holds(Stack(s', t)[k], n); }
    LockedCell(s, s', t, n, f');
    NoContexts(s, s', n);
    ReplaceKeeps(s, s', t, n, f');
  }

  lemma CellOf(s: State, n: Name)
    requires Inv(s) && n in s.cells
    ensures CellOk(s, n)
  {
  }

  lemma LockedCell(s: State, s': State, t: Tid, n: Name, f': Frame)
    requires CellOk(s, n) && Stack(s, t) != [] && !Top(s, t).PrimFrame?
    requires s' == SetTop(Lock(s, t, n), t, f') && HeldIn(Stack(s', t), n)
    ensures CellOk(s', n)
  {
    hide Linked, EntryOk, HeldIn;
    if s.cells[n].e.transition.Some? && !Stuck(s.cells[n].e) {
      assert Witnessed(s, n);
      assert Witnessed(s', n);
    }
    assert History(s', n);
  }

  // ------------------------------------------------------------------- switch

  lemma SwitchKeeps(s: State, t: Tid, c: Choice)
    requires Inv(s) && CanRun(s, t, c) && Top(s, t).SwitchFrame?
    ensures Inv(RunSwitch(s, t))
  {
    hide Inv, RunSwitch, Return;
    TopOk(s, t);
    TopLocked(s, t);
    if Decides(Top(s, t).sw) {
      SwitchLockedKeeps(s, t);
    } else {
      SwitchStepKeeps(s, t, c);
    }
  }

  /** A switch looks up its entries, takes a lock, or returns. */
  lemma SwitchStepKeeps(s: State, t: Tid, c: Choice)
    requires Inv(s) && CanRun(s, t, c) && Top(s, t).SwitchFrame? && !Decides(Top(s, t).sw)
    requires Awaits(Top(s, t)).None? && Locked(s.cells, t, Top(s, t))
    ensures Inv(RunSwitch(s, t))
  {
    hide Inv, Return, Before, Await, RootClass;
    var f := Top(s, t);
    match f.sw {
      case SLookup =>
        if f.source == f.target {
          ReturnKeeps(s, t, Ret(false, None));
        } else if f.source !in s.cells || f.target !in s.cells {
          ReturnKeeps(s, t, Raised);
        } else {
          MoveKeeps(s, t, f.(sw := SFirst));
        }
      case SFirst =>
        BeforeTotal(f.source, f.target);
        LockKeeps(s, t, FirstLock(f.source, f.target), f.(sw := SSecond));
      case SSecond =>
        BeforeTotal(f.source, f.target);
        LockKeeps(s, t, SecondLock(f.source, f.target), f.(sw := SGuard));
      case SLeaving(r, _) => ReturnKeeps(s, t, r);
      case _ =>
    }
  }

  lemma TopLocked(s: State, t: Tid)
    requires Inv(s) && Stack(s, t) != []
    ensures Locked(s.cells, t, Top(s, t))
    ensures ReloadOk(Stack(s, t), |Stack(s, t)| - 1)
    ensures Top(s, t).CloseFrame? ==> CloseOk(s, Top(s, t))
  {
    hide CellOk;
    assert FrameOk(s, t, |Stack(s, t)| - 1);
  }

  /** The stages in which a switch that holds both locks decides what comes next. */
  predicate Decides(sw: SwitchStage) {
    sw.SGuard? || sw.SConfigure? || sw.SCompare? || sw.SStart?
  }

  /** The roots of both entries have the same handover type. */
  predicate SameType(s: State, a: Name, b: Name) {
    && a in s.cells && b in s.cells && RootClass(s, a).Some? && RootClass(s, b).Some?
    && RootClass(s, a).value.handover == RootClass(s, b).value.handover
  }

  predicate Mismatch(s: State, a: Name, b: Name) {
    && a in s.cells && b in s.cells && RootClass(s, a).Some? && RootClass(s, b).Some?
    && RootClass(s, a).value.handover != RootClass(s, b).value.handover
  }

  /** The next stage of a switch that holds both locks. */
  function Decided(s: State, t: Tid, f: Frame): SwitchStage
    requires f.SwitchFrame? && Decides(f.sw) && f.source in s.cells && f.target in s.cells
  {
    var source, target := s.cells[f.source].e, s.cells[f.target].e;
    match f.sw
    case SGuard =>
      if Calling(source, t) > 0 || Calling(target, t) > 0 || !source.state.ACTIVE? then SLeaving(Ret(false, None), Early)
      else if target.state.UNLOADED? then SLoading else SConfigure
    case SConfigure => if target.state.UNCONFIGURED? then SConfiguring else SCompare
    case SCompare =>
      if !target.state.INACTIVE? then SLeaving(Ret(false, None), Early)
      else if !f.transfer || SameType(s, f.source, f.target) then SStopping
      else SLeaving(if Mismatch(s, f.source, f.target) then Ret(false, None) else Raised, Early)
    case SStart(exported) => SStarting(exported)
  }

  lemma SwitchForm(s: State, t: Tid)
    requires Stack(s, t) != [] && Top(s, t).SwitchFrame? && Decides(Top(s, t).sw)
    requires Top(s, t).source in s.cells && Top(s, t).target in s.cells
    ensures var g := Top(s, t).(sw := Decided(s, t, Top(s, t)));
            RunSwitch(s, t) == if Awaits(g).Some? then Await(s, t, g) else SetTop(s, t, g)
  {
    hide Await, SetTop, Return, Lock, RootClass;
  }

  lemma DecidedShape(s: State, t: Tid, f: Frame)
    requires f.SwitchFrame? && Decides(f.sw) && f.source in s.cells && f.target in s.cells
    ensures var sw := Decided(s, t, f);
            BothLocked(sw) && sw != f.sw
  {
    hide SameType, Mismatch;
  }

  predicate BothLocked(sw: SwitchStage) {
    !sw.SLookup? && !sw.SFirst? && !sw.SSecond?
  }

  /** The stages of a switch that hold both locks only move on or start an operation. */
  lemma SwitchLockedKeeps(s: State, t: Tid)
    requires Inv(s) && Stack(s, t) != [] && Top(s, t).SwitchFrame? && Decides(Top(s, t).sw)
    ensures Inv(RunSwitch(s, t))
  {
    hide Inv, Before, RunSwitch, Decided, Await, SetTop, Awaits;
    var f := Top(s, t);
    TopLocked(s, t);
    SwitchForm(s, t);
    DecidedShape(s, t, f);
    var g := f.(sw := Decided(s, t, f));
    SwitchHolds(f, g);
    if Awaits(g).Some? {
      AwaitKeeps(s, t, g);
    } else {
      MoveKeeps(s, t, g);
    }
  }

  lemma SwitchHolds(f: Frame, g: Frame)
    requires f.SwitchFrame? && BothLocked(f.sw) && g.SwitchFrame? && g == f.(sw := g.sw) && BothLocked(g.sw)
    ensures forall n :: Holds(f, n) == Holds(g, n)
  {
    hide Before;
  }

  // ------------------------------------------------------------------- reload

  lemma ReloadKeeps(s: State, t: Tid, c: Choice)
    requires Inv(s) && CanRun(s, t, c) && Top(s, t).ReloadFrame?
    ensures Inv(RunReload(s, t, c))
  {
    hide Inv, FrameOk, CellOk, Return, Chained;
    var f := Top(s, t);
    TopOk(s, t);
    TopLocked(s, t);
    match f.rl {
      case RLookup =>
        if f.name !in s.cells {
          ReturnKeeps(s, t, Raised);
        } else {
          MoveKeeps(s, t, f.(rl := RAcquire));
        }
      case RAcquire => LockKeeps(s, t, f.name, f.(rl := RStart));
      case RLeaving(r) => ReturnKeeps(s, t, r);
      case RRefreshing =>
        if c.refreshed {
          ReloadMove(s, t, f.(rl := RLoad));
        } else {
          RefreshFails(s, t);
        }
      case _ => ReloadAwaitKeeps(s, t, c);
    }
  }

  /** The stages in which a reload decides by itself what comes next. */
  predicate Continues(rl: ReloadStage) {
    rl.RStart? || rl.RUnload? || rl.RLoad? || rl.RConfigure? || rl.RActivate?
  }

  /** The reload after such a stage, when its entry is `e`. */
  function Continued(f: Frame, e: Entry): Frame
    requires f.ReloadFrame? && Continues(f.rl)
  {
    match f.rl
    case RStart =>
      f.(wasActive := e.state.ACTIVE?, snapshot := None, since := Past(e.generation, None), rl := if e.state.ACTIVE? then RStopping else RUnload)
    case RUnload => f.(rl := RUnloading)
    case RLoad => f.(rl := RLoading)
    case RConfigure => f.(rl := RConfiguring)
    case RActivate => f.(rl := RActivating)
  }

  lemma ReloadForm(s: State, t: Tid, c: Choice)
    requires Stack(s, t) != [] && Top(s, t).ReloadFrame? && Top(s, t).name in s.cells && Continues(Top(s, t).rl)
    ensures var g := Continued(Top(s, t), s.cells[Top(s, t).name].e);
            RunReload(s, t, c) == if Awaits(g).Some? then Await(s, t, g) else SetTop(s, t, g)
  {
    hide Await, SetTop, Return, SetEntry, Lock;
  }

  lemma ContinuedShape(f: Frame, e: Entry)
    requires f.ReloadFrame? && Continues(f.rl)
    ensures var g := Continued(f, e);
            g.ReloadFrame? && g.name == f.name && g != f && ReloadLocked(g) && !Refreshing(g)
  {
  }

  lemma ReloadAwaitKeeps(s: State, t: Tid, c: Choice)
    requires Inv(s) && CanRun(s, t, c) && Top(s, t).ReloadFrame? && Continues(Top(s, t).rl)
    ensures Inv(RunReload(s, t, c))
  {
    hide Inv, Await, SetTop, RunReload, Continued, Awaits;
    TopLocked(s, t);
    ReloadForm(s, t, c);
    ContinuedShape(Top(s, t), s.cells[Top(s, t).name].e);
    var g := Continued(Top(s, t), s.cells[Top(s, t).name].e);
    if Awaits(g).Some? {
      ReloadAwait(s, t, g);
    } else {
      ReloadMove(s, t, g);
    }
  }

  predicate ReloadLocked(f: Frame) {
    f.ReloadFrame? && !f.rl.RLookup? && !f.rl.RAcquire?
  }

  lemma ReloadAwait(s: State, t: Tid, f': Frame)
    requires Inv(s) && Stack(s, t) != [] && ReloadLocked(Top(s, t)) && ReloadLocked(f') && f'.name == Top(s, t).name
    requires Awaits(f').Some?
    ensures Inv(Await(s, t, f'))
  {
    hide Inv, FrameOk, CellOk;
    TopLocked(s, t);
    AwaitKeeps(s, t, f');
  }

  lemma ReloadMove(s: State, t: Tid, f': Frame)
    requires Inv(s) && Stack(s, t) != [] && ReloadLocked(Top(s, t)) && ReloadLocked(f') && f'.name == Top(s, t).name
    requires Awaits(f').None? && !Refreshing(f')
    ensures Inv(SetTop(s, t, f'))
  {
    hide Inv, FrameOk, CellOk;
    TopLocked(s, t);
    MoveKeeps(s, t, f');
  }

  /** While a refresh runs in the innermost activation no operation on its entry is under way. */
  lemma RefreshIsAlone(s: State, t: Tid)
    requires Inv(s) && Stack(s, t) != [] && Refreshing(Top(s, t))
    ensures var n := Top(s, t).name;
            && n in s.cells && s.cells[n].owner == Some(t)
            && (s.cells[n].e.transition.None? || Stuck(s.cells[n].e))
  {
    hide Inv, CellOk;
    var n := Top(s, t).name;
    TopLocked(s, t);
    CellOf(s, n);
    if s.cells[n].e.transition.Some? && !Stuck(s.cells[n].e) {
      MarkedBy(s, n);
      BegunOwns(s, s.cells[n].e.operationThread.value, s.cells[n].frame, n);
    }
  }

  /** An operation under way holds its entry's lock. */
  lemma BegunOwns(s: State, u: Tid, i: nat, n: Name)
    requires Inv(s) && n in s.cells && i < |Stack(s, u)| && Begun(Stack(s, u)[i], n)
    ensures s.cells[n].owner == Some(u)
  {
    hide Underway, CellOk;
    assert FrameOk(s, u, i);
  }

  lemma MarkedBy(s: State, n: Name)
    requires CellOk(s, n) && s.cells[n].e.transition.Some? && !Stuck(s.cells[n].e)
    ensures var cell := s.cells[n];
            && cell.e.operationThread.Some?
            && var stack := Stack(s, cell.e.operationThread.value);
            && cell.frame < |stack| && Begun(stack[cell.frame], n)
  {
    assert Witnessed(s, n);
  }

  /** `refresh` raised: `_finish` runs although no operation is under way, and perhaps over a context. */
  lemma RefreshFails(s: State, t: Tid)
    requires Inv(s) && Stack(s, t) != [] && Refreshing(Top(s, t))
    ensures Top(s, t).name in s.cells
    ensures Inv(ToReload(RefreshFailed(s, Top(s, t).name), t, RLeaving(Ret(false, None))))
  {
    hide Inv, CellOk, Linked, Stable, Stuck;
    var f := Top(s, t);
    TopOk(s, t);
    TopLocked(s, t);
    RefreshIsAlone(s, t);
    CellOf(s, f.name);
    var f' := f.(rl := RLeaving(Ret(false, None)));
    var s' := SetTop(RefreshFailed(s, f.name), t, f');
    var k := |Stack(s, t)| - 1;
    assert Stack(s', t) == Stack(s, t)[k := f'];
    assert FrameOk(s', t, k);
    assert HeldIn(Stack(s', t), f.name) by { assert Holds(Stack(s', t)[k], f.name); }
    FinishedCell(s, s', t, f.name);
    NoContexts(s, s', f.name);
    ReplaceKeeps(s, s', t, f.name, f');
  }

  lemma FinishedCell(s: State, s': State, t: Tid, n: Name)
    requires CellOk(s, n) && (s.cells[n].e.transition.None? || Stuck(s.cells[n].e))
    requires n in s'.cells && s'.cells[n] == RefreshFailed(s, n).cells[n]
    requires s.cells[n].owner == Some(t) && HeldIn(Stack(s', t), n) && s'.contexts == s.contexts
    ensures CellOk(s', n) && (Stable(s.cells[n].e) ==> Stable(s'.cells[n].e))
  {
    hide HeldIn, Counted;
    SameCounted(s.cells[n].e, s'.cells[n].e);
    assert History(s', n);
  }

  // -------------------------------------------------------------------- close

  lemma {:induction false} ReverseMembers<T>(xs: seq<T>)
    ensures forall x :: x in Reverse(xs) <==> x in xs
  {
    if xs != [] {
      ReverseMembers(xs[1..]);
      assert xs == [xs[0]] + xs[1..];
    }
  }

  lemma ClosingKeeps(s: State)
    requires Inv(s)
    ensures Inv(s.(closing := true))
  {
    hide CellOk, FrameOk;
    var s' := s.(closing := true);
    forall n | n in s'.cells ensures CellOk(s', n) {
      ClosingCell(s, n);
    }
    forall u, j: nat | j < |Stack(s', u)| ensures FrameOk(s', u, j) {
      assert Stack(s', u) == Stack(s, u);
      ClosingFrame(s, u, j);
    }
    forall c | c in s'.contexts ensures ContextOk(s', c) {
      assert ContextOk(s, c);
    }
    forall i | 0 <= i < |s'.loans| ensures LoanOk(s', s'.loans[i]) {
      assert LoanOk(s, s.loans[i]);
    }
  }

  lemma ClosingCell(s: State, n: Name)
    requires CellOk(s, n)
    ensures CellOk(s.(closing := true), n)
  {
    hide HeldIn, Linked, EntryOk;
    var s' := s.(closing := true);
    assert Witnessed(s, n) ==> Witnessed(s', n);
    assert History(s', n);
  }

  lemma ClosingFrame(s: State, u: Tid, j: nat)
    requires FrameOk(s, u, j)
    ensures FrameOk(s.(closing := true), u, j)
  {
    hide Underway, Chained, Locked;
    assert Stack(s.(closing := true), u) == Stack(s, u);
  }

  lemma CloseKeeps(s: State, t: Tid, c: Choice)
    requires Inv(s) && CanRun(s, t, c) && Top(s, t).CloseFrame?
    ensures Inv(RunClose(s, t))
  {
    hide Inv, FrameOk, CellOk, Return, Stable;
    var f := Top(s, t);
    TopOk(s, t);
    TopLocked(s, t);
    match f.cl {
      case CStart =>
        if InsideManagedCode(s, t) {
          ReturnKeeps(s, t, Ret(false, None));
        } else {
          ClosingKeeps(s);
          OrderIsKeys(s);
          ReverseMembers(s.order);
          MoveKeeps(s.(closing := true), t, f.(todo := Reverse(s.order), ok := true, cl := CNext));
        }
      case CNext =>
        if f.todo == [] {
          ReturnKeeps(s, t, Ret(f.ok, None));
          ClosedKeeps(s, t);
        } else {
          AwaitKeeps(s, t, f.(cl := CUnloading));
        }
      case CUnloading =>
    }
  }

  lemma OrderIsKeys(s: State)
    requires Inv(s)
    ensures forall n :: n in s.order <==> n in s.cells
  {
  }

  lemma ClosedKeeps(s: State, t: Tid)
    requires Inv(s) && Stack(s, t) != [] && Top(s, t).CloseFrame? && CloseOk(s, Top(s, t))
    requires Top(s, t).cl.CNext? && Top(s, t).todo == [] && Inv(Return(s, t, Ret(Top(s, t).ok, None)))
    ensures Inv(Return(s, t, Ret(Top(s, t).ok, None)).(closedOk := s.closedOk || Top(s, t).ok))
  {
    hide CellOk, FrameOk, Return, Stable;
    var s1 := Return(s, t, Ret(Top(s, t).ok, None));
    var s' := s1.(closedOk := s.closedOk || Top(s, t).ok);
    ReturnSame(s, t, Ret(Top(s, t).ok, None));
    forall n | n in s'.cells ensures CellOk(s', n) && n in s.cells && s'.cells[n].e == s.cells[n].e {
      ReturnCells(s, t, Ret(Top(s, t).ok, None), n);
      ClosedCell(s1, s', n);
    }
    forall u, j: nat | j < |Stack(s', u)| ensures FrameOk(s', u, j) {
      assert Stack(s', u) == Stack(s1, u);
      ClosedFrame(s1, s', u, j);
    }
    forall c | c in s'.contexts ensures ContextOk(s', c) {
      assert ContextOk(s1, c);
    }
    forall i | 0 <= i < |s'.loans| ensures LoanOk(s', s'.loans[i]) {
      assert LoanOk(s1, s1.loans[i]);
    }
  }

  lemma ClosedCell(s: State, s': State, n: Name)
    requires s' == s.(closedOk := s'.closedOk) && CellOk(s, n)
    ensures CellOk(s', n)
  {
    hide HeldIn, Linked, EntryOk;
    assert Witnessed(s, n) ==> Witnessed(s', n);
    assert History(s', n);
  }

  lemma ClosedFrame(s: State, s': State, u: Tid, j: nat)
    requires s' == s.(closedOk := s'.closedOk) && FrameOk(s, u, j)
    ensures FrameOk(s', u, j)
  {
    hide Underway, Chained, Locked;
    assert Stack(s', u) == Stack(s, u);
  }

  // ------------------------------------------------------------------- borrows

  /** Only the counts of calls in flight on entry `n` change. */
  predicate Recounted(s: State, s': State, n: Name) {
    && n in s.cells && n in s'.cells
    && s' == s.(cells := s.cells[n := s'.cells[n]], loans := s'.loans)
    && var e, e' := s.cells[n].e, s'.cells[n].e;
    && s'.cells[n] == s.cells[n].(e := e')
    && e' == e.(inFlight := e'.inFlight, callers := e'.callers)
    && (e.gate || e.inFlight > 0)
  }

  lemma RecountedFrame(s: State, s': State, n: Name, u: Tid, j: nat)
    requires Recounted(s, s', n) && CellOk(s, n) && FrameOk(s, u, j)
    ensures FrameOk(s', u, j)
  {
    hide Chained, CellOk, Trajectory, HeldIn;
    CellFacts(s, n);
    assert Stack(s', u) == Stack(s, u);
    var f := Stack(s, u)[j];
    if f.PrimFrame? && f.name == n && Begun(f, n) {
      RecountedUnderway(s.contexts, s.cells[n].e, s'.cells[n].e, s.cells[n].lost, f);
    }
  }

  lemma RecountedUnderway(contexts: map<ContextId, Context>, e: Entry, e': Entry, lost: bool, f: Frame)
    requires f.PrimFrame? && Underway(contexts, e, lost, f) && e.transition.Some? && EntryOk(e, lost)
    requires e' == e.(inFlight := e'.inFlight, callers := e'.callers) && (e.gate || e.inFlight > 0)
    ensures Underway(contexts, e', lost, f)
  {
    hide Trajectory;
  }

  lemma RecountedKeeps(s: State, s': State, n: Name)
    requires Inv(s) && Recounted(s, s', n)
    requires EntryOk(s'.cells[n].e, s.cells[n].lost)
    requires forall i | 0 <= i < |s'.loans| :: LoanOk(s', s'.loans[i])
    ensures Inv(s')
  {
    hide CellOk, FrameOk, Stable;
    forall m | m in s'.cells ensures CellOk(s', m) {
      RecountedCell(s, s', n, m);
    }
    forall u, j: nat | j < |Stack(s', u)| ensures FrameOk(s', u, j) {
      assert Stack(s', u) == Stack(s, u);
      RecountedFrame(s, s', n, u, j);
    }
    forall c | c in s'.contexts ensures ContextOk(s', c) {
      assert ContextOk(s, c);
    }
    BusyIsUnstable(s.cells[n].e);
  }

  lemma BusyIsUnstable(e: Entry)
    requires e.gate || e.inFlight > 0
    ensures !Stable(e)
  {
  }

  lemma RecountedCell(s: State, s': State, n: Name, m: Name)
    requires Recounted(s, s', n) && m in s.cells && CellOk(s, m)
    requires EntryOk(s'.cells[n].e, s.cells[n].lost)
    ensures CellOk(s', m)
  {
    hide HeldIn, Counted, Trajectory;
    assert Witnessed(s, m) ==> Witnessed(s', m);
    assert History(s', m);
  }

  lemma BorrowKeeps(s: State, a: Action)
    requires Inv(s) && Enabled(s, a) && a.Borrow?
    ensures Inv(Next(s, a))
  {
    hide Inv, CellOk, FrameOk;
    var s' := Next(s, a);
    CellOf(s, a.n);
    CellFacts(s, a.n);
    LendCounted(s.cells[a.n].e, a.t);
    OldLoans(s, s', a.n);
    forall i | 0 <= i < |s'.loans| ensures LoanOk(s', s'.loans[i]) {
      if i < |s.loans| {
        assert LoanOk(s', s.loans[i]);
      }
    }
    RecountedKeeps(s, s', a.n);
  }

  lemma OldLoans(s: State, s': State, n: Name)
    requires Inv(s) && Recounted(s, s', n)
    ensures forall i | 0 <= i < |s.loans| :: LoanOk(s', s.loans[i])
  {
    hide CellOk, FrameOk;
    forall i | 0 <= i < |s.loans| ensures LoanOk(s', s.loans[i]) {
      assert LoanOk(s, s.loans[i]);
    }
  }

  lemma EndBorrowKeeps(s: State, a: Action)
    requires Inv(s) && Enabled(s, a) && a.EndBorrow?
    ensures Inv(Next(s, a))
  {
    hide Inv, CellOk, FrameOk;
    CellOf(s, a.n);
    CellFacts(s, a.n);
    GiveBackCounted(s.cells[a.n].e, a.borrower);
    OldLoans(s, Next(s, a), a.n);
    RecountedKeeps(s, Next(s, a), a.n);
  }

  // --------------------------------------------------------------------- runs

  lemma NextKeeps(s: State, a: Action)
    requires Inv(s) && Enabled(s, a)
    ensures Inv(Next(s, a))
  {
    hide Inv, RunPrim, RunSwitch, RunReload, RunClose, CanRun;
    match a {
      case StartOp(t, f) => StartKeeps(s, t, f);
      case Borrow(_, _, _) => BorrowKeeps(s, a);
      case EndBorrow(_, _, _) => EndBorrowKeeps(s, a);
      case Run(t, c) => RunKeeps(s, t, c);
    }
  }

  lemma RunKeeps(s: State, t: Tid, c: Choice)
    requires Inv(s) && CanRun(s, t, c)
    ensures Inv(Next(s, Run(t, c)))
  {
    hide Inv, RunPrim, RunSwitch, RunReload, RunClose;
    match Top(s, t) {
      case PrimFrame(_, _, _) => PrimKeeps(s, t, c);
      case SwitchFrame(_, _, _, _, _) => SwitchKeeps(s, t, c);
      case ReloadFrame(_, _, _, _, _, _, _, _) => ReloadKeeps(s, t, c);
      case CloseFrame(_, _, _, _) => CloseKeeps(s, t, c);
    }
  }

  /** The invariant holds after every run of any number of threads from the initial state. */
  lemma {:induction false} RunsKeep(s: State, run: seq<Action>)
    requires Inv(s) && Legal(s, run)
    ensures Inv(After(s, run))
    decreases |run|
  {
    hide Inv, Next, Enabled;
    if run != [] {
      NextKeeps(s, run[0]);
      RunsKeep(Next(s, run[0]), run[1..]);
    }
  }

  lemma InitInv()
    ensures Inv(Init)
  {
  }

  lemma Reachable(run: seq<Action>)
    requires Legal(Init, run)
    ensures Inv(After(Init, run))
  {
    InitInv();
    RunsKeep(Init, run);
  }
}
