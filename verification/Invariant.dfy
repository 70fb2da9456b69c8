/** What every reachable state of the protocol satisfies. */
module Invariant {
  import opened Lifecycle
  import opened Plugins
  import opened ContextTree
  import opened StopTheorems
  import opened Names
  import opened Entries
  import opened Protocol

  // ---------------------------------------------------- typestate of a context

  /**
   * The contract of a component context towards its manager: `configured` and
   * `active` say that a cleanup or a deactivation is owed.
   */
  datatype Typestate =
    | Typestate(running: Option<Callback>, configured: bool, active: bool, closed: bool)
    | Violated

  const Fresh: Typestate := Typestate(None, false, false, false)

  /** May this callback start now? */
  predicate Due(ts: Typestate, k: Callback) {
    && ts.Typestate? && ts.running.None? && !ts.closed
    && match k
       case Configuring => !ts.configured && !ts.active
       case Activating => ts.configured && !ts.active
       case Deactivating => ts.active
       case CleaningUp => !ts.active
       case Closing => !ts.configured && !ts.active
  }

  function Observe(ts: Typestate, v: Visit): Typestate {
    match v
    case Started(k, _) => (
      if !Due(ts, k) then Violated
      else
        match k
        case Configuring => ts.(running := Some(k), configured := true)
        case Activating => ts.(running := Some(k), active := true)
        case _ => ts.(running := Some(k)))
    case Ended(k, ok, _, _) => (
      if ts.Violated? || ts.running != Some(k) then Violated
      else if !ok then ts.(running := None)
      else
        match k
        case Deactivating => ts.(running := None, active := false)
        case CleaningUp => ts.(running := None, configured := false)
        case Closing => ts.(running := None, closed := true)
        case _ => ts.(running := None))
  }

  /** `Violated` as soon as one callback started when it was not due. */
  function Trajectory(visits: seq<Visit>): Typestate {
    if visits == [] then Fresh
    else Observe(Trajectory(visits[..|visits| - 1]), visits[|visits| - 1])
  }

  lemma TrajectoryNext(visits: seq<Visit>, v: Visit)
    ensures Trajectory(visits + [v]) == Observe(Trajectory(visits), v)
  {
    assert (visits + [v])[..|visits|] == visits;
  }

  // ---------------------------------------------------------------- entries

  /** The states of an entry between operations, but for what UNLOADED says. */
  predicate Rests(e: Entry) {
    match e.state
    case UNLOADED => true
    case UNCONFIGURED => e.context.Some? && !e.configured && !e.mayBeActive
    case INACTIVE => e.context.Some? && e.configured && !e.mayBeActive
    case ACTIVE => e.context.Some? && e.configured && e.mayBeActive
    case ERROR => true
  }

  /** The states of an entry between operations. */
  predicate Quiet(e: Entry) {
    Rests(e) && (e.state.UNLOADED? ==> e.context.None?)
  }

  /** Kept even while an operation is under way. */
  predicate Coherent(e: Entry) {
    && (e.mayBeActive ==> e.configured)
    && (e.configured ==> e.context.Some?)
    && (e.inFlight > 0 ==> e.context.Some?)
    && (e.gate ==> e.state.ACTIVE? && e.transition.None?)
  }

  /** Kept as well as long as no refresh has lost the entry's context. */
  predicate Flags(e: Entry) {
    && Coherent(e)
    && (e.state.UNLOADED? ==> !e.configured)
    && (e.inFlight > 0 ==> e.mayBeActive)
  }

  /** An entry by itself; what a lost context breaks is not asked of an entry that is `lost`. */
  ghost predicate EntryOk(e: Entry, lost: bool) {
    && Coherent(e) && Counted(e)
    && (e.transition.None? ==> Rests(e))
    && (!lost ==> Flags(e) && (e.transition.None? ==> Quiet(e)))
  }

  /** The tree of a context never owes a deactivation the entry does not know of. */
  predicate Linked(e: Entry, x: Context) {
    var ts := Trajectory(x.visits);
    && ts.Typestate? && !ts.closed
    && ts.configured == e.configured && ts.active == e.mayBeActive
    && (e.transition.None? ==> ts.running.None?)
    && WellFormed(x.tree)
    && (!e.mayBeActive ==> Owing(x.tree) == [])
    && (e.state.ACTIVE? && e.transition.None? ==> AllStarted(x.tree))
  }

  /** `cleanup` was called on an entry whose load had failed. */
  predicate Stuck(e: Entry) {
    e.transition == Some(OpCleanup) && e.context.None? && e.state.ERROR?
  }

  /** The activation is between `_begin` and `_finish` on this entry. */
  predicate Begun(f: Frame, n: Name) {
    && f.PrimFrame? && f.name == n
    && (f.stage.WaitBuild? || f.stage.Building? || f.stage.Drain? || f.stage.Running? || f.stage.Finishing?)
  }

  predicate Witnessed(s: State, n: Name)
    requires n in s.cells
  {
    var cell := s.cells[n];
    && cell.e.transition.Some? && cell.e.operationThread.Some?
    && var stack := Stack(s, cell.e.operationThread.value);
    && cell.frame < |stack|
    && Begun(stack[cell.frame], n)
    && OpOf(stack[cell.frame].op) == cell.e.transition.value
  }

  predicate History(s: State, n: Name)
    requires n in s.cells
  {
    var cell := s.cells[n];
    && cell.e.generation == |cell.built|
    && (forall i | 0 <= i < |cell.built| :: cell.built[i] in s.contexts && s.contexts[cell.built[i]].home == n)
    && (forall i, j | 0 <= i < j < |cell.built| :: cell.built[i] < cell.built[j])
    && (cell.e.context.Some? ==> cell.built != [] && cell.e.context.value == cell.built[|cell.built| - 1])
  }

  ghost predicate CellOk(s: State, n: Name) {
    && n in s.cells
    && var cell := s.cells[n];
    && EntryOk(cell.e, cell.lost) && History(s, n)
    && (cell.e.context.Some? ==> Linked(cell.e, s.contexts[cell.e.context.value]))
    && (cell.e.transition.Some? ==> Stuck(cell.e) || Witnessed(s, n))
    && (cell.owner.Some? ==> HeldIn(Stack(s, cell.owner.value), n))
  }

  /** Unloaded for good once the manager is closing. */
  predicate Stable(e: Entry) {
    && e.state.UNLOADED? && e.context.None? && e.inFlight == 0 && !e.gate
    && (e.transition.None? || e.transition == Some(OpUnload))
  }

  // ------------------------------------------------------------- activations

  /** Waiting activations have exactly the announced operation above them. */
  predicate Chained(stack: seq<Frame>, i: nat)
    requires i < |stack|
  {
    var f := stack[i];
    && (Awaits(f).Some? ==>
          && i + 1 < |stack| && stack[i + 1].PrimFrame?
          && stack[i + 1].op == Awaits(f).value.0 && stack[i + 1].name == Awaits(f).value.1)
    && (i + 1 < |stack| ==> Awaits(f).Some? || CallsOut(f))
  }

  predicate Locked(cells: map<Name, Cell>, t: Tid, f: Frame) {
    match f
    case PrimFrame(_, n, stage) => !stage.Lookup? ==> n in cells && (Holds(f, n) ==> cells[n].owner == Some(t))
    case SwitchFrame(a, b, _, _, sw) => !sw.SLookup? ==>
      && a != b && a in cells && b in cells
      && (Holds(f, a) ==> cells[a].owner == Some(t)) && (Holds(f, b) ==> cells[b].owner == Some(t))
    case ReloadFrame(n, _, _, _, _, _, _, rl) => !rl.RLookup? ==> n in cells && (Holds(f, n) ==> cells[n].owner == Some(t))
    case CloseFrame(_, _, _, _) => true
  }

  function Phase(contexts: map<ContextId, Context>, e: Entry): Typestate {
    if e.context.Some? && e.context.value in contexts then Trajectory(contexts[e.context.value].visits) else Fresh
  }

  /** The instances of the entry's context are all started. */
  predicate Lively(contexts: map<ContextId, Context>, e: Entry) {
    e.context.Some? && e.context.value in contexts ==> AllStarted(contexts[e.context.value].tree)
  }

  predicate MayRun(op: Prim, k: Callback, e: Entry) {
    match k
    case Configuring => op.Configure? && e.configured && !e.mayBeActive
    case Activating => op.Activate? && e.mayBeActive
    case Deactivating => (op.Deactivate? || op.Unload?) && e.mayBeActive
    case CleaningUp => (op.Cleanup? || (op.Unload? && e.configured)) && !e.mayBeActive
    case Closing => op.Unload? && !e.configured && !e.mayBeActive
  }

  /** What an activation between `_begin` and `_finish` relies on. */
  predicate Underway(contexts: map<ContextId, Context>, e: Entry, lost: bool, f: Frame)
    requires f.PrimFrame?
  {
    var ts := Phase(contexts, e);
    match f.stage
    case WaitBuild => f.op.Load? && e.state.UNLOADED? && (!lost ==> e.context.None?) && ts.Typestate? && ts.running.None?
    case Building => f.op.Load? && e.state.UNLOADED? && (!lost ==> e.context.None?) && ts.Typestate? && ts.running.None?
    case Drain => (f.op.Unload? || (f.op.Deactivate? && e.mayBeActive)) && ts.Typestate? && ts.running.None?
      && (e.state.ACTIVE? && e.mayBeActive ==> Lively(contexts, e))
    case Running(k) =>
      && (f.op.Deactivate? || f.op.Unload? || !lost ==> e.inFlight == 0)
      && e.context.Some? && MayRun(f.op, k, e)
      && ts.Typestate? && ts.running == Some(k)
      && (k.Activating? && e.context.value in contexts ==> Owing(contexts[e.context.value].tree) == [])
      && (k.Deactivating? && e.state.ACTIVE? ==> Lively(contexts, e))
    case Finishing(to, ok, _) =>
      && ts.Typestate? && ts.running.None?
      && Rests(e.(state := to)) && (!lost ==> Quiet(e.(state := to)))
      && (ok ==> to == Reached(f.op, true)) && (to.ACTIVE? ==> ok && Lively(contexts, e))
      && (f.op.Unload? ==> (e.context.None? <==> ok))
      && (f.op.Cleanup? ==> e.context.Some?)
    case _ => true
  }

  predicate PrimOk(s: State, t: Tid, i: nat, f: Frame)
    requires f.PrimFrame?
  {
    f.name in s.cells ==>
      var cell := s.cells[f.name];
      var e := cell.e;
      && (Begun(f, f.name) ==>
            && e.transition == Some(OpOf(f.op)) && e.operationThread == Some(t) && cell.frame == i
            && Underway(s.contexts, e, cell.lost, f))
      && (f.stage.Begin? && f.op.Cleanup? ==> !e.mayBeActive)
      && (f.stage.Begin? && f.op.Deactivate? ==> e.state.ERROR? ==> e.mayBeActive)
      && (f.stage.Leaving? && Succeeded(f.stage.ret) ==>
            && e.transition.None? && e.state == Reached(f.op, true)
            && (f.op.Unload? ==> e.context.None?))
  }

  /** While a refresh runs, no operation on its entry is under way below it. */
  predicate ReloadOk(stack: seq<Frame>, i: nat)
    requires i < |stack|
  {
    Refreshing(stack[i]) ==> forall j | 0 <= j < i :: !Begun(stack[j], stack[i].name)
  }

  /** Entries `close` no longer has to visit are settled, unless one unload failed. */
  predicate CloseOk(s: State, f: Frame)
    requires f.CloseFrame?
  {
    if f.cl.CStart? then f.todo == [] && f.ok
    else
      && s.closing
      && (f.cl.CUnloading? ==> f.todo != [])
      && (forall n | n in f.todo :: n in s.cells)
      && (f.ok ==> forall n | n in s.cells :: n in f.todo || Stable(s.cells[n].e))
  }

  predicate FrameOk(s: State, t: Tid, i: nat) {
    && i < |Stack(s, t)|
    && var f := Stack(s, t)[i];
    && Chained(Stack(s, t), i)
    && Locked(s.cells, t, f)
    && (f.PrimFrame? ==> PrimOk(s, t, i, f))
    && ReloadOk(Stack(s, t), i)
    && (f.CloseFrame? ==> CloseOk(s, f))
  }

  /** A loan was made of the context that its generation names. */
  predicate LoanOk(s: State, l: Loan) {
    && l.name in s.cells
    && 1 <= l.generation <= |s.cells[l.name].built|
    && s.cells[l.name].built[l.generation - 1] == l.context
  }

  predicate ContextOk(s: State, c: ContextId) {
    c in s.contexts ==> c < s.next && Trajectory(s.contexts[c].visits).Typestate?
  }

  ghost predicate Inv(s: State) {
    && (forall n :: n in s.order <==> n in s.cells)
    && (forall c | c in s.contexts :: ContextOk(s, c))
    && (forall n | n in s.cells :: CellOk(s, n))
    && (forall t, i: nat | i < |Stack(s, t)| :: FrameOk(s, t, i))
    && (forall i | 0 <= i < |s.loans| :: LoanOk(s, s.loans[i]))
    && (s.closedOk ==> s.closing && forall n | n in s.cells :: Stable(s.cells[n].e))
  }
}
