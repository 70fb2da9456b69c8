/**
 * `PluginManager` as a protocol of interleaved threads.
 *
 * Every thread has a stack of activations. A step of a thread runs the code of
 * its innermost activation up to the end of the next condition-protected
 * section or foreign call. Callbacks, builders and refreshes may call the manager
 * again, which pushes a new activation on the same stack. Choices that foreign code or
 * the clock makes come with the step, so a run is a list of labelled actions.
 */
module Protocol {
  import opened Lifecycle
  import opened Plugins
  import opened ContextTree
  import opened StopTheorems
  import opened Names
  import opened Entries

  // ------------------------------------------------------------ activations

  datatype Prim =
    | Load(component: Option<string>)
    | Configure
    | Activate(state: Option<Value>)
    | Deactivate(timed: bool)
    | Cleanup
    | Unload(timed: bool)

  function OpOf(p: Prim): Op {
    match p
    case Load(_) => OpLoad
    case Configure => OpConfigure
    case Activate(_) => OpActivate
    case Deactivate(_) => OpDeactivate
    case Cleanup => OpCleanup
    case Unload(_) => OpUnload
  }

  function Allowed(p: Prim): set<LifecycleState> {
    match p
    case Load(_) => {UNLOADED}
    case Configure => {UNCONFIGURED}
    case Activate(_) => {INACTIVE}
    case Deactivate(_) => {ACTIVE, ERROR}
    case Cleanup => {INACTIVE, ERROR}
    case Unload(_) => EVERY_STATE
  }

  /** What the manager runs on a component context. */
  datatype Callback = Configuring | Activating | Deactivating | CleaningUp | Closing

  datatype Ret = Ret(ok: bool, state: Option<Value>) | Raised

  predicate Succeeded(r: Ret) {
    r.Ret? && r.ok
  }

  /** Where a single operation stands; the entry's operation lock is held from `Check` to `Leaving`. */
  datatype Stage =
    | Lookup
    | Acquire
    | Check
    | Begin
    | WaitBuild
    | Building
    | Drain
    | Running(callback: Callback)
    | Finishing(to: LifecycleState, ok: bool, exported: Option<Value>)
    | Leaving(ret: Ret)

  /** How far a switch had got when it decided its result; only records history. */
  datatype Reach = Early | Compared | Stopped

  datatype SwitchStage =
    | SLookup | SFirst | SSecond
    | SGuard
    | SLoading
    | SConfigure | SConfiguring
    | SCompare | SStopping
    | SStart(exported: Option<Value>) | SStarting(exported: Option<Value>)
    | SLeaving(ret: Ret, reach: Reach)

  datatype ReloadStage =
    | RLookup | RAcquire
    | RStart | RStopping
    | RUnload | RUnloading
    | RRefreshing
    | RLoad | RLoading
    | RConfigure | RConfiguring
    | RActivate | RActivating
    | RLeaving(ret: Ret)

  datatype CloseStage = CStart | CNext | CUnloading

  /** The generation that a reload started from, and what the stop of that generation exported. */
  datatype Past = Past(generation: nat, given: Option<Value>)

  /** `since` only records history. */
  datatype Frame =
    | PrimFrame(op: Prim, name: Name, stage: Stage)
    | SwitchFrame(source: Name, target: Name, transfer: bool, timed: bool, sw: SwitchStage)
    | ReloadFrame(name: Name, transfer: bool, timed: bool, refresh: bool,
        wasActive: bool, snapshot: Option<Value>, since: Past, rl: ReloadStage)
    | CloseFrame(timed: bool, todo: seq<Name>, ok: bool, cl: CloseStage)

  // ------------------------------------------------------------------ state

  /** A callback that ended records the calls of plugin and runtime code that it made. */
  datatype Visit =
    | Started(callback: Callback, arg: Option<Value>)
    | Ended(callback: Callback, ok: bool, state: Option<Value>, events: seq<Event>)

  /** A component context: its tree, the entry it was built for, and every callback the manager ran on it. */
  datatype Context = Context(home: Name, tree: Tree, visits: seq<Visit>)

  /**
   * An entry with its operation lock (`owner`). `built` (every context ever
   * loaded here, in order), `frame` (which activation of `operationThread` set
   * `transition`) and `lost` (a refresh raised while a context was held, which
   * `reload` then marked UNLOADED) only record history.
   */
  datatype Cell = Cell(e: Entry, owner: Option<Tid>, built: seq<ContextId>, frame: nat, lost: bool)

  const EmptyCell: Cell := Cell(NewEntry, None, [], 0, false)

  /** A successful borrow: the generation checked, and the context whose root instance was lent. */
  datatype Loan = Loan(name: Name, generation: nat, context: ContextId)

  datatype State = State(
    cells: map<Name, Cell>,
    order: seq<Name>,
    contexts: map<ContextId, Context>,
    next: ContextId,
    closing: bool,
    stacks: map<Tid, seq<Frame>>,
    loans: seq<Loan>,
    closedOk: bool)

  const Init: State := State(map[], [], map[], 0, false, map[], [], false)

  function Stack(s: State, t: Tid): seq<Frame> {
    if t in s.stacks then s.stacks[t] else []
  }

  function Top(s: State, t: Tid): Frame
    requires Stack(s, t) != []
  {
    Stack(s, t)[|Stack(s, t)| - 1]
  }

  // ---------------------------------------------------------------- helpers

  function FirstLock(source: Name, target: Name): Name {
    if Before(source, target) then source else target
  }

  function SecondLock(source: Name, target: Name): Name {
    if Before(source, target) then target else source
  }

  /** The activation is inside `with entry.operation` for this name. */
  predicate Holds(f: Frame, n: Name) {
    match f
    case PrimFrame(_, name, stage) => name == n && !stage.Lookup? && !stage.Acquire?
    case SwitchFrame(source, target, _, _, sw) =>
      || (n == FirstLock(source, target) && !sw.SLookup? && !sw.SFirst?)
      || (n == SecondLock(source, target) && !sw.SLookup? && !sw.SFirst? && !sw.SSecond?)
    case ReloadFrame(name, _, _, _, _, _, _, rl) => name == n && !rl.RLookup? && !rl.RAcquire?
    case CloseFrame(_, _, _, _) => false
  }

  predicate HeldIn(stack: seq<Frame>, n: Name) {
    exists i | 0 <= i < |stack| :: Holds(stack[i], n)
  }

  /** User code of a callback or builder is running in this activation. */
  predicate UserCode(f: Frame) {
    f.PrimFrame? && (f.stage.Running? || f.stage.Building?)
  }

  predicate Refreshing(f: Frame) {
    f.ReloadFrame? && f.rl.RRefreshing?
  }

  /** Foreign code that may call the manager is running in the activation. */
  predicate CallsOut(f: Frame) {
    UserCode(f) || Refreshing(f)
  }

  /** The thread may start an operation, borrow, or end a borrow: it is idle, or inside foreign code. */
  predicate MayCall(stack: seq<Frame>) {
    stack == [] || CallsOut(stack[|stack| - 1])
  }

  predicate Starting(f: Frame) {
    match f
    case PrimFrame(_, _, stage) => stage.Lookup?
    case SwitchFrame(_, _, _, _, sw) => sw.SLookup?
    case ReloadFrame(_, _, _, _, _, _, _, rl) => rl.RLookup?
    case CloseFrame(_, todo, ok, cl) => cl.CStart? && todo == [] && ok
  }

  /** The operation an activation is waiting for, if it is. */
  function Awaits(f: Frame): Option<(Prim, Name)> {
    match f
    case PrimFrame(_, _, _) => None
    case SwitchFrame(source, target, transfer, timed, sw) => (
      match sw
      case SLoading => Some((Load(None), target))
      case SConfiguring => Some((Configure, target))
      case SStopping => Some((Deactivate(timed), source))
      case SStarting(exported) => Some((Activate(if transfer then exported else None), target))
      case _ => None)
    case ReloadFrame(name, _, timed, _, _, snapshot, _, rl) => (
      match rl
      case RStopping => Some((Deactivate(timed), name))
      case RUnloading => Some((Unload(timed), name))
      case RLoading => Some((Load(None), name))
      case RConfiguring => Some((Configure, name))
      case RActivating => Some((Activate(snapshot), name))
      case _ => None)
    case CloseFrame(timed, todo, _, cl) =>
      if cl.CUnloading? && todo != [] then Some((Unload(timed), todo[0])) else None
  }

  /** An awaited operation has returned `r`. */
  function Resume(f: Frame, r: Ret): Frame {
    var ok := Succeeded(r);
    match f
    case PrimFrame(_, _, _) => f
    case SwitchFrame(_, _, _, _, sw) => f.(sw :=
      match sw
      case SLoading => if ok then SConfigure else SLeaving(r, Early)
      case SConfiguring => if ok then SCompare else SLeaving(r, Early)
      case SStopping => if ok then SStart(r.state) else SLeaving(r, Compared)
      case SStarting(_) => SLeaving(r, Stopped)
      case _ => sw)
    case ReloadFrame(_, transfer, _, refresh, wasActive, _, _, rl) => (
      match rl
      case RStopping =>
        if ok then f.(rl := RUnload, snapshot := if transfer then r.state else None, since := f.since.(given := r.state))
        else f.(rl := RLeaving(r))
      case RUnloading => f.(rl := if !ok then RLeaving(r) else if refresh then RRefreshing else RLoad)
      case RLoading => f.(rl := if ok then RConfigure else RLeaving(r))
      case RConfiguring => f.(rl := if !ok then RLeaving(r) else if wasActive then RActivate else RLeaving(Ret(true, None)))
      case RActivating => f.(rl := RLeaving(r))
      case _ => f)
    case CloseFrame(_, todo, ok', cl) =>
      if cl.CUnloading? && todo != [] then f.(todo := todo[1..], ok := ok' && ok, cl := CNext) else f
  }

  // ----------------------------------------------------------- state updates

  /** Replace the innermost activation. */
  function SetTop(s: State, t: Tid, f: Frame): State
    requires Stack(s, t) != []
  {
    s.(stacks := s.stacks[t := Stack(s, t)[|Stack(s, t)| - 1 := f]])
  }

  function Push(s: State, t: Tid, f: Frame): State {
    s.(stacks := s.stacks[t := Stack(s, t) + [f]])
  }

  function SetEntry(s: State, n: Name, e: Entry): State
    requires n in s.cells
  {
    s.(cells := s.cells[n := s.cells[n].(e := e)])
  }

  /** The stack after the innermost activation returned `r`. */
  function Unwind(stack: seq<Frame>, r: Ret): (rest: seq<Frame>)
    requires stack != []
    ensures |rest| == |stack| - 1
  {
    var rest := stack[..|stack| - 1];
    if rest == [] then rest else rest[|rest| - 1 := Resume(rest[|rest| - 1], r)]
  }

  /** Operation locks that no remaining activation holds become free. */
  function ReleaseLock(cells: map<Name, Cell>, n: Name, t: Tid, stack: seq<Frame>): map<Name, Cell> {
    if n in cells && cells[n].owner == Some(t) && !HeldIn(stack, n)
    then cells[n := cells[n].(owner := None)] else cells
  }

  function Return(s: State, t: Tid, r: Ret): State
    requires Stack(s, t) != []
  {
    var f := Top(s, t);
    var rest := Unwind(Stack(s, t), r);
    var cells :=
      match f
      case PrimFrame(_, n, _) => ReleaseLock(s.cells, n, t, rest)
      case SwitchFrame(a, b, _, _, _) => ReleaseLock(ReleaseLock(s.cells, a, t, rest), b, t, rest)
      case ReloadFrame(n, _, _, _, _, _, _, _) => ReleaseLock(s.cells, n, t, rest)
      case CloseFrame(_, _, _, _) => s.cells;
    s.(stacks := s.stacks[t := rest], cells := cells)
  }

  /** The innermost activation becomes `f`, and the operation it then waits for starts. */
  function Await(s: State, t: Tid, f: Frame): State
    requires Stack(s, t) != [] && Awaits(f).Some?
  {
    var (op, n) := Awaits(f).value;
    Push(SetTop(s, t, f), t, PrimFrame(op, n, Lookup))
  }

  // ----------------------------------------------------------------- actions

  /** The foreign code behind a callback, and everything that has been asked of it before. */
  datatype Outside = Outside(oracle: Oracle, history: seq<Event>)

  /** What the clock and foreign code decide in one step. */
  datatype Choice = Choice(timeout: bool, built: Option<Tree>, outside: Outside, refreshed: bool)

  /** A choice of a step in which nothing foreign is decided. */
  const Plain: Choice := Choice(false, None, Outside((_, _) => GaveOther, []), false)

  /** A borrow may end in another thread than the one it counts for. */
  datatype Action =
    | StartOp(t: Tid, f: Frame)
    | Borrow(t: Tid, n: Name, generation: Option<nat>)
    | EndBorrow(t: Tid, n: Name, borrower: Tid)
    | Run(t: Tid, choice: Choice)

  predicate CanLock(s: State, t: Tid, n: Name) {
    n in s.cells ==> s.cells[n].owner.None? || s.cells[n].owner == Some(t)
  }

  /** No other thread is inside the builder (`_build_lock`). */
  predicate BuilderFree(s: State, t: Tid) {
    forall u | u in s.stacks && u != t :: !BuildsIn(s.stacks[u])
  }

  predicate BuildsIn(stack: seq<Frame>) {
    exists i | 0 <= i < |stack| :: stack[i].PrimFrame? && stack[i].stage.Building?
  }

  /** A newly constructed tree owes no deactivation. */
  predicate NewTree(t: Tree) {
    WellFormed(t) && Owing(t) == []
  }

  predicate CanRun(s: State, t: Tid, c: Choice) {
    Stack(s, t) != [] &&
    match Top(s, t)
    case PrimFrame(op, n, stage) => (
      match stage
      case Acquire => CanLock(s, t, n)
      case WaitBuild => BuilderFree(s, t)
      case Building => c.built.Some? ==> NewTree(c.built.value)
      case Drain => n in s.cells ==>
        s.cells[n].e.inFlight == 0 || (c.timeout && (op.Deactivate? || op.Unload?) && op.timed)
      case _ => true)
    case SwitchFrame(a, b, _, _, sw) => (
      match sw
      case SFirst => CanLock(s, t, FirstLock(a, b))
      case SSecond => CanLock(s, t, SecondLock(a, b))
      case _ => true)
    case ReloadFrame(n, _, _, _, _, _, _, rl) => rl.RAcquire? ==> CanLock(s, t, n)
    case CloseFrame(_, _, _, _) => true
  }

  predicate Enabled(s: State, a: Action) {
    match a
    case StartOp(t, f) => MayCall(Stack(s, t)) && Starting(f)
    case Borrow(t, n, generation) =>
      && MayCall(Stack(s, t)) && n in s.cells && Lendable(s.cells[n].e, generation)
      && s.cells[n].e.context.Some? && s.cells[n].e.context.value in s.contexts
      && s.contexts[s.cells[n].e.context.value].tree.plugin.Some?
    case EndBorrow(t, n, borrower) => MayCall(Stack(s, t)) && n in s.cells && Calling(s.cells[n].e, borrower) > 0
    case Run(t, c) => CanRun(s, t, c)
  }

  function Next(s: State, a: Action): State
    requires Enabled(s, a)
  {
    match a
    case StartOp(t, f) => Push(s, t, f)
    case Borrow(t, n, _) =>
      var e := s.cells[n].e;
      SetEntry(s, n, Lend(e, t)).(loans := s.loans + [Loan(n, e.generation, e.context.value)])
    case EndBorrow(t, n, borrower) => SetEntry(s, n, GiveBack(s.cells[n].e, borrower))
    case Run(t, c) => (
      match Top(s, t)
      case PrimFrame(_, _, _) => RunPrim(s, t, c)
      case SwitchFrame(_, _, _, _, _) => RunSwitch(s, t)
      case ReloadFrame(_, _, _, _, _, _, _, _) => RunReload(s, t, c)
      case CloseFrame(_, _, _, _) => RunClose(s, t))
  }

  // --------------------------------------------------------- single operations

  function ToStage(s: State, t: Tid, stage: Stage): State
    requires Stack(s, t) != [] && Top(s, t).PrimFrame?
  {
    SetTop(s, t, Top(s, t).(stage := stage))
  }

  function RunPrim(s: State, t: Tid, c: Choice): State
    requires CanRun(s, t, c) && Top(s, t).PrimFrame?
  {
    var f := Top(s, t);
    if f.stage.Lookup? then RunLookup(s, t)
    else if f.name !in s.cells then s
    else
      match f.stage
      case Lookup => s
      case Acquire =>
        var locked := s.(cells := s.cells[f.name := s.cells[f.name].(owner := Some(t))]);
        ToStage(locked, t, if f.op.Activate? || f.op.Deactivate? || f.op.Cleanup? then Check else Begin)
      case Check => RunCheck(s, t)
      case Begin => RunBegin(s, t)
      case WaitBuild => ToStage(s, t, Building)
      case Building => RunBuilding(s, t, c)
      case Drain => RunDrain(s, t)
      case Running(k) => RunCallback(s, t, c)
      case Finishing(to, ok, exported) =>
        ToStage(SetEntry(s, f.name, Finish(s.cells[f.name].e, to, ok)), t, Leaving(Ret(ok, if ok then exported else None)))
      case Leaving(r) => Return(s, t, r)
  }

  function RunLookup(s: State, t: Tid): State
    requires Stack(s, t) != [] && Top(s, t).PrimFrame?
  {
    var f := Top(s, t);
    if f.op.Load? then
      if Blank(f.name) || s.closing then Return(s, t, Ret(false, None))
      else if f.name in s.cells then ToStage(s, t, Acquire)
      else
        ToStage(s.(cells := s.cells[f.name := EmptyCell], order := s.order + [f.name]), t, Acquire)
    else if f.name !in s.cells then Return(s, t, Raised)
    else ToStage(s, t, Acquire)
  }

  /** The condition section before `_begin` in `activate`, `deactivate` and `cleanup`. */
  function RunCheck(s: State, t: Tid): State
    requires Stack(s, t) != [] && Top(s, t).PrimFrame? && Top(s, t).name in s.cells
  {
    var f := Top(s, t);
    var e := s.cells[f.name].e;
    if f.op.Activate? && e.state.ACTIVE? && e.transition.None? && !s.closing then
      ToStage(s, t, Leaving(Ret(true, None)))
    else if f.op.Deactivate? && e.state.INACTIVE? && e.transition.None? then
      ToStage(s, t, Leaving(Ret(true, None)))
    else if (f.op.Deactivate? && e.state.ERROR? && !e.mayBeActive) || (f.op.Cleanup? && e.mayBeActive) then
      ToStage(SetEntry(s, f.name, Reject(e)), t, Leaving(Ret(false, None)))
    else
      ToStage(s, t, Begin)
  }

  function RunBegin(s: State, t: Tid): State
    requires Stack(s, t) != [] && Top(s, t).PrimFrame? && Top(s, t).name in s.cells
  {
    var f := Top(s, t);
    var cell := s.cells[f.name];
    var e := cell.e;
    if Refuses(e, t, s.closing, Allowed(f.op), f.op.Unload?) then
      ToStage(SetEntry(s, f.name, Reject(e)), t, Leaving(Ret(false, None)))
    else
      var e' := Entries.Begin(e, OpOf(f.op), t);
      var began := s.(cells := s.cells[f.name := cell.(e := e', frame := |Stack(s, t)| - 1)]);
      match f.op
      case Load(component) =>
        var named := if component.Some? then e'.(component := component.value) else e';
        var s' := SetEntry(began, f.name, named);
        if named.component == "" then ToStage(s', t, Finishing(UNLOADED, false, None))
        else ToStage(s', t, WaitBuild)
      case Configure =>
        StartCallback(SetEntry(began, f.name, e'.(configured := true)), t, Configuring)
      case Activate(_) =>
        StartCallback(SetEntry(began, f.name, e'.(mayBeActive := true)), t, Activating)
      case Deactivate(_) => ToStage(began, t, Drain)
      case Cleanup =>
        // `entry.context.cleanup` is evaluated outside `_capture`.
        if e'.context.None? then ToStage(began, t, Leaving(Raised))
        else StartCallback(began, t, CleaningUp)
      case Unload(_) => ToStage(began, t, Drain)
  }

  function RunBuilding(s: State, t: Tid, c: Choice): State
    requires Stack(s, t) != [] && Top(s, t).PrimFrame? && Top(s, t).name in s.cells
  {
    var f := Top(s, t);
    var cell := s.cells[f.name];
    if c.built.None? then ToStage(s, t, Finishing(ERROR, false, None))
    else
      var e := cell.e.(context := Some(s.next), generation := cell.e.generation + 1,
        configured := false, mayBeActive := false);
      var s' := s.(
        cells := s.cells[f.name := cell.(e := e, built := cell.built + [s.next])],
        contexts := s.contexts[s.next := Context(f.name, c.built.value, [])],
        next := s.next + 1);
      ToStage(s', t, Finishing(UNCONFIGURED, true, None))
  }

  /** Start a callback on the entry's context. */
  function StartCallback(s: State, t: Tid, k: Callback): State
    requires Stack(s, t) != [] && Top(s, t).PrimFrame? && Top(s, t).name in s.cells
  {
    var f := Top(s, t);
    var id := s.cells[f.name].e.context;
    if id.None? || id.value !in s.contexts then s
    else
      var x := s.contexts[id.value];
      var visit := Started(k, if k.Activating? && f.op.Activate? then f.op.state else None);
      ToStage(s.(contexts := s.contexts[id.value := x.(visits := x.visits + [visit])]), t, Running(k))
  }

  /** What `unload` does after `_stop` succeeded or was not needed. */
  function UnloadStopped(s: State, t: Tid): State
    requires Stack(s, t) != [] && Top(s, t).PrimFrame? && Top(s, t).name in s.cells
  {
    StartCallback(s, t, if s.cells[Top(s, t).name].e.configured then CleaningUp else Closing)
  }

  function RunDrain(s: State, t: Tid): State
    requires Stack(s, t) != [] && Top(s, t).PrimFrame? && Top(s, t).name in s.cells
  {
    var f := Top(s, t);
    var e := s.cells[f.name].e;
    if e.inFlight != 0 then ToStage(s, t, Finishing(ERROR, false, None))
    else if f.op.Deactivate? || e.mayBeActive then StartCallback(s, t, Deactivating)
    else if e.context.None? then ToStage(s, t, Finishing(UNLOADED, true, None))
    else UnloadStopped(s, t)
  }

  /** The tree traversal behind a callback. */
  function Perform(o: Outside, k: Callback, tree: Tree, arg: Option<Value>): TreeResult {
    match k
    case Configuring => ConfigureTree(o.oracle, o.history, tree)
    case Activating => ActivateTree(o.oracle, o.history, tree, arg)
    case Deactivating => DeactivateTree(o.oracle, o.history, tree)
    case CleaningUp => CleanupTree(o.oracle, o.history, tree)
    case Closing => CloseTree(o.oracle, o.history, tree)
  }

  /** What is recorded of a callback that ended, with everything it asked for since `before`. */
  function VisitOf(before: seq<Event>, k: Callback, r: TreeResult): Visit {
    Ended(k, r.error.None?, r.state, if |before| <= |r.trace| then r.trace[|before|..] else [])
  }

  /** The flags the code after a callback updates. */
  function Settle(e: Entry, k: Callback, ok: bool): Entry {
    if !ok then e
    else
      match k
      case Deactivating => e.(mayBeActive := false)
      case CleaningUp => e.(configured := false)
      case Closing => e.(context := None)
      case _ => e
  }

  function Reached(op: Prim, ok: bool): LifecycleState {
    if !ok then ERROR
    else
      match op
      case Load(_) => UNCONFIGURED
      case Configure => INACTIVE
      case Activate(_) => ACTIVE
      case Deactivate(_) => INACTIVE
      case Cleanup => UNCONFIGURED
      case Unload(_) => UNLOADED
  }

  function RunCallback(s: State, t: Tid, c: Choice): State
    requires Stack(s, t) != [] && Top(s, t).PrimFrame? && Top(s, t).name in s.cells && Top(s, t).stage.Running?
  {
    var f := Top(s, t);
    var k := f.stage.callback;
    var e := s.cells[f.name].e;
    if e.context.None? || e.context.value !in s.contexts then s
    else
      var x := s.contexts[e.context.value];
      var r := Perform(c.outside, k, x.tree, if f.op.Activate? then f.op.state else None);
      var ok := r.error.None?;
      var ended := s.(contexts :=
        s.contexts[e.context.value := x.(tree := r.tree, visits := x.visits + [VisitOf(c.outside.history, k, r)])]);
      var s' := SetEntry(ended, f.name, Settle(e, k, ok));
      if f.op.Unload? && ok && k.Deactivating? then UnloadStopped(s', t)
      else if f.op.Unload? && ok && k.CleaningUp? then StartCallback(s', t, Closing)
      else ToStage(s', t, Finishing(Reached(f.op, ok), ok, if f.op.Deactivate? then r.state else None))
  }

  // ------------------------------------------------------------------- switch

  function ToSwitch(s: State, t: Tid, sw: SwitchStage): State
    requires Stack(s, t) != [] && Top(s, t).SwitchFrame?
  {
    SetTop(s, t, Top(s, t).(sw := sw))
  }

  /** The HANDOVER_STATE_TYPE of an entry's root instance, if it has one. */
  function RootClass(s: State, n: Name): Option<PluginClass>
    requires n in s.cells
  {
    var id := s.cells[n].e.context;
    if id.Some? && id.value in s.contexts then s.contexts[id.value].tree.plugin else None
  }

  function AwaitSwitch(s: State, t: Tid, sw: SwitchStage): State
    requires Stack(s, t) != [] && Top(s, t).SwitchFrame?
    requires Awaits(Top(s, t).(sw := sw)).Some?
  {
    Await(s, t, Top(s, t).(sw := sw))
  }

  function Lock(s: State, t: Tid, n: Name): State
    requires n in s.cells
  {
    s.(cells := s.cells[n := s.cells[n].(owner := Some(t))])
  }

  function RunSwitch(s: State, t: Tid): State
    requires Stack(s, t) != [] && Top(s, t).SwitchFrame?
  {
    var f := Top(s, t);
    if f.sw.SLookup? then
      if f.source == f.target then Return(s, t, Ret(false, None))
      else if f.source !in s.cells || f.target !in s.cells then Return(s, t, Raised)
      else ToSwitch(s, t, SFirst)
    else if f.source !in s.cells || f.target !in s.cells then s
    else
      var source, target := s.cells[f.source].e, s.cells[f.target].e;
      match f.sw
      case SFirst => ToSwitch(Lock(s, t, FirstLock(f.source, f.target)), t, SSecond)
      case SSecond => ToSwitch(Lock(s, t, SecondLock(f.source, f.target)), t, SGuard)
      case SGuard =>
        if Calling(source, t) > 0 || Calling(target, t) > 0 then ToSwitch(s, t, SLeaving(Ret(false, None), Early))
        else if !source.state.ACTIVE? then ToSwitch(s, t, SLeaving(Ret(false, None), Early))
        else if target.state.UNLOADED? then AwaitSwitch(s, t, SLoading)
        else ToSwitch(s, t, SConfigure)
      case SConfigure =>
        if target.state.UNCONFIGURED? then AwaitSwitch(s, t, SConfiguring)
        else ToSwitch(s, t, SCompare)
      case SCompare =>
        if !target.state.INACTIVE? then ToSwitch(s, t, SLeaving(Ret(false, None), Early))
        else if f.transfer then
          var a, b := RootClass(s, f.source), RootClass(s, f.target);
          if a.None? || b.None? then ToSwitch(s, t, SLeaving(Raised, Early))
          else if a.value.handover != b.value.handover then ToSwitch(s, t, SLeaving(Ret(false, None), Early))
          else AwaitSwitch(s, t, SStopping)
        else AwaitSwitch(s, t, SStopping)
      case SStart(exported) => AwaitSwitch(s, t, SStarting(exported))
      case SLeaving(r, _) => Return(s, t, r)
      case _ => s
  }

  // ------------------------------------------------------------------- reload

  function ToReload(s: State, t: Tid, rl: ReloadStage): State
    requires Stack(s, t) != [] && Top(s, t).ReloadFrame?
  {
    SetTop(s, t, Top(s, t).(rl := rl))
  }

  /** `refresh` raised: `_finish` marks the entry UNLOADED, whatever it holds. */
  function RefreshFailed(s: State, n: Name): State
    requires n in s.cells
  {
    var cell := s.cells[n];
    s.(cells := s.cells[n := cell.(e := Finish(cell.e, UNLOADED, false), lost := cell.lost || cell.e.context.Some?)])
  }

  function RunReload(s: State, t: Tid, c: Choice): State
    requires Stack(s, t) != [] && Top(s, t).ReloadFrame?
  {
    var f := Top(s, t);
    if f.rl.RLookup? then
      if f.name !in s.cells then Return(s, t, Raised) else ToReload(s, t, RAcquire)
    else if f.name !in s.cells then s
    else
      match f.rl
      case RAcquire => ToReload(Lock(s, t, f.name), t, RStart)
      case RStart =>
        if s.cells[f.name].e.state.ACTIVE?
        then Await(s, t, f.(wasActive := true, snapshot := None, since := Past(s.cells[f.name].e.generation, None), rl := RStopping))
        else SetTop(s, t, f.(wasActive := false, snapshot := None, since := Past(s.cells[f.name].e.generation, None), rl := RUnload))
      case RUnload => Await(s, t, f.(rl := RUnloading))
      case RRefreshing =>
        if c.refreshed then ToReload(s, t, RLoad)
        else ToReload(RefreshFailed(s, f.name), t, RLeaving(Ret(false, None)))
      case RLoad => Await(s, t, f.(rl := RLoading))
      case RConfigure => Await(s, t, f.(rl := RConfiguring))
      case RActivate => Await(s, t, f.(rl := RActivating))
      case RLeaving(r) => Return(s, t, r)
      case _ => s
  }

  // -------------------------------------------------------------------- close

  /** `close` refuses to run inside a guarded call or a callback of this thread. */
  predicate InsideManagedCode(s: State, t: Tid) {
    exists n | n in s.cells :: Calling(s.cells[n].e, t) > 0 || s.cells[n].e.operationThread == Some(t)
  }

  function RunClose(s: State, t: Tid): State
    requires Stack(s, t) != [] && Top(s, t).CloseFrame?
  {
    var f := Top(s, t);
    match f.cl
    case CStart =>
      if InsideManagedCode(s, t) then Return(s, t, Ret(false, None))
      else SetTop(s.(closing := true), t, f.(todo := Reverse(s.order), ok := true, cl := CNext))
    case CNext =>
      if f.todo == [] then Return(s, t, Ret(f.ok, None)).(closedOk := s.closedOk || f.ok)
      else Await(s, t, f.(cl := CUnloading))
    case CUnloading => s
  }

  // --------------------------------------------------------------------- runs

  predicate Legal(s: State, run: seq<Action>)
    decreases |run|
  {
    run == [] || (Enabled(s, run[0]) && Legal(Next(s, run[0]), run[1..]))
  }

  function After(s: State, run: seq<Action>): State
    requires Legal(s, run)
    decreases |run|
  {
    if run == [] then s else After(Next(s, run[0]), run[1..])
  }
}
