/**
 * What a switch and a reload guarantee under any interleaving, as long as no
 * operation nested in their own callbacks acts on their entries.
 */
module Handover {
  import opened Lifecycle
  import opened Plugins
  import opened Names
  import opened Entries
  import opened Protocol
  import opened Invariant
  import opened Calls
  import opened PrimSteps
  import opened AllSteps
  import opened Effects
  import opened Turns
  import opened PrimEffects

  // -------------------------------------------------------- facts about entries

  predicate In(s: State, n: Name, state: LifecycleState) {
    n in s.cells && s.cells[n].e.state == state
  }

  /** The entry is in this state and no operation is under way. */
  predicate At(s: State, n: Name, state: LifecycleState) {
    In(s, n, state) && s.cells[n].e.transition.None?
  }

  predicate NotActive(s: State, n: Name) {
    n in s.cells && !s.cells[n].e.state.ACTIVE?
  }

  /**
   * The last thing that happened to the entry's context is a successful stop that
   * exported `x`, which is what its root answered.
   */
  predicate Exported(s: State, n: Name, x: Option<Value>) {
    n in s.cells && LastVisit(s, n, Deactivating, x) && RootGave(RootClass(s, n), x, LastEvents(s, n))
  }

  /**
   * The last thing that happened to the entry's context is a successful activation with
   * `x`, which its root was called with.
   */
  predicate ActivatedWith(s: State, n: Name, x: Option<Value>) {
    && n in s.cells
    && var v := Visits(s, n);
    && |v| >= 2 && v[|v| - 2] == Started(Activating, x)
    && LastVisit(s, n, Activating, None) && RootGot(RootClass(s, n), x, LastEvents(s, n))
  }

  // ------------------------------------------------------ the awaited operations

  /** While a switch or a reload stops entry `n`, which was active. */
  predicate StopFacts(s: State, n: Name, stage: Stage) {
    match stage
    case Lookup => In(s, n, ACTIVE)
    case Acquire => In(s, n, ACTIVE)
    case Check => In(s, n, ACTIVE)
    case Begin => In(s, n, ACTIVE)
    case Drain => In(s, n, ACTIVE)
    case Running(_) => In(s, n, ACTIVE)
    case Finishing(_, ok, x) => ok ==> Exported(s, n, x) && RootTakes(s, n, x)
    case Leaving(r) => Succeeded(r) ==> Exported(s, n, r.state) && RootTakes(s, n, r.state)
    case _ => true
  }

  /** While a switch or a reload activates entry `n` with `x`. */
  predicate StartFacts(s: State, n: Name, x: Option<Value>, stage: Stage) {
    match stage
    case Running(k) =>
      && NotActive(s, n)
      && var v := Visits(s, n);
      && v != [] && v[|v| - 1] == Started(Activating, x)
    case Finishing(_, ok, _) => NotActive(s, n) && (ok ==> ActivatedWith(s, n, x))
    case Leaving(r) => if Succeeded(r) then ActivatedWith(s, n, x) else NotActive(s, n)
    case _ => NotActive(s, n)
  }

  /** While a reload loads a new instance; it had started from generation `since`. */
  predicate LoadFacts(e: Entry, since: nat, stage: Stage) {
    match stage
    case Finishing(_, ok, _) => ok ==> e.generation == since + 1
    case Leaving(r) => Succeeded(r) ==> e.generation == since + 1
    case _ => e.generation == since
  }

  lemma StopStep(s: State, s': State, t: Tid)
    requires Stack(s, t) != [] && Top(s, t).PrimFrame? && Top(s, t).op.Deactivate? && Top(s, t).name in s.cells
    requires HasEffect(s, s', t) && KeepsRoot(s, s', t) && StopFacts(s, Top(s, t).name, Top(s, t).stage)
    requires PrimOk(s, t, |Stack(s, t)| - 1, Top(s, t))
    ensures StopFacts(s', Top(s, t).name, Top(s', t).stage)
  {
    hide Calm, Visits, Refuses, RootClass;
  }

  lemma StartStep(s: State, s': State, t: Tid)
    requires Stack(s, t) != [] && Top(s, t).PrimFrame? && Top(s, t).op.Activate? && Top(s, t).name in s.cells
    requires HasEffect(s, s', t) && KeepsRoot(s, s', t) && StartFacts(s, Top(s, t).name, Top(s, t).op.state, Top(s, t).stage)
    requires PrimOk(s, t, |Stack(s, t)| - 1, Top(s, t))
    ensures StartFacts(s', Top(s, t).name, Top(s, t).op.state, Top(s', t).stage)
  {
    hide Calm, Visits, Refuses, RootClass, RootGot, RootGave;
  }

  lemma LoadStep(s: State, s': State, t: Tid, since: nat)
    requires Stack(s, t) != [] && Top(s, t).PrimFrame? && Top(s, t).op.Load? && Top(s, t).name in s.cells
    requires HasEffect(s, s', t) && LoadFacts(s.cells[Top(s, t).name].e, since, Top(s, t).stage)
    requires PrimOk(s, t, |Stack(s, t)| - 1, Top(s, t))
    ensures LoadFacts(s'.cells[Top(s, t).name].e, since, Top(s', t).stage)
  {
    hide Calm, Visits, Refuses;
  }

  lemma OtherStep(s: State, s': State, t: Tid)
    requires Stack(s, t) != [] && Top(s, t).PrimFrame? && !Top(s, t).op.Load? && Top(s, t).name in s.cells
    requires HasEffect(s, s', t)
    requires PrimOk(s, t, |Stack(s, t)| - 1, Top(s, t))
    ensures s'.cells[Top(s, t).name].e.generation == s.cells[Top(s, t).name].e.generation
  {
    hide Calm, Visits, Refuses;
  }

  // ------------------------------------------------------------------- nesting

  /** Activation `i` has foreign code running above it: a nested one is innermost. */
  predicate Nested(stack: seq<Frame>, i: nat) {
    i < |stack| && (if Awaits(stack[i]).Some? then i + 2 < |stack| else i + 1 < |stack|)
  }

  predicate ActsOn(s: State, t: Tid, n: Name) {
    n in s.cells && Acts(s, t, n)
  }

  /** The switch holds both locks. */
  predicate Bound(sw: SwitchStage) {
    BothLocked(sw)
  }

  /** The switch has found its target inactive. */
  predicate Compared(sw: SwitchStage) {
    sw.SStopping? || sw.SStart? || sw.SStarting? || (sw.SLeaving? && !sw.reach.Early?)
  }

  predicate ReloadBound(rl: ReloadStage) {
    !rl.RLookup? && !rl.RAcquire?
  }

  /**
   * An operation nested in a callback or refresh of activation `i`, a switch or a
   * reload, is about to act on an entry of that activation. For a switch `strict`
   * counts this as soon as it holds both locks, otherwise only once it has found its
   * target inactive.
   */
  predicate Meddles(s: State, t: Tid, i: nat, strict: bool) {
    && Nested(Stack(s, t), i)
    && match Stack(s, t)[i]
       case SwitchFrame(a, b, _, _, sw) => Guarded(sw, strict) && (ActsOn(s, t, a) || ActsOn(s, t, b))
       case ReloadFrame(n, _, _, _, _, _, _, rl) => ReloadBound(rl) && ActsOn(s, t, n)
       case _ => false
  }

  predicate Guarded(sw: SwitchStage, strict: bool) {
    if strict then Bound(sw) else Compared(sw)
  }

  predicate Unmeddled(s: State, run: seq<Action>, t: Tid, i: nat, strict: bool)
    requires Protocol.Legal(s, run)
    decreases |run|
  {
    run == [] ||
      ((run[0].Run? && run[0].t == t ==> !Meddles(s, t, i, strict)) && Unmeddled(Next(s, run[0]), run[1..], t, i, strict))
  }

  // --------------------------------------------------------- the invariants

  /** The operation that activation `i` awaits is there. */
  predicate Awaited(s: State, t: Tid, i: nat) {
    i + 1 < |Stack(s, t)| && Stack(s, t)[i + 1].PrimFrame?
  }

  /** What a switch relies on and establishes, stage by stage. */
  predicate SwitchOk(s: State, t: Tid, i: nat, strict: bool) {
    i < |Stack(s, t)| && Stack(s, t)[i].SwitchFrame? ==>
      var f := Stack(s, t)[i];
      var a, b := f.source, f.target;
      match f.sw
      case SLookup => true
      case SFirst => true
      case SSecond => true
      case SGuard => true
      case SStopping =>
        && In(s, b, INACTIVE) && (f.transfer ==> SameType(s, a, b)) && Awaited(s, t, i)
        && (strict ==> StopFacts(s, a, Stack(s, t)[i + 1].stage))
      case SStart(x) =>
        && At(s, a, INACTIVE) && In(s, b, INACTIVE) && (f.transfer ==> SameType(s, a, b))
        && (strict ==> Exported(s, a, x) && RootTakes(s, a, x))
      case SStarting(x) =>
        && At(s, a, INACTIVE) && (f.transfer ==> SameType(s, a, b)) && Awaited(s, t, i)
        && StartFacts(s, b, if f.transfer then x else None, Stack(s, t)[i + 1].stage)
        && (strict ==> Exported(s, a, x) && RootTakes(s, a, x))
      case SLeaving(r, reach) => SwitchEnd(s, f, r, reach, strict)
      case _ => strict ==> In(s, a, ACTIVE)
  }

  /** What has been achieved when a switch leaves with result `r`. */
  predicate SwitchEnd(s: State, f: Frame, r: Ret, reach: Reach, strict: bool)
    requires f.SwitchFrame?
  {
    if Succeeded(r) then
      && reach.Stopped? && At(s, f.source, INACTIVE) && At(s, f.target, ACTIVE)
      && (f.transfer ==> SameType(s, f.source, f.target))
      && (strict ==>
            && var x := LastState(s, f.source);
            && Exported(s, f.source, x) && ActivatedWith(s, f.target, if f.transfer then x else None))
    else
      && (!reach.Early? ==> NotActive(s, f.target))
      && (reach.Stopped? ==> At(s, f.source, INACTIVE))
  }

  /** What a reload relies on and establishes, stage by stage. */
  predicate ReloadGood(s: State, t: Tid, i: nat) {
    i < |Stack(s, t)| && Stack(s, t)[i].ReloadFrame? && ReloadBound(Stack(s, t)[i].rl) ==>
      var f := Stack(s, t)[i];
      && f.name in s.cells && (!f.rl.RStart? ==> Carried(f))
      && var e := s.cells[f.name].e;
      match f.rl
      case RStart => true
      case RStopping =>
        e.generation == f.since.generation && f.wasActive && Awaited(s, t, i) && StopFacts(s, f.name, Stack(s, t)[i + 1].stage)
      case RUnload => e.generation == f.since.generation && (f.wasActive ==> Exported(s, f.name, f.since.given))
      case RLoading => Awaited(s, t, i) && LoadFacts(e, f.since.generation, Stack(s, t)[i + 1].stage)
      case RConfigure => e.generation == f.since.generation + 1
      case RConfiguring => e.generation == f.since.generation + 1
      case RActivate => e.generation == f.since.generation + 1 && f.wasActive && At(s, f.name, INACTIVE)
      case RActivating =>
        && e.generation == f.since.generation + 1 && f.wasActive && Awaited(s, t, i)
        && StartFacts(s, f.name, f.snapshot, Stack(s, t)[i + 1].stage)
      case RLeaving(r) => Succeeded(r) ==> ReloadEnd(s, f)
      case _ => e.generation == f.since.generation
  }

  /** A reload that transfers state carries what its stop exported, and any other one carries nothing. */
  predicate Carried(f: Frame)
    requires f.ReloadFrame?
  {
    f.snapshot == if f.transfer then f.since.given else None
  }

  /** What a successful reload has achieved. */
  predicate ReloadEnd(s: State, f: Frame)
    requires f.ReloadFrame?
  {
    && f.name in s.cells && s.cells[f.name].e.generation == f.since.generation + 1
    && At(s, f.name, if f.wasActive then ACTIVE else INACTIVE)
    && (f.wasActive ==> ActivatedWith(s, f.name, f.snapshot))
  }

  // ------------------------------------------------------ steps that change no fact

  /** The facts about entry `n` are those of `s`. */
  predicate SameFacts(s: State, s': State, n: Name) {
    && n in s.cells && n in s'.cells
    && s'.cells[n].e.state == s.cells[n].e.state && s'.cells[n].e.transition == s.cells[n].e.transition
    && s'.cells[n].e.generation == s.cells[n].e.generation
    && Visits(s', n) == Visits(s, n) && RootClass(s', n) == RootClass(s, n)
  }

  lemma LeftSame(s: State, s': State, n: Name)
    requires n in s.cells && Left(s, s', n) && CellOk(s, n)
    ensures SameFacts(s, s', n)
  {
    hide CellOk;
    CellFacts(s, n);
  }

  lemma IdleSame(s: State, s': State, n: Name)
    requires n in s.cells && Idle(s, s')
    ensures SameFacts(s, s', n)
  {
  }

  /** Only the owner of an entry's operation lock acts on it. */
  lemma ActorOwns(s: State, u: Tid, n: Name)
    requires Inv(s) && n in s.cells && Acts(s, u, n)
    ensures s.cells[n].owner == Some(u)
  {
    hide CellOk, Underway;
    assert FrameOk(s, u, |Stack(s, u)| - 1);
  }

  /** A step that does not act on an entry keeps the facts about it. */
  lemma IdlersKeep(s: State, a: Action, n: Name)
    requires Inv(s) && Enabled(s, a) && n in s.cells && (a.Run? ==> !Acts(s, a.t, n))
    ensures SameFacts(s, Next(s, a), n)
  {
    hide Inv, Next, Enabled, Acts, CellOk;
    NotActing(s, a, n);
    CellOf(s, n);
    LeftSame(s, Next(s, a), n);
  }

  /** An operation on one entry keeps the facts about another. */
  lemma ElsewhereKeeps(s: State, a: Action, n: Name)
    requires Inv(s) && Enabled(s, a) && n in s.cells && a.Run?
    requires Stack(s, a.t) != [] && Top(s, a.t).PrimFrame? && Top(s, a.t).name != n
    ensures SameFacts(s, Next(s, a), n)
  {
    hide Inv, Next, Enabled, CellOk;
    IdlersKeep(s, a, n);
  }

  /** Activation `i` and, if it is there, the one above it are the same. */
  predicate SamePlace(s: State, s': State, t: Tid, i: nat) {
    var stack, stack' := Stack(s, t), Stack(s', t);
    && i < |stack| && i < |stack'| && stack'[i] == stack[i]
    && (Awaits(stack[i]).Some? && i + 1 < |stack| ==> i + 1 < |stack'| && stack'[i + 1] == stack[i + 1])
  }

  lemma SwitchFactsKept(s: State, s': State, t: Tid, i: nat, strict: bool)
    requires SwitchOk(s, t, i, strict) && SamePlace(s, s', t, i)
    requires var f := Stack(s, t)[i];
             f.SwitchFrame? && Bound(f.sw) && Guarded(f.sw, strict) ==> SameFacts(s, s', f.source) && SameFacts(s, s', f.target)
    ensures SwitchOk(s', t, i, strict)
  {
    hide Visits, RootGot, RootGave, Accepts;
  }

  lemma ReloadFactsKept(s: State, s': State, t: Tid, i: nat)
    requires ReloadGood(s, t, i) && SamePlace(s, s', t, i)
    requires var f := Stack(s, t)[i]; f.ReloadFrame? && ReloadBound(f.rl) ==> SameFacts(s, s', f.name)
    ensures ReloadGood(s', t, i)
  {
    hide Visits;
  }

  lemma SwitchOwns(s: State, t: Tid, i: nat)
    requires Inv(s) && i < |Stack(s, t)| && Stack(s, t)[i].SwitchFrame? && Bound(Stack(s, t)[i].sw)
    ensures var f := Stack(s, t)[i];
            && f.source != f.target && f.source in s.cells && f.target in s.cells
            && s.cells[f.source].owner == Some(t) && s.cells[f.target].owner == Some(t)
  {
    hide CellOk, Before;
    assert FrameOk(s, t, i);
  }

  lemma ReloadOwns(s: State, t: Tid, i: nat)
    requires Inv(s) && i < |Stack(s, t)| && Stack(s, t)[i].ReloadFrame? && ReloadBound(Stack(s, t)[i].rl)
    ensures var n := Stack(s, t)[i].name; n in s.cells && s.cells[n].owner == Some(t)
  {
    hide CellOk;
    assert FrameOk(s, t, i);
  }

  // -------------------------------------------------- steps of the switch itself

  lemma LoneTop(s: State, t: Tid)
    requires Stack(s, t) != []
    ensures var below := Stack(s, t)[..|Stack(s, t)| - 1];
            && (forall g :: Stack(SetTop(s, t, g), t) == below + [g])
            && (forall g | Awaits(g).Some? :: Stack(Await(s, t, g), t) == below + [g, Child(g)])
  {
    var stack := Stack(s, t);
    forall g ensures stack[|stack| - 1 := g] == stack[..|stack| - 1] + [g] {
    }
  }

  function Child(g: Frame): Frame
    requires Awaits(g).Some?
  {
    PrimFrame(Awaits(g).value.0, Awaits(g).value.1, Lookup)
  }

  /** The switch itself takes a step: no entry changes. */
  lemma SwitchSteps(s: State, t: Tid, i: nat, c: Choice, strict: bool)
    requires Inv(s) && CanRun(s, t, c) && SwitchOk(s, t, i, strict) && |Stack(s, t)| == i + 1 && Top(s, t).SwitchFrame?
    ensures SwitchOk(RunSwitch(s, t), t, i, strict)
  {
    hide Inv, Visits, Idle, RootClass, Before, RunSwitch, SwitchOk, Decided;
    var f := Top(s, t);
    var s' := RunSwitch(s, t);
    TopOk(s, t);
    if Decides(f.sw) {
      SwitchOwns(s, t, i);
      SwitchIdle(s, t);
      IdleSame(s, s', f.source);
      IdleSame(s, s', f.target);
      SwitchDecides(s, t, i, strict);
    } else {
      SwitchEnters(s, t, i, c);
      NothingClaimed(s', t, i, strict);
    }
  }

  /** The switch has not decided anything yet. */
  predicate Approaches(s: State, t: Tid, i: nat) {
    i < |Stack(s, t)| && Stack(s, t)[i].SwitchFrame? ==>
      var sw := Stack(s, t)[i].sw; sw.SLookup? || sw.SFirst? || sw.SSecond? || sw.SGuard?
  }

  /** A switch that takes its locks has not decided anything, and one that returns is gone. */
  lemma SwitchEnters(s: State, t: Tid, i: nat, c: Choice)
    requires Inv(s) && CanRun(s, t, c) && |Stack(s, t)| == i + 1 && Top(s, t).SwitchFrame? && !Decides(Top(s, t).sw)
    requires Awaits(Top(s, t)).None?
    ensures Approaches(RunSwitch(s, t), t, i)
  {
    hide Return, Before, Unwind, Inv, Lock;
    var f := Top(s, t);
    LoneTop(s, t);
    TopLocked(s, t);
    match f.sw {
      case SLookup =>
        ReturnStacks(s, t, Ret(false, None), t);
        ReturnStacks(s, t, Raised, t);
        UnwindLength(Stack(s, t), Ret(false, None));
        UnwindLength(Stack(s, t), Raised);
      case SFirst => LockCalm(s, t, FirstLock(f.source, f.target)); LoneTop(Lock(s, t, FirstLock(f.source, f.target)), t);
      case SSecond => LockCalm(s, t, SecondLock(f.source, f.target)); LoneTop(Lock(s, t, SecondLock(f.source, f.target)), t);
      case SLeaving(r, _) => ReturnStacks(s, t, r, t); UnwindLength(Stack(s, t), r);
      case _ =>
    }
  }

  lemma SwitchDecides(s: State, t: Tid, i: nat, strict: bool)
    requires SwitchOk(s, t, i, strict) && |Stack(s, t)| == i + 1 && Top(s, t).SwitchFrame? && Decides(Top(s, t).sw)
    requires var f, s' := Top(s, t), RunSwitch(s, t);
             f.source in s.cells && f.target in s.cells && SameFacts(s, s', f.source) && SameFacts(s, s', f.target)
    ensures SwitchOk(RunSwitch(s, t), t, i, strict)
  {
    hide Visits, RunSwitch, SetTop, Await, RootClass, SwitchOk, SameFacts, Decided, Awaits;
    var f := Top(s, t);
    var g := f.(sw := Decided(s, t, f));
    LoneTop(s, t);
    SwitchForm(s, t);
    SwitchGoesOn(s, RunSwitch(s, t), t, i, g, strict);
  }

  lemma SwitchGoesOn(s: State, s': State, t: Tid, i: nat, g: Frame, strict: bool)
    requires SwitchOk(s, t, i, strict) && |Stack(s, t)| == i + 1 && Top(s, t).SwitchFrame? && Decides(Top(s, t).sw)
    requires var f := Top(s, t);
             && f.source in s.cells && f.target in s.cells && SameFacts(s, s', f.source) && SameFacts(s, s', f.target)
             && g == f.(sw := Decided(s, t, f)) && Extended(s', t, i, g)
    ensures SwitchOk(s', t, i, strict)
  {
    hide Visits, RootClass, SwitchEnd, Mismatch;
    assert !Succeeded(Ret(false, None)) && !Succeeded(Raised);
    SwitchRefused(s', Top(s, t), strict);
  }

  /** Activation `i` has become `g`, with what it awaits above it. */
  predicate Extended(s: State, t: Tid, i: nat, g: Frame) {
    && i < |Stack(s, t)| && Stack(s, t)[i] == g
    && (Awaits(g).Some? ==> i + 1 < |Stack(s, t)| && Stack(s, t)[i + 1] == Child(g))
  }

  lemma SwitchRefused(s: State, f: Frame, strict: bool)
    requires f.SwitchFrame?
    ensures forall r, sw | !Succeeded(r) :: SwitchEnd(s, f.(sw := sw), r, Early, strict)
  {
    hide Visits;
  }

  // ------------------------------------------- steps of the awaited operations

  /** What activation `i` awaits is the next activation. */
  lemma AwaitedShape(s: State, t: Tid, i: nat)
    requires Inv(s) && i + 1 < |Stack(s, t)| && Awaits(Stack(s, t)[i]).Some?
    ensures var f := Stack(s, t)[i + 1];
            f.PrimFrame? && f.op == Awaits(Stack(s, t)[i]).value.0 && f.name == Awaits(Stack(s, t)[i]).value.1
            && PrimOk(s, t, i + 1, f)
  {
    hide CellOk, Underway, Locked;
    assert FrameOk(s, t, i);
    assert FrameOk(s, t, i + 1);
  }

  lemma PairRestaged(s: State, s': State, t: Tid)
    requires |Stack(s, t)| >= 2 && Top(s, t).PrimFrame? && Restaged(s, s', t)
    ensures Stack(s', t) == Stack(s, t)[..|Stack(s, t)| - 1] + [Top(s, t).(stage := Top(s', t).stage)]
  {
    hide Calm;
  }

  lemma PairReturns(s: State, t: Tid, r: Ret)
    requires |Stack(s, t)| >= 2
    ensures var k := |Stack(s, t)| - 2;
            Stack(Return(s, t, r), t) == Stack(s, t)[..k] + [Resume(Stack(s, t)[k], r)]
  {
    hide Return, Resume, Unwind;
    ReturnStacks(s, t, r, t);
    UnwindLength(Stack(s, t), r);
    forall j | 0 <= j <= |Stack(s, t)| - 2
      ensures Unwind(Stack(s, t), r)[j] == if j == |Stack(s, t)| - 2 then Resume(Stack(s, t)[j], r) else Stack(s, t)[j]
    {
      UnwindAt(Stack(s, t), r, j);
    }
  }

  lemma LookupSame(s: State, t: Tid)
    requires Stack(s, t) != [] && Top(s, t).PrimFrame? && Top(s, t).stage.Lookup? && Top(s, t).name in s.cells
    requires Restaged(s, RunLookup(s, t), t)
    ensures RunLookup(s, t) == ToStage(s, t, Acquire) && Idle(s, RunLookup(s, t)) && InStage(RunLookup(s, t), t, Acquire)
  {
    hide Return, Calm, Idle, ToStage, Unwind;
    ReturnStacks(s, t, Ret(false, None), t);
    UnwindLength(Stack(s, t), Ret(false, None));
    StageIdle(s, t, Acquire);
  }

  /** The awaited operation of a switch changes its stage. */
  lemma SwitchChildMoves(s: State, t: Tid, i: nat, c: Choice, strict: bool)
    requires Inv(s) && CanRun(s, t, c) && |Stack(s, t)| == i + 2 && SwitchOk(s, t, i, strict) && Top(s, t).PrimFrame?
    requires var f := Stack(s, t)[i];
             && f.SwitchFrame? && Bound(f.sw) && Awaits(f) == Some((Top(s, t).op, Top(s, t).name))
             && PrimOk(s, t, i + 1, Top(s, t))
    requires Restaged(s, RunPrim(s, t, c), t) && !Top(s, t).stage.Leaving?
    ensures SwitchOk(RunPrim(s, t, c), t, i, strict)
  {
    hide Inv, CanRun, RunPrim, Restaged, Visits, HasEffect, PrimOk, RunLookup, StopFacts, StartFacts;
    var f, n, s' := Stack(s, t)[i], Top(s, t).name, RunPrim(s, t, c);
    SwitchOwns(s, t, i);
    PairRestaged(s, s', t);
    PrimRuns(s, t, c);
    if n == f.source {
      ElsewhereKeeps(s, Run(t, c), f.target);
    } else {
      ElsewhereKeeps(s, Run(t, c), f.source);
    }
    if f.sw.SStopping? {
      if strict {
        StopMoves(s, t, c);
      }
      RootMoves(s, t, c);
    }
    if f.sw.SStarting? {
      StartMovesOn(s, t, c);
      RootMoves(s, t, c);
    }
  }

  lemma RootMoves(s: State, t: Tid, c: Choice)
    requires Inv(s) && CanRun(s, t, c) && Top(s, t).PrimFrame? && Top(s, t).name in s.cells
    requires !Top(s, t).op.Load? && !Top(s, t).op.Unload?
    requires Restaged(s, RunPrim(s, t, c), t) && !Top(s, t).stage.Leaving?
    ensures var n, s' := Top(s, t).name, RunPrim(s, t, c);
            n in s'.cells && RootClass(s', n) == RootClass(s, n)
  {
    hide Inv, RunPrim, Restaged, Visits, HasEffect, RunLookup, Idle, RootClass;
    PrimRuns(s, t, c);
    if Top(s, t).stage.Lookup? {
      LookupSame(s, t);
      IdleSame(s, RunPrim(s, t, c), Top(s, t).name);
    } else {
      PrimKeepsRoot(s, t, c);
    }
  }

  lemma PrimRuns(s: State, t: Tid, c: Choice)
    requires CanRun(s, t, c) && Top(s, t).PrimFrame?
    ensures Enabled(s, Run(t, c)) && Next(s, Run(t, c)) == RunPrim(s, t, c)
    ensures Top(s, t).stage.Lookup? ==> RunPrim(s, t, c) == RunLookup(s, t)
  {
  }

  lemma StopMoves(s: State, t: Tid, c: Choice)
    requires Inv(s) && CanRun(s, t, c) && Top(s, t).PrimFrame? && Top(s, t).op.Deactivate? && Top(s, t).name in s.cells
    requires StopFacts(s, Top(s, t).name, Top(s, t).stage) && PrimOk(s, t, |Stack(s, t)| - 1, Top(s, t))
    requires Restaged(s, RunPrim(s, t, c), t) && !Top(s, t).stage.Leaving?
    ensures StopFacts(RunPrim(s, t, c), Top(s, t).name, Top(RunPrim(s, t, c), t).stage)
  {
    hide Inv, RunPrim, Restaged, Visits, HasEffect, KeepsRoot, PrimOk, RunLookup, Idle;
    PrimRuns(s, t, c);
    if Top(s, t).stage.Lookup? {
      LookupSame(s, t);
      IdleSame(s, RunPrim(s, t, c), Top(s, t).name);
    } else {
      PrimHas(s, t, c);
      PrimKeepsRoot(s, t, c);
      StopStep(s, RunPrim(s, t, c), t);
    }
  }

  lemma StartMovesOn(s: State, t: Tid, c: Choice)
    requires Inv(s) && CanRun(s, t, c) && Top(s, t).PrimFrame? && Top(s, t).op.Activate? && Top(s, t).name in s.cells
    requires StartFacts(s, Top(s, t).name, Top(s, t).op.state, Top(s, t).stage) && PrimOk(s, t, |Stack(s, t)| - 1, Top(s, t))
    requires Restaged(s, RunPrim(s, t, c), t) && !Top(s, t).stage.Leaving?
    ensures StartFacts(RunPrim(s, t, c), Top(s, t).name, Top(s, t).op.state, Top(RunPrim(s, t, c), t).stage)
  {
    hide Inv, RunPrim, Restaged, Visits, HasEffect, KeepsRoot, PrimOk, RunLookup, Idle;
    PrimRuns(s, t, c);
    if Top(s, t).stage.Lookup? {
      LookupSame(s, t);
      IdleSame(s, RunPrim(s, t, c), Top(s, t).name);
    } else {
      PrimHas(s, t, c);
      PrimKeepsRoot(s, t, c);
      StartStep(s, RunPrim(s, t, c), t);
    }
  }

  /** The situation in which the awaited operation of switch `i` has returned `r`, and `s'` follows. */
  predicate SwitchResumes(s: State, s': State, t: Tid, i: nat, r: Ret, strict: bool) {
    && |Stack(s, t)| == i + 2 && SwitchOk(s, t, i, strict) && Top(s, t).PrimFrame?
    && var f := Stack(s, t)[i];
    && f.SwitchFrame? && Bound(f.sw) && Awaits(f) == Some((Top(s, t).op, Top(s, t).name))
    && f.source in s.cells && f.target in s.cells
    && PrimOk(s, t, i + 1, Top(s, t))
    && ((Top(s, t).stage.Lookup? && !Succeeded(r)) || (Top(s, t).stage.Leaving? && Top(s, t).stage.ret == r))
    && SameFacts(s, s', f.source) && SameFacts(s, s', f.target)
    && |Stack(s', t)| == i + 1 && Stack(s', t)[i] == Resume(f, r)
  }

  /** The awaited operation of a switch returns. */
  lemma SwitchChildReturns(s: State, t: Tid, i: nat, r: Ret, strict: bool)
    requires |Stack(s, t)| == i + 2 && SwitchOk(s, t, i, strict) && Top(s, t).PrimFrame?
    requires var f := Stack(s, t)[i];
             && f.SwitchFrame? && Bound(f.sw) && Awaits(f) == Some((Top(s, t).op, Top(s, t).name))
             && f.source in s.cells && f.target in s.cells
             && PrimOk(s, t, i + 1, Top(s, t))
    requires (Top(s, t).stage.Lookup? && !Succeeded(r)) || (Top(s, t).stage.Leaving? && Top(s, t).stage.ret == r)
    ensures SwitchOk(Return(s, t, r), t, i, strict)
  {
    hide Return, Idle, PrimOk, RootClass, SwitchOk, Resume, Awaits, SameFacts;
    var f, s' := Stack(s, t)[i], Return(s, t, r);
    PairReturns(s, t, r);
    ReturnIdle(s, t, r);
    IdleSame(s, s', f.source);
    IdleSame(s, s', f.target);
    if f.sw.SStarting? {
      SwitchEnds(s, s', t, i, r, strict);
    } else if f.sw.SStopping? {
      SwitchStopped(s, s', t, i, r, strict);
    } else {
      SwitchReadies(s, s', t, i, r, strict);
    }
  }

  lemma SwitchEnds(s: State, s': State, t: Tid, i: nat, r: Ret, strict: bool)
    requires SwitchResumes(s, s', t, i, r, strict) && Stack(s, t)[i].sw.SStarting?
    ensures SwitchOk(s', t, i, strict)
  {
    hide Visits, Underway, RootClass;
  }

  lemma SwitchStopped(s: State, s': State, t: Tid, i: nat, r: Ret, strict: bool)
    requires SwitchResumes(s, s', t, i, r, strict) && Stack(s, t)[i].sw.SStopping?
    ensures SwitchOk(s', t, i, strict)
  {
    hide Visits, Underway, RootClass;
  }

  lemma SwitchReadies(s: State, s': State, t: Tid, i: nat, r: Ret, strict: bool)
    requires SwitchResumes(s, s', t, i, r, strict) && !Stack(s, t)[i].sw.SStopping? && !Stack(s, t)[i].sw.SStarting?
    ensures SwitchOk(s', t, i, strict)
  {
    hide Visits, Underway, RootClass;
  }

  lemma SwitchChildSteps(s: State, t: Tid, i: nat, c: Choice, strict: bool)
    requires Inv(s) && CanRun(s, t, c) && |Stack(s, t)| == i + 2 && SwitchOk(s, t, i, strict)
    requires Stack(s, t)[i].SwitchFrame? && Awaits(Stack(s, t)[i]).Some?
    ensures SwitchOk(Next(s, Run(t, c)), t, i, strict)
  {
    hide Inv, CanRun, RunPrim, Restaged, SwitchOk, PrimOk, Return;
    AwaitedShape(s, t, i);
    assert Bound(Stack(s, t)[i].sw);
    SwitchOwns(s, t, i);
    PrimRuns(s, t, c);
    PrimStepped(s, t, c);
    if Top(s, t).stage.Leaving? {
      LeavingReturns(s, t, c);
      SwitchChildReturns(s, t, i, Top(s, t).stage.ret, strict);
    } else if Top(s, t).stage.Lookup? && RunPrim(s, t, c) == Return(s, t, Raised) {
      SwitchChildReturns(s, t, i, Raised, strict);
    } else if Top(s, t).stage.Lookup? && RunPrim(s, t, c) == Return(s, t, Ret(false, None)) {
      SwitchChildReturns(s, t, i, Ret(false, None), strict);
    } else {
      SwitchChildMoves(s, t, i, c, strict);
    }
  }

  lemma LeavingReturns(s: State, t: Tid, c: Choice)
    requires Inv(s) && CanRun(s, t, c) && Top(s, t).PrimFrame? && Top(s, t).stage.Leaving?
    ensures RunPrim(s, t, c) == Return(s, t, Top(s, t).stage.ret)
  {
    hide Inv, Return;
    InsideFacts(s, t);
  }

  // ------------------------------------------------------------- every action

  /** What awaits the innermost operation stays as it is, or resumes with what the operation returns. */
  lemma AwaitedMoves(s: State, t: Tid, i: nat, c: Choice) returns (r: Option<Ret>)
    requires Inv(s) && CanRun(s, t, c) && |Stack(s, t)| == i + 2 && Top(s, t).PrimFrame?
    ensures var s' := Next(s, Run(t, c));
            && i < |Stack(s', t)|
            && (r.None? ==> |Stack(s', t)| == i + 2 && Stack(s', t)[i] == Stack(s, t)[i])
            && (r.Some? ==> Returning(Top(s, t), r.value) && |Stack(s', t)| == i + 1 && Stack(s', t)[i] == Resume(Stack(s, t)[i], r.value))
  {
    hide Inv, CanRun, Next, Calm, Returning, Unwind, Resume;
    var turn := RunTurns(s, t, c);
    r := None;
    if turn.GoBack? {
      r := Some(turn.r);
      UnwindLength(Stack(s, t), turn.r);
      UnwindAt(Stack(s, t), turn.r, i);
    }
  }

  lemma StaysPut(s: State, t: Tid, turn: Turn, j: nat)
    requires Inv(s) && j + 1 < |Stack(s, t)| && (Awaits(Stack(s, t)[j]).None? || j + 2 < |Stack(s, t)|)
    requires turn.Call? ==> Awaits(turn.f).Some?
    ensures j < |Turned(Stack(s, t), turn)| && Turned(Stack(s, t), turn)[j] == Stack(s, t)[j]
  {
    hide CellOk, Turned, Locked, Resume, Underway;
    assert FrameOk(s, t, j);
    Below(Stack(s, t), turn, j);
    if turn.GoBack? && j + 2 == |Stack(s, t)| {
      ResumeCallsOut(Stack(s, t)[j], turn.r);
    }
  }

  /** A step of a nested activation leaves the one it is nested in. */
  lemma StepsAbove(s: State, t: Tid, c: Choice, i: nat)
    requires Inv(s) && CanRun(s, t, c) && Nested(Stack(s, t), i)
    ensures SamePlace(s, Next(s, Run(t, c)), t, i)
  {
    hide Inv, Next, CanRun, Calm, Turned;
    var turn := RunTurns(s, t, c);
    StaysPut(s, t, turn, i);
    if Awaits(Stack(s, t)[i]).Some? {
      AwaitedShape(s, t, i);
      StaysPut(s, t, turn, i + 1);
    }
  }

  /** All other actions leave the activations of `t` where they are. */
  lemma ActionsAside(s: State, a: Action, t: Tid, i: nat)
    requires Inv(s) && Enabled(s, a) && !(a.Run? && a.t == t) && i < |Stack(s, t)|
    requires Awaits(Stack(s, t)[i]).Some? ==> i + 1 < |Stack(s, t)|
    ensures SamePlace(s, Next(s, a), t, i)
  {
    hide Inv, RunPrim, RunSwitch, RunReload, RunClose, Awaits, Starting;
    if a.StartOp? && a.t == t {
      assert Stack(Next(s, a), t) == Stack(s, t) + [a.f];
    } else {
      OtherStacks(s, a, t);
    }
  }

  /** Where no switch or reload is, none that claims anything appears. */
  lemma NoneAppears(s: State, a: Action, t: Tid, i: nat)
    requires Inv(s) && Enabled(s, a) && (i < |Stack(s, t)| ==> !Stack(s, t)[i].SwitchFrame? || !Stack(s, t)[i].ReloadFrame?)
    ensures i < |Stack(Next(s, a), t)| ==>
              var g := Stack(Next(s, a), t)[i];
              && (i < |Stack(s, t)| && !Stack(s, t)[i].SwitchFrame? ==> !g.SwitchFrame?)
              && (i < |Stack(s, t)| && !Stack(s, t)[i].ReloadFrame? ==> !g.ReloadFrame?)
              && (i >= |Stack(s, t)| ==> (g.SwitchFrame? ==> g.sw.SLookup?) && (g.ReloadFrame? ==> g.rl.RLookup?))
  {
    hide Inv, RunPrim, RunSwitch, RunReload, RunClose, Calm, Lendable, Awaits, Returning;
    if a.Run? && a.t == t {
      assert Stack(s, t) != [] by { HasTop(s, a); }
      var turn := RunTurns(s, t, a.choice);
      if i < |Stack(Next(s, a), t)| {
        TurnShapes(Stack(s, t), turn, i);
      }
    } else if a.StartOp? && a.t == t {
      assert Stack(Next(s, a), t) == Stack(s, t) + [a.f];
    } else {
      OtherStacks(s, a, t);
    }
  }

  lemma TurnShapes(stack: seq<Frame>, turn: Turn, i: nat)
    requires stack != [] && MayTurn(stack[|stack| - 1], turn) && i < |Turned(stack, turn)|
    ensures var g := Turned(stack, turn)[i];
            && (i < |stack| ==> g.SwitchFrame? == stack[i].SwitchFrame? && g.ReloadFrame? == stack[i].ReloadFrame?)
            && (i >= |stack| ==> g.PrimFrame?)
  {
    hide Unwind, Resume, Awaits, Returning;
    if turn.GoBack? {
      UnwindLength(stack, turn.r);
      UnwindAt(stack, turn.r, i);
      ResumeKind(stack[i], turn.r);
    }
  }

  lemma ResumeKind(f: Frame, r: Ret)
    ensures var g := Resume(f, r);
            g.SwitchFrame? == f.SwitchFrame? && g.ReloadFrame? == f.ReloadFrame?
  {
  }

  /** The step is not the innermost activation's own business, and does not act on the guarded entries. */
  lemma SwitchAside(s: State, a: Action, t: Tid, i: nat, strict: bool)
    requires Inv(s) && Enabled(s, a) && SwitchOk(s, t, i, strict) && i < |Stack(s, t)| && Stack(s, t)[i].SwitchFrame?
    requires a.Run? && a.t == t ==> Nested(Stack(s, t), i) && !Meddles(s, t, i, strict)
    ensures SwitchOk(Next(s, a), t, i, strict)
  {
    hide Inv, Next, CanRun, Lendable, Starting, SwitchOk, SameFacts, Acts, Awaits;
    if a.Run? && a.t == t {
      StepsAbove(s, t, a.choice, i);
    } else {
      AwaitedHere(s, t, i);
      ActionsAside(s, a, t, i);
    }
    var f := Stack(s, t)[i];
    if Bound(f.sw) && Guarded(f.sw, strict) {
      SwitchOwns(s, t, i);
      EntryAside(s, a, t, f.source);
      EntryAside(s, a, t, f.target);
    }
    SwitchFactsKept(s, Next(s, a), t, i, strict);
  }

  lemma AwaitedHere(s: State, t: Tid, i: nat)
    requires Inv(s) && i < |Stack(s, t)|
    ensures Awaits(Stack(s, t)[i]).Some? ==> i + 1 < |Stack(s, t)|
  {
    hide CellOk, Locked, Underway;
    assert FrameOk(s, t, i);
  }

  /** Only the owner of an entry's lock acts on it. */
  lemma EntryAside(s: State, a: Action, t: Tid, n: Name)
    requires Inv(s) && Enabled(s, a) && n in s.cells && s.cells[n].owner == Some(t)
    requires a.Run? && a.t == t ==> !Acts(s, t, n)
    ensures SameFacts(s, Next(s, a), n)
  {
    hide Inv, Next, Enabled, Acts, SameFacts;
    if a.Run? && a.t != t && Acts(s, a.t, n) {
      ActorOwns(s, a.t, n);
    }
    IdlersKeep(s, a, n);
  }

  lemma SwitchOkStep(s: State, a: Action, t: Tid, i: nat, strict: bool)
    requires Inv(s) && Enabled(s, a) && SwitchOk(s, t, i, strict)
    requires a.Run? && a.t == t ==> !Meddles(s, t, i, strict)
    ensures SwitchOk(Next(s, a), t, i, strict)
  {
    hide Inv, RunPrim, RunSwitch, RunReload, RunClose, CanRun, SwitchOk, Meddles, Awaits, Lendable;
    if i >= |Stack(s, t)| || !Stack(s, t)[i].SwitchFrame? {
      NoneAppears(s, a, t, i);
      NothingClaimed(Next(s, a), t, i, strict);
    } else if a.Run? && a.t == t && !Nested(Stack(s, t), i) {
      if |Stack(s, t)| == i + 1 {
        SwitchSteps(s, t, i, a.choice, strict);
      } else {
        SwitchAwaits(s, t, i);
        SwitchChildSteps(s, t, i, a.choice, strict);
      }
    } else {
      SwitchAside(s, a, t, i, strict);
    }
  }

  lemma NothingClaimed(s: State, t: Tid, i: nat, strict: bool)
    requires Approaches(s, t, i)
    ensures SwitchOk(s, t, i, strict)
  {
  }

  /** Only foreign code or an awaited operation stands above an activation. */
  lemma SwitchAwaits(s: State, t: Tid, i: nat)
    requires Inv(s) && i + 1 < |Stack(s, t)| && Stack(s, t)[i].SwitchFrame?
    ensures Awaits(Stack(s, t)[i]).Some?
  {
    hide CellOk, Locked, Underway, Awaits;
    assert FrameOk(s, t, i);
  }

  // -------------------------------------------------- steps of the reload itself

  /** The reload itself takes a step. */
  lemma ReloadSteps(s: State, t: Tid, i: nat, c: Choice)
    requires Inv(s) && CanRun(s, t, c) && ReloadGood(s, t, i) && |Stack(s, t)| == i + 1 && Top(s, t).ReloadFrame?
    ensures ReloadGood(RunReload(s, t, c), t, i)
  {
    hide Inv, Visits, Idle, RunReload, ReloadGood, Continued;
    var f := Top(s, t);
    TopOk(s, t);
    if Continues(f.rl) {
      ReloadOwns(s, t, i);
      ReloadIdle(s, t, c);
      IdleSame(s, RunReload(s, t, c), f.name);
      ReloadContinues(s, t, i, c);
    } else {
      ReloadEnters(s, t, i, c);
    }
  }

  lemma ReloadContinues(s: State, t: Tid, i: nat, c: Choice)
    requires ReloadGood(s, t, i) && |Stack(s, t)| == i + 1 && Top(s, t).ReloadFrame? && Continues(Top(s, t).rl)
    requires Top(s, t).name in s.cells && SameFacts(s, RunReload(s, t, c), Top(s, t).name)
    ensures ReloadGood(RunReload(s, t, c), t, i)
  {
    hide Visits, RunReload, SetTop, Await, RootClass, ReloadGood, SameFacts, Continued, Awaits;
    LoneTop(s, t);
    ReloadForm(s, t, c);
    var g := Continued(Top(s, t), s.cells[Top(s, t).name].e);
    if Top(s, t).rl.RStart? {
      ReloadBegins(s, RunReload(s, t, c), t, i, g);
    } else {
      ReloadGoesOn(s, RunReload(s, t, c), t, i, g);
    }
  }

  lemma ReloadBegins(s: State, s': State, t: Tid, i: nat, g: Frame)
    requires |Stack(s, t)| == i + 1 && Top(s, t).ReloadFrame? && Top(s, t).rl.RStart? && Top(s, t).name in s.cells
    requires g == Continued(Top(s, t), s.cells[Top(s, t).name].e) && Extended(s', t, i, g) && SameFacts(s, s', Top(s, t).name)
    ensures ReloadGood(s', t, i)
  {
    hide Visits, RootClass;
  }

  lemma ReloadGoesOn(s: State, s': State, t: Tid, i: nat, g: Frame)
    requires |Stack(s, t)| == i + 1 && Top(s, t).ReloadFrame? && Top(s, t).name in s.cells
    requires Continues(Top(s, t).rl) && !Top(s, t).rl.RStart? && ReloadGood(s, t, i)
    requires g == Continued(Top(s, t), s.cells[Top(s, t).name].e) && Extended(s', t, i, g) && SameFacts(s, s', Top(s, t).name)
    ensures ReloadGood(s', t, i)
  {
    hide Visits, RootClass;
  }

  /** A reload takes its lock, ends its refresh, or returns. */
  lemma ReloadEnters(s: State, t: Tid, i: nat, c: Choice)
    requires Inv(s) && CanRun(s, t, c) && ReloadGood(s, t, i) && |Stack(s, t)| == i + 1 && Top(s, t).ReloadFrame?
    requires !Continues(Top(s, t).rl) && Awaits(Top(s, t)).None?
    ensures ReloadGood(RunReload(s, t, c), t, i)
  {
    hide Inv, CanRun, ReloadGood, RunReload;
    TopLocked(s, t);
    match Top(s, t).rl {
      case RAcquire => ReloadLocks(s, t, i, c);
      case RRefreshing => ReloadRefreshes(s, t, i, c);
      case RLeaving(_) => ReloadReturns(s, t, i, c);
      case RLookup => ReloadReturns(s, t, i, c);
      case _ =>
    }
  }

  lemma ReloadLocks(s: State, t: Tid, i: nat, c: Choice)
    requires |Stack(s, t)| == i + 1 && Top(s, t).ReloadFrame? && Top(s, t).rl.RAcquire? && Top(s, t).name in s.cells
    ensures ReloadGood(RunReload(s, t, c), t, i)
  {
    hide Lock;
    var n := Top(s, t).name;
    LockCalm(s, t, n);
    LoneTop(Lock(s, t, n), t);
  }

  lemma ReloadRefreshes(s: State, t: Tid, i: nat, c: Choice)
    requires ReloadGood(s, t, i) && |Stack(s, t)| == i + 1
    requires Top(s, t).ReloadFrame? && Top(s, t).rl.RRefreshing? && Top(s, t).name in s.cells
    ensures ReloadGood(RunReload(s, t, c), t, i)
  {
    hide RefreshFailed, Visits;
    var n := Top(s, t).name;
    LoneTop(s, t);
    RefreshCalm(s, t, n);
    LoneTop(RefreshFailed(s, n), t);
  }

  lemma ReloadReturns(s: State, t: Tid, i: nat, c: Choice)
    requires |Stack(s, t)| == i + 1 && Top(s, t).ReloadFrame? && (Top(s, t).rl.RLeaving? || Top(s, t).rl.RLookup?)
    requires Top(s, t).rl.RLeaving? ==> Top(s, t).name in s.cells
    ensures ReloadGood(RunReload(s, t, c), t, i)
  {
    hide Return, Unwind;
    LoneTop(s, t);
    forall r ensures |Stack(Return(s, t, r), t)| == i {
      ReturnStacks(s, t, r, t);
      UnwindLength(Stack(s, t), r);
    }
  }

  // ------------------------------------------- steps of the awaited operations

  lemma GenerationMoves(s: State, t: Tid, c: Choice)
    requires Inv(s) && CanRun(s, t, c) && Top(s, t).PrimFrame? && !Top(s, t).op.Load? && Top(s, t).name in s.cells
    requires PrimOk(s, t, |Stack(s, t)| - 1, Top(s, t))
    requires Restaged(s, RunPrim(s, t, c), t) && !Top(s, t).stage.Leaving?
    ensures var n, s' := Top(s, t).name, RunPrim(s, t, c);
            n in s'.cells && s'.cells[n].e.generation == s.cells[n].e.generation
  {
    hide Inv, RunPrim, Restaged, Visits, HasEffect, KeepsRoot, PrimOk, RunLookup, Idle;
    PrimRuns(s, t, c);
    if Top(s, t).stage.Lookup? {
      LookupSame(s, t);
      IdleSame(s, RunPrim(s, t, c), Top(s, t).name);
    } else {
      PrimHas(s, t, c);
      HasName(s, RunPrim(s, t, c), t);
      OtherStep(s, RunPrim(s, t, c), t);
    }
  }

  lemma HasName(s: State, s': State, t: Tid)
    requires Stack(s, t) != [] && Top(s, t).PrimFrame? && Top(s, t).name in s.cells && HasEffect(s, s', t)
    ensures Top(s, t).name in s'.cells
  {
  }

  lemma LoadMoves(s: State, t: Tid, c: Choice, since: nat)
    requires Inv(s) && CanRun(s, t, c) && Top(s, t).PrimFrame? && Top(s, t).op.Load? && Top(s, t).name in s.cells
    requires LoadFacts(s.cells[Top(s, t).name].e, since, Top(s, t).stage) && PrimOk(s, t, |Stack(s, t)| - 1, Top(s, t))
    requires Restaged(s, RunPrim(s, t, c), t) && !Top(s, t).stage.Leaving?
    ensures var n, s' := Top(s, t).name, RunPrim(s, t, c);
            n in s'.cells && LoadFacts(s'.cells[n].e, since, Top(s', t).stage)
  {
    hide Inv, RunPrim, Restaged, Visits, HasEffect, KeepsRoot, PrimOk, RunLookup, Idle;
    PrimRuns(s, t, c);
    if Top(s, t).stage.Lookup? {
      LookupSame(s, t);
      IdleSame(s, RunPrim(s, t, c), Top(s, t).name);
    } else {
      PrimHas(s, t, c);
      HasName(s, RunPrim(s, t, c), t);
      LoadStep(s, RunPrim(s, t, c), t, since);
    }
  }

  /** The awaited operation of a reload changes its stage. */
  lemma ReloadChildMoves(s: State, t: Tid, i: nat, c: Choice)
    requires Inv(s) && CanRun(s, t, c) && |Stack(s, t)| == i + 2 && ReloadGood(s, t, i) && Top(s, t).PrimFrame?
    requires var f := Stack(s, t)[i];
             && f.ReloadFrame? && ReloadBound(f.rl) && Awaits(f) == Some((Top(s, t).op, Top(s, t).name))
             && PrimOk(s, t, i + 1, Top(s, t))
    requires Restaged(s, RunPrim(s, t, c), t) && !Top(s, t).stage.Leaving?
    ensures ReloadGood(RunPrim(s, t, c), t, i)
  {
    hide Inv, CanRun, RunPrim, Restaged, Visits, HasEffect, PrimOk, RunLookup, StopFacts, StartFacts, LoadFacts;
    var f, s' := Stack(s, t)[i], RunPrim(s, t, c);
    PairRestaged(s, s', t);
    if f.rl.RLoading? {
      LoadMoves(s, t, c, f.since.generation);
    } else {
      GenerationMoves(s, t, c);
    }
    if f.rl.RStopping? {
      StopMoves(s, t, c);
    }
    if f.rl.RActivating? {
      StartMovesOn(s, t, c);
    }
  }

  lemma ReloadStops(s: State, t: Tid, i: nat, f: Frame, r: Ret)
    requires f.ReloadFrame? && ReloadBound(f.rl) && Awaits(f).Some? && !Succeeded(r) && Carried(f)
    requires f.name in s.cells && i < |Stack(s, t)| && Stack(s, t)[i] == Resume(f, r)
    ensures ReloadGood(s, t, i)
  {
    hide Visits, Resume;
    StoppedShape(f, r);
  }

  lemma AwaitsCarried(s: State, t: Tid, i: nat)
    requires ReloadGood(s, t, i) && i < |Stack(s, t)|
    ensures var f := Stack(s, t)[i];
            f.ReloadFrame? && ReloadBound(f.rl) && Awaits(f).Some? ==> Carried(f)
  {
  }

  lemma StoppedShape(f: Frame, r: Ret)
    requires f.ReloadFrame? && Awaits(f).Some? && !Succeeded(r)
    ensures Resume(f, r) == f.(rl := RLeaving(r))
  {
    hide Succeeded;
  }

  /** The awaited operation of a reload returns. */
  lemma ReloadChildReturns(s: State, t: Tid, i: nat, r: Ret)
    requires |Stack(s, t)| == i + 2 && ReloadGood(s, t, i) && Top(s, t).PrimFrame?
    requires var f := Stack(s, t)[i];
             && f.ReloadFrame? && ReloadBound(f.rl) && Awaits(f) == Some((Top(s, t).op, Top(s, t).name))
             && PrimOk(s, t, i + 1, Top(s, t)) && f.name in s.cells
    requires (Top(s, t).stage.Lookup? && !Succeeded(r)) || (Top(s, t).stage.Leaving? && Top(s, t).stage.ret == r)
    ensures ReloadGood(Return(s, t, r), t, i)
  {
    hide Return, Idle, Visits, Underway, Resume, ReloadGood;
    var f, s' := Stack(s, t)[i], Return(s, t, r);
    PairReturns(s, t, r);
    ReturnIdle(s, t, r);
    IdleSame(s, s', f.name);
    if Succeeded(r) {
      ReloadResumes(s, s', t, i, r);
    } else {
      AwaitsCarried(s, t, i);
      ReloadStops(s', t, i, f, r);
    }
  }

  /** The situation in which the awaited operation of reload `i` has succeeded with `r`, and `s'` follows. */
  predicate Resumes(s: State, s': State, t: Tid, i: nat, r: Ret) {
    && |Stack(s, t)| == i + 2 && ReloadGood(s, t, i) && Top(s, t).PrimFrame?
    && var f := Stack(s, t)[i];
    && f.ReloadFrame? && ReloadBound(f.rl) && Awaits(f) == Some((Top(s, t).op, Top(s, t).name))
    && PrimOk(s, t, i + 1, Top(s, t)) && f.name in s.cells
    && SameFacts(s, s', f.name) && |Stack(s', t)| == i + 1 && Stack(s', t)[i] == Resume(f, r)
    && Top(s, t).stage.Leaving? && Top(s, t).stage.ret == r && Succeeded(r)
  }

  lemma ReloadResumes(s: State, s': State, t: Tid, i: nat, r: Ret)
    requires Resumes(s, s', t, i, r)
    ensures ReloadGood(s', t, i)
  {
    hide Visits, ReloadGood, SameFacts, PrimOk, Resume, Awaits;
    var rl := Stack(s, t)[i].rl;
    if rl.RStopping? || rl.RUnloading? {
      ReloadUnloads(s, s', t, i, r);
    } else if rl.RLoading? {
      ReloadLoads(s, s', t, i, r);
    } else {
      AwaitingStage(Stack(s, t)[i]);
      ReloadRestarts(s, s', t, i, r);
    }
  }

  lemma AwaitingStage(f: Frame)
    requires f.ReloadFrame? && Awaits(f).Some?
    ensures f.rl.RStopping? || f.rl.RUnloading? || f.rl.RLoading? || f.rl.RConfiguring? || f.rl.RActivating?
  {
  }

  lemma ReloadUnloads(s: State, s': State, t: Tid, i: nat, r: Ret)
    requires Resumes(s, s', t, i, r) && (Stack(s, t)[i].rl.RStopping? || Stack(s, t)[i].rl.RUnloading?)
    ensures ReloadGood(s', t, i)
  {
    hide Visits, PrimOk, RootClass;
  }

  lemma ReloadLoads(s: State, s': State, t: Tid, i: nat, r: Ret)
    requires Resumes(s, s', t, i, r) && Stack(s, t)[i].rl.RLoading?
    ensures ReloadGood(s', t, i)
  {
    hide Visits, PrimOk, RootClass;
  }

  lemma ReloadRestarts(s: State, s': State, t: Tid, i: nat, r: Ret)
    requires Resumes(s, s', t, i, r) && (Stack(s, t)[i].rl.RConfiguring? || Stack(s, t)[i].rl.RActivating?)
    ensures ReloadGood(s', t, i)
  {
    hide Visits, Underway, RootClass;
  }

  lemma ReloadChildSteps(s: State, t: Tid, i: nat, c: Choice)
    requires Inv(s) && CanRun(s, t, c) && |Stack(s, t)| == i + 2 && ReloadGood(s, t, i)
    requires Stack(s, t)[i].ReloadFrame? && Awaits(Stack(s, t)[i]).Some?
    ensures ReloadGood(Next(s, Run(t, c)), t, i)
  {
    hide Inv, CanRun, RunPrim, Restaged, ReloadGood, PrimOk, Return;
    AwaitedShape(s, t, i);
    assert ReloadBound(Stack(s, t)[i].rl);
    ReloadOwns(s, t, i);
    PrimRuns(s, t, c);
    PrimStepped(s, t, c);
    if Top(s, t).stage.Leaving? {
      LeavingReturns(s, t, c);
      ReloadChildReturns(s, t, i, Top(s, t).stage.ret);
    } else if Top(s, t).stage.Lookup? && RunPrim(s, t, c) == Return(s, t, Raised) {
      ReloadChildReturns(s, t, i, Raised);
    } else if Top(s, t).stage.Lookup? && RunPrim(s, t, c) == Return(s, t, Ret(false, None)) {
      ReloadChildReturns(s, t, i, Ret(false, None));
    } else {
      ReloadChildMoves(s, t, i, c);
    }
  }

  lemma ReloadAside(s: State, a: Action, t: Tid, i: nat, strict: bool)
    requires Inv(s) && Enabled(s, a) && ReloadGood(s, t, i) && i < |Stack(s, t)| && Stack(s, t)[i].ReloadFrame?
    requires a.Run? && a.t == t ==> Nested(Stack(s, t), i) && !Meddles(s, t, i, strict)
    ensures ReloadGood(Next(s, a), t, i)
  {
    hide Inv, Next, CanRun, Lendable, Starting, ReloadGood, SameFacts, Acts, Awaits;
    if a.Run? && a.t == t {
      StepsAbove(s, t, a.choice, i);
    } else {
      AwaitedHere(s, t, i);
      ActionsAside(s, a, t, i);
    }
    var f := Stack(s, t)[i];
    if ReloadBound(f.rl) {
      ReloadOwns(s, t, i);
      EntryAside(s, a, t, f.name);
    }
    ReloadFactsKept(s, Next(s, a), t, i);
  }

  lemma ReloadGoodStep(s: State, a: Action, t: Tid, i: nat, strict: bool)
    requires Inv(s) && Enabled(s, a) && ReloadGood(s, t, i)
    requires a.Run? && a.t == t ==> !Meddles(s, t, i, strict)
    ensures ReloadGood(Next(s, a), t, i)
  {
    hide Inv, RunPrim, RunSwitch, RunReload, RunClose, CanRun, ReloadGood, Meddles, Awaits, Lendable;
    if i >= |Stack(s, t)| || !Stack(s, t)[i].ReloadFrame? {
      NoneAppears(s, a, t, i);
      NothingReloaded(Next(s, a), t, i);
    } else if a.Run? && a.t == t && !Nested(Stack(s, t), i) {
      if |Stack(s, t)| == i + 1 {
        ReloadSteps(s, t, i, a.choice);
      } else {
        ReloadChildSteps(s, t, i, a.choice);
      }
    } else {
      ReloadAside(s, a, t, i, strict);
    }
  }

  lemma NothingReloaded(s: State, t: Tid, i: nat)
    requires i < |Stack(s, t)| ==>
      var g := Stack(s, t)[i]; (g.ReloadFrame? ==> g.rl.RLookup?)
    ensures ReloadGood(s, t, i)
  {
  }

  // ------------------------------------------------------------------- theorems

  lemma {:induction false} RunsGood(s: State, run: seq<Action>, t: Tid, i: nat, strict: bool)
    requires Inv(s) && Protocol.Legal(s, run) && Unmeddled(s, run, t, i, strict)
    requires SwitchOk(s, t, i, strict) && ReloadGood(s, t, i)
    ensures Inv(After(s, run)) && SwitchOk(After(s, run), t, i, strict) && ReloadGood(After(s, run), t, i)
    decreases |run|
  {
    hide Inv, SwitchOk, ReloadGood, Meddles, Next, Enabled;
    if run != [] {
      NextKeeps(s, run[0]);
      SwitchOkStep(s, run[0], t, i, strict);
      ReloadGoodStep(s, run[0], t, i, strict);
      RunsGood(Next(s, run[0]), run[1..], t, i, strict);
    }
  }

  /**
   * `since` continues a run of any threads from a state in which `t` has fewer than
   * `i + 1` activations, and no operation nested in activation `i` meddles with it.
   */
  predicate Undisputed(run: seq<Action>, since: seq<Action>, t: Tid, i: nat, strict: bool) {
    && Protocol.Legal(Init, run) && |Stack(After(Init, run), t)| <= i
    && Protocol.Legal(After(Init, run), since)
    && Unmeddled(After(Init, run), since, t, i, strict)
  }

  function Then(run: seq<Action>, since: seq<Action>): State
    requires Protocol.Legal(Init, run) && Protocol.Legal(After(Init, run), since)
  {
    After(After(Init, run), since)
  }

  lemma ReachableGood(run: seq<Action>, since: seq<Action>, t: Tid, i: nat, strict: bool)
    requires Undisputed(run, since, t, i, strict)
    ensures var s := Then(run, since); Inv(s) && SwitchOk(s, t, i, strict) && ReloadGood(s, t, i)
  {
    hide Inv, After, Protocol.Legal, Unmeddled;
    Reachable(run);
    NothingClaimed(After(Init, run), t, i, strict);
    NothingReloaded(After(Init, run), t, i);
    RunsGood(After(Init, run), since, t, i, strict);
  }

  /** Activation `i` of the thread. */
  function Activation(s: State, t: Tid, i: nat): Option<Frame> {
    if i < |Stack(s, t)| then Some(Stack(s, t)[i]) else None
  }

  /**
   * From the moment a switch has found its target inactive until it returns, its
   * two entries are never open at the same time, whatever other threads do, and
   * whatever operations on other entries its own callbacks start.
   */
  lemma NeverBothOpen(run: seq<Action>, since: seq<Action>, t: Tid, i: nat)
    requires Undisputed(run, since, t, i, false)
    requires var f := Activation(Then(run, since), t, i); f.Some? && f.value.SwitchFrame? && Compared(f.value.sw)
    ensures var s := Then(run, since);
            var f := Activation(s, t, i).value;
            f.source in s.cells && f.target in s.cells && !(s.cells[f.source].e.gate && s.cells[f.target].e.gate)
  {
    hide Inv, After, Protocol.Legal, Unmeddled, Visits, StopFacts;
    ReachableGood(run, since, t, i, false);
    var s := Then(run, since);
    SwitchOwns(s, t, i);
    OpenIsActive(s, Stack(s, t)[i].source);
    OpenIsActive(s, Stack(s, t)[i].target);
  }

  lemma OpenIsActive(s: State, n: Name)
    requires Inv(s) && n in s.cells
    ensures s.cells[n].e.gate ==> s.cells[n].e.state.ACTIVE?
  {
    hide CellOk, FrameOk;
    CellOf(s, n);
    CellFacts(s, n);
  }

  /**
   * What the result of a switch means when it is about to be returned. Success:
   * the source is inactive and the target active. Failure after the source had
   * stopped: the source is inactive and the target is not active.
   */
  lemma SwitchResult(run: seq<Action>, since: seq<Action>, t: Tid, i: nat)
    requires Undisputed(run, since, t, i, false)
    requires var f := Activation(Then(run, since), t, i); f.Some? && f.value.SwitchFrame? && f.value.sw.SLeaving?
    ensures var s := Then(run, since);
            var f := Activation(s, t, i).value;
            && (Succeeded(f.sw.ret) ==> At(s, f.source, INACTIVE) && At(s, f.target, ACTIVE))
            && (!Succeeded(f.sw.ret) && f.sw.reach.Stopped? ==> At(s, f.source, INACTIVE) && NotActive(s, f.target))
            && (!Succeeded(f.sw.ret) && f.sw.reach.Compared? ==> NotActive(s, f.target))
  {
    hide Inv, After, Protocol.Legal, Unmeddled, Visits;
    ReachableGood(run, since, t, i, false);
  }

  /**
   * If no nested operation acted on either entry since the switch took its locks, a
   * successful switch has activated its target with exactly the state its source
   * exported if it transfers state, and with none otherwise.
   */
  lemma SwitchHandsOver(run: seq<Action>, since: seq<Action>, t: Tid, i: nat)
    requires Undisputed(run, since, t, i, true)
    requires var f := Activation(Then(run, since), t, i);
             f.Some? && f.value.SwitchFrame? && f.value.sw.SLeaving? && Succeeded(f.value.sw.ret)
    ensures var s := Then(run, since);
            var f := Activation(s, t, i).value;
            exists x :: Exported(s, f.source, x) && ActivatedWith(s, f.target, if f.transfer then x else None)
  {
    hide Inv, After, Protocol.Legal, Unmeddled, Visits;
    ReachableGood(run, since, t, i, true);
    var s := Then(run, since);
    var f := Stack(s, t)[i];
    var x := LastState(s, f.source);
    assert Exported(s, f.source, x) && ActivatedWith(s, f.target, if f.transfer then x else None);
  }

  /**
   * The joint law of a successful switch that transfers state: both roots hand over the
   * same type, and the call of `on_activate` on the target's root was given exactly what
   * the source's root had answered to `on_deactivate`.
   */
  lemma SwitchDelivers(run: seq<Action>, since: seq<Action>, t: Tid, i: nat)
    requires Undisputed(run, since, t, i, true)
    requires var f := Activation(Then(run, since), t, i);
             && f.Some? && f.value.SwitchFrame? && f.value.sw.SLeaving? && Succeeded(f.value.sw.ret)
             && f.value.transfer
    ensures var s := Then(run, since);
            var f := Activation(s, t, i).value;
            && f.source in s.cells && f.target in s.cells
            && var p, q := RootClass(s, f.source), RootClass(s, f.target);
            && p.Some? && q.Some? && p.value.handover == q.value.handover
            && var stops, starts := LastEvents(s, f.source), LastEvents(s, f.target);
            && starts != [] && var call := starts[|starts| - 1].call;
            && call.OnActivate?
            && (p.value.handover.Some? ==>
                  && stops != [] && stops[0].call.OnDeactivate? && stops[0].raw.GaveDeactivation? && stops[0].raw.ok
                  && call.args == [stops[0].raw.state])
            && (p.value.handover.None? ==> call.args == [])
  {
    hide Inv, After, Protocol.Legal, Unmeddled, Visits, LastEvents, RootClass;
    ReachableGood(run, since, t, i, true);
  }

  /**
   * A transferring switch that has stopped its source holds a state that the
   * target accepts: it compared the handover types, and the source exported what
   * its own root accepts. The target never rejects a transferred state.
   */
  lemma HandoverIsAccepted(run: seq<Action>, since: seq<Action>, t: Tid, i: nat)
    requires Undisputed(run, since, t, i, true)
    requires var f := Activation(Then(run, since), t, i);
             && f.Some? && f.value.SwitchFrame? && f.value.transfer
             && (f.value.sw.SStart? || f.value.sw.SStarting?)
    ensures var s := Then(run, since);
            var f := Activation(s, t, i).value;
            && SameType(s, f.source, f.target)
            && Accepts(RootClass(s, f.target).value, f.sw.exported)
  {
    hide Inv, After, Protocol.Legal, Unmeddled, Visits, RootClass, StartFacts;
    ReachableGood(run, since, t, i, true);
  }

  /**
   * A successful reload has counted exactly one generation since it took the lock;
   * the entry is active again iff it was active, and then it was activated with what
   * its stop had exported if the reload transfers state, and with nothing otherwise.
   */
  lemma ReloadResult(run: seq<Action>, since: seq<Action>, t: Tid, i: nat)
    requires Undisputed(run, since, t, i, true)
    requires var f := Activation(Then(run, since), t, i);
             f.Some? && f.value.ReloadFrame? && f.value.rl.RLeaving? && Succeeded(f.value.rl.ret)
    ensures var s := Then(run, since);
            var f := Activation(s, t, i).value;
            && f.name in s.cells && s.cells[f.name].e.generation == f.since.generation + 1
            && At(s, f.name, if f.wasActive then ACTIVE else INACTIVE)
            && (f.wasActive ==> ActivatedWith(s, f.name, if f.transfer then f.since.given else None))
  {
    hide Inv, After, Protocol.Legal, Unmeddled, Visits;
    ReachableGood(run, since, t, i, true);
  }

  /** What a reload keeps of its stop is exactly what the stopped instance exported. */
  lemma ReloadSnapshot(run: seq<Action>, since: seq<Action>, t: Tid, i: nat)
    requires Undisputed(run, since, t, i, true)
    requires var f := Activation(Then(run, since), t, i);
             f.Some? && f.value.ReloadFrame? && f.value.rl.RUnload? && f.value.wasActive
    ensures var s := Then(run, since);
            var f := Activation(s, t, i).value;
            Exported(s, f.name, f.since.given) && f.snapshot == if f.transfer then f.since.given else None
  {
    hide Inv, After, Protocol.Legal, Unmeddled, Visits;
    ReachableGood(run, since, t, i, true);
  }
}
