/** What one step of a thread does to its own stack, and that it leaves the other stacks alone. */
module Turns {
  import opened Lifecycle
  import opened Names
  import opened Entries
  import opened Protocol
  import opened Invariant
  import opened Calls
  import opened PrimSteps
  import opened AllSteps
  import opened Effects

  // ------------------------------------------------ what a step does to stacks

  /**
   * Nothing but the stack of `t` changed among the stacks, no count of calls did,
   * other entries are new, and a context once lost stays lost.
   */
  ghost predicate Calm(s: State, s': State, t: Tid) {
    && (forall u | u != t :: Stack(s', u) == Stack(s, u))
    && (forall n | n in s.cells :: n in s'.cells && s'.cells[n].e.callers == s.cells[n].e.callers)
    && (forall n | n in s.cells && s.cells[n].lost :: s'.cells[n].lost)
    && (forall n | n in s'.cells && n !in s.cells :: s'.cells[n].e == NewEntry)
  }

  /** The innermost activation is the same operation, perhaps in another stage. */
  ghost predicate Restaged(s: State, s': State, t: Tid)
    requires Stack(s, t) != [] && Top(s, t).PrimFrame?
  {
    && Calm(s, s', t)
    && |Stack(s', t)| == |Stack(s, t)|
    && Top(s', t).PrimFrame?
    && Stack(s', t) == Stack(s, t)[|Stack(s, t)| - 1 := Top(s, t).(stage := Top(s', t).stage)]
  }

  lemma StageRestaged(s: State, mid: State, t: Tid, stage: Stage)
    requires Stack(s, t) != [] && Top(s, t).PrimFrame? && Calm(s, mid, t) && Stack(mid, t) == Stack(s, t)
    ensures Restaged(s, ToStage(mid, t, stage), t) && Top(ToStage(mid, t, stage), t).stage == stage
  {
  }

  lemma CellCalm(s: State, t: Tid, n: Name, cell: Cell)
    requires n in s.cells && cell.e.callers == s.cells[n].e.callers && cell.lost == s.cells[n].lost
    ensures Calm(s, s.(cells := s.cells[n := cell]), t)
    ensures Stack(s.(cells := s.cells[n := cell]), t) == Stack(s, t)
  {
  }

  lemma StartRestaged(s: State, mid: State, t: Tid, k: Callback)
    requires Stack(s, t) != [] && Top(s, t).PrimFrame? && Calm(s, mid, t) && Stack(mid, t) == Stack(s, t)
    requires Top(s, t).name in mid.cells
    ensures Restaged(s, StartCallback(mid, t, k), t)
  {
  }

  /** What `_begin` and the code after it chose: a stage, or the callback `k`. */
  predicate BeginChoice(op: Prim, e: Entry, e': Entry, stage: Stage, k: Option<Callback>) {
    || (k.None? && stage == Leaving(Ret(false, None)) && e' == Reject(e))
    || (&& e.transition.None? && e.state in Allowed(op)
        && e'.state == e.state && e'.generation == e.generation && e'.context == e.context
        && match op
           case Load(_) => k.None? && (stage.WaitBuild? || stage == Finishing(UNLOADED, false, None))
           case Configure => k == Some(Configuring)
           case Activate(_) => k == Some(Activating)
           case Deactivate(_) => k.None? && stage.Drain?
           case Cleanup => if e.context.None? then k.None? && stage == Leaving(Raised) else k == Some(CleaningUp)
           case Unload(_) => k.None? && stage.Drain?)
  }

  /** `_begin` and the code up to the next section: a new entry, then a stage or a callback. */
  lemma BeginForm(s: State, t: Tid) returns (e': Entry, frame: nat, stage: Stage, k: Option<Callback>)
    requires Inside(s, t)
    ensures var mid := WithEntry(s, Top(s, t).name, e', frame);
            RunBegin(s, t) == if k.Some? then StartCallback(mid, t, k.value) else ToStage(mid, t, stage)
    ensures e'.callers == s.cells[Top(s, t).name].e.callers
    ensures BeginChoice(Top(s, t).op, s.cells[Top(s, t).name].e, e', stage, k)
  {
    hide StartCallback, ToStage, RunBegin, Refuses, Allowed, BegunEntry, BegunCallback, BegunStage;
    var f := Top(s, t);
    var e := s.cells[f.name].e;
    if Refuses(e, t, s.closing, Allowed(f.op), f.op.Unload?) {
      e', frame, stage, k := Reject(e), s.cells[f.name].frame, Leaving(Ret(false, None)), None;
      RefusedForm(s, t);
    } else {
      NotRefused(e, t, s.closing, Allowed(f.op), f.op.Unload?);
      e', frame := BegunEntry(f.op, e, t), |Stack(s, t)| - 1;
      stage, k := BegunStage(f.op, e'), BegunCallback(f.op, e);
      BegunForm(s, t);
      BegunChoice(f.op, e, t);
    }
  }

  lemma BegunChoice(op: Prim, e: Entry, t: Tid)
    requires e.transition.None? && e.state in Allowed(op)
    ensures var e' := BegunEntry(op, e, t);
            e'.callers == e.callers && BeginChoice(op, e, e', BegunStage(op, e'), BegunCallback(op, e))
  {
    hide Allowed;
  }

  lemma NotRefused(e: Entry, t: Tid, closing: bool, allowed: set<LifecycleState>, duringClose: bool)
    requires !Refuses(e, t, closing, allowed, duringClose)
    ensures e.transition.None? && e.state in allowed
  {
  }

  lemma BeginRestaged(s: State, t: Tid)
    requires Inside(s, t)
    ensures Restaged(s, RunBegin(s, t), t)
  {
    hide Calm, Restaged, StartCallback, ToStage, RunBegin;
    var n := Top(s, t).name;
    var e', frame, stage, k := BeginForm(s, t);
    CellCalm(s, t, n, s.cells[n].(e := e', frame := frame));
    if k.Some? {
      StartRestaged(s, WithEntry(s, n, e', frame), t, k.value);
    } else {
      StageRestaged(s, WithEntry(s, n, e', frame), t, stage);
    }
  }

  lemma CallbackRestaged(s: State, t: Tid, c: Choice)
    requires Inside(s, t) && Top(s, t).stage.Running?
    requires var e := s.cells[Top(s, t).name].e; e.context.Some? && e.context.value in s.contexts
    ensures Restaged(s, RunCallback(s, t, c), t)
  {
    hide Calm, Restaged, StartCallback, ToStage, Perform;
    var f := Top(s, t);
    var mid := Effects.Ended(s, t, c.outside);
    assert Calm(s, mid, t) && Stack(mid, t) == Stack(s, t) by { EndedCalm(s, t, c.outside); }
    forall stage ensures Restaged(s, ToStage(mid, t, stage), t) {
      StageRestaged(s, mid, t, stage);
    }
    forall k ensures Restaged(s, StartCallback(mid, t, k), t) {
      StartRestaged(s, mid, t, k);
    }
  }

  lemma EndedCalm(s: State, t: Tid, o: Outside)
    requires Inside(s, t) && Top(s, t).stage.Running?
    requires var e := s.cells[Top(s, t).name].e; e.context.Some? && e.context.value in s.contexts
    ensures Calm(s, Effects.Ended(s, t, o), t) && Stack(Effects.Ended(s, t, o), t) == Stack(s, t)
  {
    hide Perform, Calm;
    var n := Top(s, t).name;
    var s' := Effects.Ended(s, t, o);
    CellCalm(s, t, n, s'.cells[n]);
    ContextsCalm(s, s.(cells := s'.cells), t, s'.contexts, s'.next);
  }

  lemma DrainRestaged(s: State, t: Tid)
    requires Inside(s, t)
    ensures Restaged(s, RunDrain(s, t), t)
  {
    hide Calm, Restaged, StartCallback, ToStage;
    assert Calm(s, s, t) by { SelfCalm(s, t); }
    forall stage ensures Restaged(s, ToStage(s, t, stage), t) {
      StageRestaged(s, s, t, stage);
    }
    forall k ensures Restaged(s, StartCallback(s, t, k), t) {
      StartRestaged(s, s, t, k);
    }
  }

  lemma SelfCalm(s: State, t: Tid)
    ensures Calm(s, s, t)
  {
  }

  lemma CheckRestaged(s: State, t: Tid)
    requires Inside(s, t)
    ensures Restaged(s, RunCheck(s, t), t)
  {
    hide Calm, Restaged, ToStage;
    var n := Top(s, t).name;
    SelfCalm(s, t);
    CellCalm(s, t, n, s.cells[n].(e := Reject(s.cells[n].e)));
    forall stage ensures Restaged(s, ToStage(s, t, stage), t) {
      StageRestaged(s, s, t, stage);
    }
    StageRestaged(s, SetEntry(s, n, Reject(s.cells[n].e)), t, Leaving(Ret(false, None)));
  }

  lemma BuildingRestaged(s: State, t: Tid, c: Choice)
    requires Inside(s, t)
    ensures Restaged(s, RunBuilding(s, t, c), t)
  {
    hide Calm, Restaged, ToStage;
    SelfCalm(s, t);
    StageRestaged(s, s, t, Finishing(ERROR, false, None));
    if c.built.Some? {
      var n := Top(s, t).name;
      var cell := s.cells[n];
      var e := cell.e.(context := Some(s.next), generation := cell.e.generation + 1,
        configured := false, mayBeActive := false);
      var s1 := s.(cells := s.cells[n := cell.(e := e, built := cell.built + [s.next])]);
      var s' := s1.(contexts := s.contexts[s.next := Context(n, c.built.value, [])], next := s.next + 1);
      CellCalm(s, t, n, s1.cells[n]);
      ContextsCalm(s, s1, t, s'.contexts, s'.next);
      StageRestaged(s, s', t, Finishing(UNCONFIGURED, true, None));
    }
  }

  lemma ContextsCalm(s: State, mid: State, t: Tid, contexts: map<ContextId, Context>, next: ContextId)
    requires Calm(s, mid, t) && Stack(mid, t) == Stack(s, t)
    ensures Calm(s, mid.(contexts := contexts, next := next), t)
    ensures Stack(mid.(contexts := contexts, next := next), t) == Stack(s, t)
  {
  }

  /** A single operation changes its stage, or returns. */
  ghost predicate PrimStep(s: State, s': State, t: Tid)
    requires Stack(s, t) != [] && Top(s, t).PrimFrame?
  {
    || Restaged(s, s', t)
    || (Top(s, t).stage.Lookup? && (s' == Return(s, t, Raised) || s' == Return(s, t, Ret(false, None))))
    || (Top(s, t).stage.Leaving? && s' == Return(s, t, Top(s, t).stage.ret))
  }

  lemma PrimStepped(s: State, t: Tid, c: Choice)
    requires Inv(s) && CanRun(s, t, c) && Top(s, t).PrimFrame?
    ensures PrimStep(s, RunPrim(s, t, c), t)
  {
    hide Inv, RunLookup, RunCheck, RunBegin, RunBuilding, RunDrain, RunCallback, Return, CellOk, FrameOk, Restaged, ToStage, Calm;
    var f := Top(s, t);
    if f.stage.Lookup? {
      LookupStepped(s, t);
    } else {
      InsideFacts(s, t);
      CellFacts(s, f.name);
      match f.stage {
        case Acquire =>
          var locked := s.(cells := s.cells[f.name := s.cells[f.name].(owner := Some(t))]);
          CellCalm(s, t, f.name, s.cells[f.name].(owner := Some(t)));
          StageRestaged(s, locked, t, if f.op.Activate? || f.op.Deactivate? || f.op.Cleanup? then Check else Stage.Begin);
        case Check => CheckRestaged(s, t);
        case Begin => BeginRestaged(s, t);
        case WaitBuild => SelfCalm(s, t); StageRestaged(s, s, t, Building);
        case Building => BuildingRestaged(s, t, c);
        case Drain => DrainRestaged(s, t);
        case Running(_) => CallbackRestaged(s, t, c);
        case Finishing(to, ok, exported) =>
          var e' := Finish(s.cells[f.name].e, to, ok);
          CellCalm(s, t, f.name, s.cells[f.name].(e := e'));
          StageRestaged(s, SetEntry(s, f.name, e'), t, Leaving(Ret(ok, if ok then exported else None)));
        case Leaving(r) =>
        case Lookup =>
      }
    }
  }

  lemma LookupStepped(s: State, t: Tid)
    requires Stack(s, t) != [] && Top(s, t).PrimFrame? && Top(s, t).stage.Lookup?
    ensures PrimStep(s, RunLookup(s, t), t)
  {
    hide Return, Calm, Restaged, ToStage;
    var n := Top(s, t).name;
    SelfCalm(s, t);
    StageRestaged(s, s, t, Acquire);
    if n !in s.cells {
      CreatedCalm(s, t, n);
      StageRestaged(s, Created(s, n), t, Acquire);
    }
  }

  lemma CreatedCalm(s: State, t: Tid, n: Name)
    requires n !in s.cells
    ensures Calm(s, Created(s, n), t) && Stack(Created(s, n), t) == Stack(s, t)
  {
  }

  // ------------------------------------------------------- switch, reload, close

  lemma ReturnCalm(s: State, t: Tid, r: Ret)
    requires Stack(s, t) != []
    ensures Calm(s, Return(s, t, r), t) && Stack(Return(s, t, r), t) == Unwind(Stack(s, t), r)
  {
    hide Return, Unwind;
    forall n ensures n in Return(s, t, r).cells <==> n in s.cells
      ensures n in s.cells ==> Return(s, t, r).cells[n].e == s.cells[n].e && Return(s, t, r).cells[n].lost == s.cells[n].lost
    {
      ReturnCells(s, t, r, n);
    }
    forall u ensures Stack(Return(s, t, r), u) == if u == t then Unwind(Stack(s, t), r) else Stack(s, u) {
      ReturnStacks(s, t, r, u);
    }
  }

  lemma LockCalm(s: State, t: Tid, n: Name)
    requires n in s.cells
    ensures Calm(s, Lock(s, t, n), t) && Stack(Lock(s, t, n), t) == Stack(s, t)
  {
  }

  lemma FlagsCalm(s: State, mid: State, t: Tid)
    requires mid == s.(closing := mid.closing)
    ensures Calm(s, mid, t) && Stack(mid, t) == Stack(s, t)
  {
  }

  // ------------------------------------------------------------------ any step

  /** What the innermost activation does: go on, start an operation and wait for it, or return. */
  datatype Turn = GoOn(f: Frame) | Call(f: Frame) | GoBack(r: Ret)

  function Turned(stack: seq<Frame>, turn: Turn): seq<Frame>
    requires stack != [] && (turn.Call? ==> Awaits(turn.f).Some?)
  {
    var top := |stack| - 1;
    match turn
    case GoOn(f) => stack[top := f]
    case Call(f) => stack[top := f] + [PrimFrame(Awaits(f).value.0, Awaits(f).value.1, Lookup)]
    case GoBack(r) => Unwind(stack, r)
  }

  /** The same activation, perhaps further on. */
  predicate SameSite(f: Frame, g: Frame) {
    match f
    case PrimFrame(op, n, _) => g.PrimFrame? && g.op == op && g.name == n
    case SwitchFrame(a, b, transfer, timed, _) =>
      g.SwitchFrame? && g.source == a && g.target == b && g.transfer == transfer && g.timed == timed
    case ReloadFrame(n, _, _, _, _, _, _, _) => g.ReloadFrame? && g.name == n
    case CloseFrame(_, _, _, _) => g.CloseFrame?
  }

  /** Turns that the innermost activation `f` can take. */
  predicate MayTurn(f: Frame, turn: Turn) {
    match turn
    case GoOn(g) => SameSite(f, g) && !Refreshing(g) && (!f.PrimFrame? ==> g != f)
    case Call(g) => SameSite(f, g) && !g.PrimFrame? && Awaits(g).Some?
    case GoBack(r) => Returning(f, r)
  }

  ghost predicate TakesTurn(s: State, s': State, t: Tid, turn: Turn) {
    && Stack(s, t) != [] && MayTurn(Top(s, t), turn)
    && Calm(s, s', t) && Stack(s', t) == Turned(Stack(s, t), turn)
  }

  lemma TopTurns(s: State, mid: State, t: Tid, f: Frame)
    requires Stack(s, t) != [] && Calm(s, mid, t) && Stack(mid, t) == Stack(s, t) && MayTurn(Top(s, t), GoOn(f))
    ensures TakesTurn(s, SetTop(mid, t, f), t, GoOn(f))
  {
  }

  lemma CallTurns(s: State, t: Tid, f: Frame)
    requires Stack(s, t) != [] && MayTurn(Top(s, t), Call(f))
    ensures TakesTurn(s, Await(s, t, f), t, Call(f))
  {
  }

  lemma BackTurns(s: State, t: Tid, r: Ret)
    requires Stack(s, t) != [] && Returning(Top(s, t), r)
    ensures TakesTurn(s, Return(s, t, r), t, GoBack(r))
  {
    hide Return, Unwind, Calm;
    ReturnCalm(s, t, r);
  }

  lemma PrimTurns(s: State, t: Tid, c: Choice) returns (turn: Turn)
    requires Inv(s) && CanRun(s, t, c) && Top(s, t).PrimFrame?
    ensures TakesTurn(s, RunPrim(s, t, c), t, turn)
  {
    hide Inv, RunPrim, Return, Calm, Unwind;
    PrimStepped(s, t, c);
    var s' := RunPrim(s, t, c);
    if Restaged(s, s', t) {
      turn := GoOn(Top(s, t).(stage := Top(s', t).stage));
    } else if Top(s, t).stage.Leaving? {
      turn := GoBack(Top(s, t).stage.ret);
      BackTurns(s, t, Top(s, t).stage.ret);
    } else {
      turn := GoBack(if s' == Return(s, t, Raised) then Raised else Ret(false, None));
      BackTurns(s, t, turn.r);
    }
  }

  lemma SwitchTurns(s: State, t: Tid, c: Choice) returns (turn: Turn)
    requires Inv(s) && CanRun(s, t, c) && Top(s, t).SwitchFrame?
    ensures TakesTurn(s, RunSwitch(s, t), t, turn)
  {
    hide Inv, Calm, SetTop, Await, RunSwitch, Decided, Awaits, TakesTurn;
    var f := Top(s, t);
    TopOk(s, t);
    TopLocked(s, t);
    SelfCalm(s, t);
    if Decides(f.sw) {
      SwitchForm(s, t);
      DecidedShape(s, t, f);
      var g := f.(sw := Decided(s, t, f));
      if Awaits(g).Some? {
        turn := Call(g);
        CallTurns(s, t, g);
      } else {
        turn := GoOn(g);
        TopTurns(s, s, t, g);
      }
    } else {
      turn := SwitchStepTurns(s, t, c);
    }
  }

  lemma SwitchStepTurns(s: State, t: Tid, c: Choice) returns (turn: Turn)
    requires CanRun(s, t, c) && Top(s, t).SwitchFrame? && !Decides(Top(s, t).sw)
    requires Awaits(Top(s, t)).None? && Locked(s.cells, t, Top(s, t))
    ensures TakesTurn(s, RunSwitch(s, t), t, turn)
  {
    hide Calm, SetTop, Lock, Return, Before, TakesTurn;
    var f := Top(s, t);
    SelfCalm(s, t);
    match f.sw {
      case SLookup =>
        if f.source == f.target {
          turn := GoBack(Ret(false, None));
          BackTurns(s, t, turn.r);
        } else if f.source !in s.cells || f.target !in s.cells {
          turn := GoBack(Raised);
          BackTurns(s, t, turn.r);
        } else {
          turn := GoOn(f.(sw := SFirst));
          TopTurns(s, s, t, turn.f);
        }
      case SFirst =>
        turn := GoOn(f.(sw := SSecond));
        LockTurns(s, t, FirstLock(f.source, f.target), turn.f);
      case SSecond =>
        turn := GoOn(f.(sw := SGuard));
        LockTurns(s, t, SecondLock(f.source, f.target), turn.f);
      case SLeaving(r, _) =>
        turn := GoBack(r);
        BackTurns(s, t, r);
      case _ =>
    }
  }

  lemma LockTurns(s: State, t: Tid, n: Name, f: Frame)
    requires Stack(s, t) != [] && n in s.cells && MayTurn(Top(s, t), GoOn(f))
    ensures Stack(Lock(s, t, n), t) == Stack(s, t) && TakesTurn(s, SetTop(Lock(s, t, n), t, f), t, GoOn(f))
  {
    hide Calm, SetTop, TakesTurn, Lock;
    LockCalm(s, t, n);
    TopTurns(s, Lock(s, t, n), t, f);
  }

  lemma ReloadTurns(s: State, t: Tid, c: Choice) returns (turn: Turn)
    requires Inv(s) && CanRun(s, t, c) && Top(s, t).ReloadFrame?
    ensures TakesTurn(s, RunReload(s, t, c), t, turn)
  {
    hide Inv, Calm, SetTop, Await, RunReload, Continued, Awaits, TakesTurn;
    var f := Top(s, t);
    TopOk(s, t);
    TopLocked(s, t);
    SelfCalm(s, t);
    if Continues(f.rl) {
      ReloadForm(s, t, c);
      ContinuedShape(f, s.cells[f.name].e);
      var g := Continued(f, s.cells[f.name].e);
      if Awaits(g).Some? {
        turn := Call(g);
        CallTurns(s, t, g);
      } else {
        turn := GoOn(g);
        TopTurns(s, s, t, g);
      }
    } else {
      turn := ReloadStepTurns(s, t, c);
    }
  }

  lemma ReloadStepTurns(s: State, t: Tid, c: Choice) returns (turn: Turn)
    requires CanRun(s, t, c) && Top(s, t).ReloadFrame? && !Continues(Top(s, t).rl)
    requires Awaits(Top(s, t)).None? && Locked(s.cells, t, Top(s, t))
    ensures TakesTurn(s, RunReload(s, t, c), t, turn)
  {
    hide Calm, SetTop, Lock, Return, TakesTurn, RefreshFailed;
    var f := Top(s, t);
    SelfCalm(s, t);
    match f.rl {
      case RLookup =>
        if f.name !in s.cells {
          turn := GoBack(Raised);
          BackTurns(s, t, turn.r);
        } else {
          turn := GoOn(f.(rl := RAcquire));
          TopTurns(s, s, t, turn.f);
        }
      case RAcquire =>
        turn := GoOn(f.(rl := RStart));
        LockTurns(s, t, f.name, turn.f);
      case RRefreshing =>
        turn := GoOn(f.(rl := if c.refreshed then RLoad else RLeaving(Ret(false, None))));
        RefreshCalm(s, t, f.name);
        TopTurns(s, if c.refreshed then s else RefreshFailed(s, f.name), t, turn.f);
      case RLeaving(r) =>
        turn := GoBack(r);
        BackTurns(s, t, r);
      case _ =>
    }
  }

  lemma RefreshCalm(s: State, t: Tid, n: Name)
    requires n in s.cells
    ensures Calm(s, RefreshFailed(s, n), t) && Stack(RefreshFailed(s, n), t) == Stack(s, t)
  {
  }

  lemma CloseTurns(s: State, t: Tid, c: Choice) returns (turn: Turn)
    requires Inv(s) && CanRun(s, t, c) && Top(s, t).CloseFrame?
    ensures TakesTurn(s, RunClose(s, t), t, turn)
  {
    hide Inv, Calm, SetTop, Return, Await, TakesTurn, Reverse, InsideManagedCode;
    var f := Top(s, t);
    TopOk(s, t);
    TopLocked(s, t);
    match f.cl {
      case CStart =>
        if InsideManagedCode(s, t) {
          turn := GoBack(Ret(false, None));
          BackTurns(s, t, turn.r);
        } else {
          turn := GoOn(f.(todo := Reverse(s.order), ok := true, cl := CNext));
          FlagsCalm(s, s.(closing := true), t);
          TopTurns(s, s.(closing := true), t, turn.f);
        }
      case CNext =>
        if f.todo == [] {
          turn := GoBack(Ret(f.ok, None));
          BackTurns(s, t, turn.r);
          ClosedTurns(s, Return(s, t, turn.r), s.closedOk || f.ok, t, turn);
        } else {
          turn := Call(f.(cl := CUnloading));
          CallTurns(s, t, turn.f);
        }
      case CUnloading =>
    }
  }

  lemma ClosedTurns(s: State, mid: State, closedOk: bool, t: Tid, turn: Turn)
    requires TakesTurn(s, mid, t, turn)
    ensures TakesTurn(s, mid.(closedOk := closedOk), t, turn)
  {
  }

  /** Every step of a thread is a turn of its innermost activation. */
  lemma RunTurns(s: State, t: Tid, c: Choice) returns (turn: Turn)
    requires Inv(s) && CanRun(s, t, c)
    ensures TakesTurn(s, Next(s, Run(t, c)), t, turn)
  {
    hide Inv, RunPrim, RunSwitch, RunReload, RunClose, TakesTurn;
    match Top(s, t) {
      case PrimFrame(_, _, _) => turn := PrimTurns(s, t, c);
      case SwitchFrame(_, _, _, _, _) => turn := SwitchTurns(s, t, c);
      case ReloadFrame(_, _, _, _, _, _, _, _) => turn := ReloadTurns(s, t, c);
      case CloseFrame(_, _, _, _) => turn := CloseTurns(s, t, c);
    }
  }

  // ------------------------------------------------------- all stacks, any action

  /** The stacks of other threads, and all but their counts of calls, are out of a thread's reach. */
  lemma OtherStacks(s: State, a: Action, u: Tid)
    requires Inv(s) && Enabled(s, a) && (a.Run? || a.StartOp? ==> a.t != u)
    ensures Stack(Next(s, a), u) == Stack(s, u)
  {
    hide Inv, RunPrim, RunSwitch, RunReload, RunClose, Lendable, Turned, MayTurn, CanRun;
    if a.Run? {
      var turn := RunTurns(s, a.t, a.choice);
    }
  }

  /** An activation that is neither the innermost one nor waiting for it stays where it is. */
  lemma Below(stack: seq<Frame>, turn: Turn, i: nat)
    requires stack != [] && (turn.Call? ==> Awaits(turn.f).Some?)
    requires i < |stack| - 1 && (i == |stack| - 2 ==> Awaits(stack[i]).None?)
    ensures i < |Turned(stack, turn)|
    ensures Turned(stack, turn)[i] == if i == |stack| - 2 && turn.GoBack? then Resume(stack[i], turn.r) else stack[i]
  {
    hide Resume;
  }
}
