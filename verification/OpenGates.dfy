/** When an open gate carries a failed last result. */
module OpenGates {
  import opened Lifecycle
  import opened ContextTree
  import opened Names
  import opened Entries
  import opened Protocol
  import opened Invariant
  import opened Calls
  import opened PrimSteps
  import opened AllSteps
  import opened Effects
  import opened Turns
  import opened PrimEffects
  import opened Runs

  // --------------------------------------------------------- refusals in a run

  /** The step makes `_invalid` answer an operation that was asked of the entry. */
  predicate Rejects(s: State, a: Action, n: Name) {
    && a.Run? && Stack(s, a.t) != [] && n in s.cells
    && var f, e := Top(s, a.t), s.cells[n].e;
    && f.PrimFrame? && f.name == n
    && if f.stage.Check? then (f.op.Deactivate? && e.state.ERROR? && !e.mayBeActive) || (f.op.Cleanup? && e.mayBeActive)
       else f.stage.Begin? && Refuses(e, a.t, s.closing, Allowed(f.op), f.op.Unload?)
  }

  /** The step is the `_finish` that opens the entry's gate. */
  predicate Opens(s: State, a: Action, n: Name) {
    && a.Run? && Stack(s, a.t) != [] && Top(s, a.t).PrimFrame? && Top(s, a.t).name == n
    && Top(s, a.t).stage.Finishing? && Top(s, a.t).stage.to.ACTIVE? && Top(s, a.t).stage.ok
  }

  predicate Marked(s: State, a: Action, n: Name, was: bool) {
    if Opens(s, a, n) then false else was || Rejects(s, a, n)
  }

  /** `_invalid` has answered an operation on the entry since its gate was last opened. */
  predicate RefusedSince(s: State, run: seq<Action>, n: Name, was: bool)
    requires Protocol.Legal(s, run)
    decreases |run|
  {
    if run == [] then was else RefusedSince(Next(s, run[0]), run[1..], n, Marked(s, run[0], n, was))
  }

  /** Behind an open gate the last result is a failure exactly if something was refused. */
  predicate GateTells(s: State, n: Name, refused: bool) {
    n in s.cells && s.cells[n].e.gate ==> (s.cells[n].e.lastOk <==> !refused)
  }

  // ------------------------------------------------------------ one step at a time

  /** The steps of an operation change no entry but its own. */
  lemma PrimLocal(s: State, t: Tid, c: Choice)
    requires Inv(s) && Inside(s, t) && CanRun(s, t, c)
    ensures Effects.Local(s, RunPrim(s, t, c), Top(s, t).name)
  {
    hide Inv, RunCheck, RunBegin, RunBuilding, RunDrain, RunCallback, Return, Effects.Local, CellOk, FrameOk, Idle, ToStage, Settle, Finish;
    var f := Top(s, t);
    InsideFacts(s, t);
    CellFacts(s, f.name);
    SelfIdle(s);
    IdleLocal(s, s, f.name);
    match f.stage {
      case Check => CheckLocal(s, t);
      case Begin => BeginLocal(s, t);
      case WaitBuild => ThenStage(s, s, t, f.name, Building);
      case Building => NextIsFresh(s); BuildingLocal(s, t, c);
      case Drain => DrainLocal(s, t);
      case Running(_) => CallbackEffect(s, t, c);
      case Finishing(to, ok, exported) =>
        var cell := s.cells[f.name].(e := Finish(s.cells[f.name].e, to, ok));
        CellLocal(s, f.name, cell);
        ThenStage(s, s.(cells := s.cells[f.name := cell]), t, f.name, Leaving(Ret(ok, if ok then exported else None)));
      case Leaving(r) => ReturnIdle(s, t, r); IdleLocal(s, Return(s, t, r), f.name);
      case _ =>
    }
  }

  lemma CheckLocal(s: State, t: Tid)
    requires Inside(s, t)
    ensures Effects.Local(s, RunCheck(s, t), Top(s, t).name)
  {
    hide Effects.Local, ToStage;
    var n := Top(s, t).name;
    var cell := s.cells[n].(e := Reject(s.cells[n].e));
    SelfIdle(s);
    IdleLocal(s, s, n);
    CellLocal(s, n, cell);
    forall stage ensures Effects.Local(s, ToStage(s, t, stage), n) {
      ThenStage(s, s, t, n, stage);
    }
    ThenStage(s, s.(cells := s.cells[n := cell]), t, n, Leaving(Ret(false, None)));
  }

  /** What a check or `_begin` does to its entry: refuse it, leave it, or shut its gate. */
  lemma AskedEntry(s: State, t: Tid, c: Choice)
    requires Inside(s, t) && (Top(s, t).stage.Check? || Top(s, t).stage.Begin?)
    ensures var n, s' := Top(s, t).name, RunPrim(s, t, c);
            && n in s'.cells
            && var e, e' := s.cells[n].e, s'.cells[n].e;
               if Rejects(s, Run(t, c), n) then e' == Reject(e) else e' == e || !e'.gate
  {
    hide ToStage, StartCallback, RunBegin, BegunEntry, BegunCallback, BegunStage, Refuses, Allowed;
    var n, f := Top(s, t).name, Top(s, t);
    forall stage ensures ToStage(s, t, stage).cells == s.cells {
      StageCells(s, t, stage);
    }
    var rejected := SetEntry(s, n, Reject(s.cells[n].e));
    StageCells(rejected, t, Leaving(Ret(false, None)));
    if f.stage.Begin? {
      var e := s.cells[n].e;
      if Refuses(e, t, s.closing, Allowed(f.op), f.op.Unload?) {
        RefusedForm(s, t);
        StageCells(WithEntry(s, n, Reject(e), s.cells[n].frame), t, Leaving(Ret(false, None)));
      } else {
        BegunForm(s, t);
        var e' := BegunEntry(f.op, e, t);
        var mid := WithEntry(s, n, e', |Stack(s, t)| - 1);
        BegunIsShut(f.op, e, t);
        StageCells(mid, t, BegunStage(f.op, e'));
        if BegunCallback(f.op, e).Some? {
          StartCells(mid, t, BegunCallback(f.op, e).value);
        }
      }
    }
  }

  lemma BegunIsShut(op: Prim, e: Entry, t: Tid)
    ensures !BegunEntry(op, e, t).gate
  {
  }

  lemma StageCells(s: State, t: Tid, stage: Stage)
    requires Stack(s, t) != [] && Top(s, t).PrimFrame?
    ensures ToStage(s, t, stage).cells == s.cells
  {
  }

  lemma StartCells(s: State, t: Tid, k: Callback)
    requires Stack(s, t) != [] && Top(s, t).PrimFrame? && Top(s, t).name in s.cells
    ensures StartCallback(s, t, k).cells == s.cells
  {
  }

  /** Between `_begin` and `_finish` the gate stays shut; `_finish` opens it as it says. */
  lemma BegunEntryShut(s: State, t: Tid, c: Choice)
    requires Inv(s) && Inside(s, t) && CanRun(s, t, c) && Begun(Top(s, t), Top(s, t).name)
    ensures var n, s' := Top(s, t).name, RunPrim(s, t, c);
            && n in s'.cells
            && (s'.cells[n].e.gate ==> Opens(s, Run(t, c), n) && s'.cells[n].e.lastOk)
  {
    hide Inv, RunBuilding, RunDrain, RunCallback, CellOk, FrameOk, ToStage, Settle, Perform, Linked, History, Counted, Rests, Quiet, Flags;
    var f := Top(s, t);
    InsideFacts(s, t);
    CellFacts(s, f.name);
    match f.stage {
      case WaitBuild => StageCells(s, t, Building);
      case Building => BuiltEntry(s, t, c);
      case Drain => DrainLocal(s, t);
      case Running(k) => CallbackEffect(s, t, c); SettledGate(s.cells[f.name].e, k);
      case Finishing(to, ok, x) =>
        StageCells(SetEntry(s, f.name, Finish(s.cells[f.name].e, to, ok)), t, Leaving(Ret(ok, if ok then x else None)));
    }
  }

  lemma SettledGate(e: Entry, k: Callback)
    ensures forall ok :: Settle(e, k, ok).gate == e.gate
  {
  }

  lemma BuiltEntry(s: State, t: Tid, c: Choice)
    requires Inside(s, t)
    ensures var n, s' := Top(s, t).name, RunBuilding(s, t, c); n in s'.cells && s'.cells[n].e.gate == s.cells[n].e.gate
  {
  }

  /** A step of a single operation keeps the link between gate, last result and refusals. */
  lemma PrimTells(s: State, t: Tid, c: Choice, n: Name, was: bool)
    requires Inv(s) && CanRun(s, t, c) && Top(s, t).PrimFrame? && GateTells(s, n, was) && n in s.cells
    ensures GateTells(RunPrim(s, t, c), n, Marked(s, Run(t, c), n, was))
  {
    hide Inv, RunLookup, RunPrim, Effects.Local, CellOk, FrameOk, Rejects, Idle;
    var f := Top(s, t);
    if f.stage.Lookup? || f.stage.Acquire? {
      LookupTells(s, t, c, n, was);
    } else {
      InsideFacts(s, t);
      if f.name != n {
        PrimLocal(s, t, c);
        OthersRejectNot(s, t, c, n);
        LocalEntry(s, RunPrim(s, t, c), f.name, n);
      } else if Begun(f, n) {
        BegunEntryShut(s, t, c);
      } else if f.stage.Leaving? {
        LeavingTells(s, t, c, n, was);
      } else {
        AskedEntry(s, t, c);
        CellFacts(s, n);
      }
    }
  }

  lemma LocalEntry(s: State, s': State, m: Name, n: Name)
    requires Effects.Local(s, s', m) && n in s.cells && n != m
    ensures n in s'.cells && s'.cells[n].e == s.cells[n].e
  {
  }

  lemma OthersRejectNot(s: State, t: Tid, c: Choice, n: Name)
    requires Stack(s, t) != [] && Top(s, t).PrimFrame? && Top(s, t).name != n
    ensures !Rejects(s, Run(t, c), n) && !Opens(s, Run(t, c), n)
  {
  }

  lemma LookupTells(s: State, t: Tid, c: Choice, n: Name, was: bool)
    requires Inv(s) && CanRun(s, t, c) && Top(s, t).PrimFrame? && GateTells(s, n, was) && n in s.cells
    requires Top(s, t).stage.Lookup? || Top(s, t).stage.Acquire?
    ensures GateTells(RunPrim(s, t, c), n, Marked(s, Run(t, c), n, was))
  {
    hide Inv, Return, Idle;
    var f := Top(s, t);
    ReturnIdle(s, t, Raised);
    ReturnIdle(s, t, Ret(false, None));
    IdleEntry(s, Return(s, t, Raised), n);
    IdleEntry(s, Return(s, t, Ret(false, None)), n);
  }

  lemma LeavingTells(s: State, t: Tid, c: Choice, n: Name, was: bool)
    requires Inv(s) && CanRun(s, t, c) && Inside(s, t) && GateTells(s, n, was) && n in s.cells && Top(s, t).stage.Leaving?
    ensures GateTells(RunPrim(s, t, c), n, Marked(s, Run(t, c), n, was))
  {
    hide Inv, Return, Idle;
    ReturnIdle(s, t, Top(s, t).stage.ret);
    IdleEntry(s, Return(s, t, Top(s, t).stage.ret), n);
  }

  lemma IdleEntry(s: State, s': State, n: Name)
    requires Idle(s, s') && n in s.cells
    ensures n in s'.cells && s'.cells[n].e == s.cells[n].e
  {
  }

  /** Switch, reload and close refuse nothing themselves; a refresh that raised shuts the gate. */
  lemma OuterTells(s: State, t: Tid, c: Choice, n: Name, was: bool)
    requires Inv(s) && CanRun(s, t, c) && !Top(s, t).PrimFrame? && GateTells(s, n, was) && n in s.cells
    ensures GateTells(Next(s, Run(t, c)), n, Marked(s, Run(t, c), n, was))
  {
    hide Inv, RunSwitch, RunClose, RunReload, Idle;
    var s' := Next(s, Run(t, c));
    match Top(s, t) {
      case SwitchFrame(_, _, _, _, _) => SwitchIdle(s, t); IdleEntry(s, s', n);
      case ReloadFrame(_, _, _, _, _, _, _, _) =>
        if Top(s, t).rl.RRefreshing? && !c.refreshed && Top(s, t).name in s.cells {
          RaisedEntry(s, t, c, n);
        } else {
          ReloadIdle(s, t, c);
          IdleEntry(s, s', n);
        }
      case CloseFrame(_, _, _, _) =>
        CloseIdle(s, t);
        IdleEntry(s.(closing := s'.closing, closedOk := s'.closedOk), s', n);
    }
  }

  lemma RaisedEntry(s: State, t: Tid, c: Choice, n: Name)
    requires Stack(s, t) != [] && Refreshing(Top(s, t)) && !c.refreshed && Top(s, t).name in s.cells && n in s.cells
    ensures var s' := RunReload(s, t, c);
            n in s'.cells && (if n == Top(s, t).name then !s'.cells[n].e.gate else s'.cells[n].e == s.cells[n].e)
  {
  }

  /** An entry that appears is a new one, with its gate shut. */
  lemma NewcomersAreShut(s: State, a: Action, n: Name)
    requires Inv(s) && Enabled(s, a) && n !in s.cells && n in Next(s, a).cells
    ensures !Next(s, a).cells[n].e.gate
  {
    hide Inv, Lendable, CanRun, RunPrim, RunSwitch, RunReload, RunClose, MayTurn, Turned;
    if a.Run? {
      var turn := RunTurns(s, a.t, a.choice);
    }
  }

  lemma BorrowTells(s: State, a: Action, n: Name, was: bool)
    requires Enabled(s, a) && !a.Run? && GateTells(s, n, was) && n in s.cells
    ensures GateTells(Next(s, a), n, Marked(s, a, n, was))
  {
    hide Lendable;
  }

  lemma NextTells(s: State, a: Action, n: Name, was: bool)
    requires Inv(s) && Enabled(s, a) && GateTells(s, n, was)
    ensures GateTells(Next(s, a), n, Marked(s, a, n, was))
  {
    hide Inv, RunPrim, RunSwitch, RunReload, RunClose, Lendable, GateTells, Marked;
    if n !in s.cells {
      NoEntryTells(s, a, n, was);
    } else if !a.Run? {
      BorrowTells(s, a, n, was);
    } else if Top(s, a.t).PrimFrame? {
      PrimTells(s, a.t, a.choice, n, was);
    } else {
      OuterTells(s, a.t, a.choice, n, was);
    }
  }

  lemma NoEntryTells(s: State, a: Action, n: Name, was: bool)
    requires Inv(s) && Enabled(s, a) && n !in s.cells
    ensures GateTells(Next(s, a), n, Marked(s, a, n, was))
  {
    hide Inv, Next, Enabled, Marked;
    if n in Next(s, a).cells {
      NewcomersAreShut(s, a, n);
    }
  }

  // ------------------------------------------------------------------- theorems

  lemma {:induction false} RunTells(s: State, run: seq<Action>, n: Name, was: bool)
    requires Inv(s) && Protocol.Legal(s, run) && GateTells(s, n, was)
    ensures GateTells(After(s, run), n, RefusedSince(s, run, n, was))
    decreases |run|
  {
    hide Inv, Next, Enabled, GateTells, Marked;
    if run != [] {
      NextTells(s, run[0], n, was);
      NextKeeps(s, run[0]);
      RunTells(Next(s, run[0]), run[1..], n, Marked(s, run[0], n, was));
    }
  }

  /**
   * Over every run: an open gate carries a failed last result exactly if `_invalid`
   * has answered some operation on the entry since the `_finish` that opened the gate.
   */
  lemma FailureBehindOpenGateIff(run: seq<Action>, n: Name)
    requires Protocol.Legal(Init, run)
    requires var s := After(Init, run); n in s.cells && s.cells[n].e.gate
    ensures !After(Init, run).cells[n].e.lastOk <==> RefusedSince(Init, run, n, false)
  {
    hide After, Protocol.Legal, RefusedSince;
    InitInv();
    RunTells(Init, run, n, false);
  }

  /**
   * What one section does to an open entry: it leaves it open with a failure recorded
   * iff it refuses, leaves it as it is iff it passes a check or returns early, and
   * otherwise shuts the gate.
   */
  lemma AskedWhileOpen(s: State, t: Tid, c: Choice)
    requires Inv(s) && Inside(s, t) && CanRun(s, t, c) && (Top(s, t).stage.Check? || Top(s, t).stage.Begin?)
    requires s.cells[Top(s, t).name].e.gate
    ensures var n, s' := Top(s, t).name, RunPrim(s, t, c);
            && n in s'.cells
            && var e, e' := s.cells[n].e, s'.cells[n].e;
            && (Rejects(s, Run(t, c), n) ==> e' == e.(lastOk := false))
            && (!Rejects(s, Run(t, c), n) ==> e' == e || !e'.gate)
            && (e'.gate && !e'.lastOk <==> Rejects(s, Run(t, c), n) || (e' == e && !e.lastOk))
  {
    hide RunPrim, Inv, CellOk, FrameOk;
    AskedEntry(s, t, c);
    CellOf(s, Top(s, t).name);
    CellFacts(s, Top(s, t).name);
  }
}
