/** Which steps open and shut a gate, and exactly when both gates of a switch are open. */
module SwitchGates {
  import opened Lifecycle
  import opened Names
  import opened Entries
  import opened Protocol
  import opened Invariant
  import opened Calls
  import opened PrimSteps
  import opened AllSteps
  import opened Effects
  import opened Turns
  import opened OpenGates
  import opened Handover

  // ------------------------------------------------------------ one gate in a run

  /** The step is a `_begin` that is not refused, or a refresh that raises. */
  predicate Shuts(s: State, a: Action, n: Name) {
    && a.Run? && Stack(s, a.t) != [] && n in s.cells
    && var f := Top(s, a.t);
    || (f.PrimFrame? && f.name == n && f.stage.Begin?
        && !Refuses(s.cells[n].e, a.t, s.closing, Allowed(f.op), f.op.Unload?))
    || (Refreshing(f) && f.name == n && !a.choice.refreshed)
  }

  /** Since the last `_finish` that opened the gate no operation has begun on the entry. */
  predicate OpenedSince(s: State, run: seq<Action>, n: Name, was: bool)
    requires Protocol.Legal(s, run)
    decreases |run|
  {
    if run == [] then was
    else OpenedSince(Next(s, run[0]), run[1..], n, Opens(s, run[0], n) || (was && !Shuts(s, run[0], n)))
  }

  /** The gate moves exactly with the steps that open and shut it. */
  predicate GateMoves(s: State, s': State, a: Action, n: Name) {
    n in s.cells && n in s'.cells && (s'.cells[n].e.gate <==> Opens(s, a, n) || (s.cells[n].e.gate && !Shuts(s, a, n)))
  }

  /** Nothing but a begun operation, `_begin` or a refresh touches the gate. */
  lemma OthersMoveNot(s: State, a: Action, n: Name)
    requires Inv(s) && Enabled(s, a) && n in s.cells && (a.Run? ==> !Acts(s, a.t, n))
    ensures GateMoves(s, Next(s, a), a, n)
  {
    hide Inv, Next, Enabled, Allowed;
    NotActing(s, a, n);
  }

  lemma BegunMoves(s: State, t: Tid, c: Choice)
    requires Inv(s) && Inside(s, t) && CanRun(s, t, c) && Begun(Top(s, t), Top(s, t).name)
    ensures GateMoves(s, RunPrim(s, t, c), Run(t, c), Top(s, t).name)
  {
    hide Inv, RunPrim, CellOk, FrameOk;
    BegunEntryShut(s, t, c);
    InsideFacts(s, t);
    MarkedIsShut(s, t, |Stack(s, t)| - 1, Top(s, t).name);
    if Top(s, t).stage.Finishing? {
      FinishOpens(s, t, c);
    }
  }

  /** An entry on which an operation is under way lends nothing. */
  lemma MarkedIsShut(s: State, t: Tid, i: nat, n: Name)
    requires Inv(s) && i < |Stack(s, t)| && Begun(Stack(s, t)[i], n) && n in s.cells
    ensures !s.cells[n].e.gate
  {
    hide Inv, CellOk, FrameOk;
    BegunMarks(s, t, i, n);
    CellOf(s, n);
    CellFacts(s, n);
  }

  lemma FinishOpens(s: State, t: Tid, c: Choice)
    requires Inside(s, t) && CanRun(s, t, c) && Top(s, t).stage.Finishing?
    ensures var n, s' := Top(s, t).name, RunPrim(s, t, c);
            n in s'.cells && (s'.cells[n].e.gate <==> Opens(s, Run(t, c), n))
  {
    var f := Top(s, t);
    StageCells(SetEntry(s, f.name, Finish(s.cells[f.name].e, f.stage.to, f.stage.ok)), t,
      Leaving(Ret(f.stage.ok, if f.stage.ok then f.stage.exported else None)));
  }

  lemma BeginShuts(s: State, t: Tid, c: Choice)
    requires Inside(s, t) && Top(s, t).stage.Begin?
    ensures GateMoves(s, RunBegin(s, t), Run(t, c), Top(s, t).name)
  {
    hide StartCallback, ToStage, RunBegin, BegunEntry, BegunCallback, BegunStage, Refuses, Allowed;
    var n, f := Top(s, t).name, Top(s, t);
    var e := s.cells[n].e;
    if Refuses(e, t, s.closing, Allowed(f.op), f.op.Unload?) {
      RefusedForm(s, t);
      StageCells(WithEntry(s, n, Reject(e), s.cells[n].frame), t, Leaving(Ret(false, None)));
    } else {
      BegunForm(s, t);
      var e' := BegunEntry(f.op, e, t);
      var mid := WithEntry(s, n, e', |Stack(s, t)| - 1);
      BegunIsShut(f.op, e, t);
      StageCells(mid, t, BegunStage(f.op, e'));
      if BegunCallback(f.op, e).Some? {
        StartCells(mid, t, BegunCallback(f.op, e).value);
      }
    }
  }

  lemma BeginRuns(s: State, t: Tid, c: Choice)
    requires Inside(s, t) && CanRun(s, t, c) && Top(s, t).stage.Begin?
    ensures RunPrim(s, t, c) == RunBegin(s, t)
  {
    hide RunBegin;
  }

  lemma RefreshMoves(s: State, t: Tid, c: Choice)
    requires Inv(s) && CanRun(s, t, c) && Refreshing(Top(s, t)) && Top(s, t).name in s.cells
    ensures GateMoves(s, RunReload(s, t, c), Run(t, c), Top(s, t).name)
  {
    hide Inv, RunReload, Idle;
    var n := Top(s, t).name;
    if c.refreshed {
      ReloadIdle(s, t, c);
      IdleEntry(s, RunReload(s, t, c), n);
    } else {
      RaisedEntry(s, t, c, n);
    }
  }

  lemma GateStep(s: State, a: Action, n: Name)
    requires Inv(s) && Enabled(s, a) && n in s.cells
    ensures GateMoves(s, Next(s, a), a, n)
  {
    hide Inv, RunPrim, RunSwitch, RunReload, RunClose, Lendable, GateMoves, CanRun, CellOk, FrameOk;
    if a.Run? && Acts(s, a.t, n) {
      if Refreshing(Top(s, a.t)) {
        RefreshMoves(s, a.t, a.choice);
      } else {
        InsideFacts(s, a.t);
        if Begun(Top(s, a.t), n) {
          BegunMoves(s, a.t, a.choice);
        } else {
          BeginRuns(s, a.t, a.choice);
          BeginShuts(s, a.t, a.choice);
        }
      }
    } else {
      OthersMoveNot(s, a, n);
    }
  }

  predicate GateKnown(s: State, n: Name, was: bool) {
    if n in s.cells then s.cells[n].e.gate <==> was else !was
  }

  lemma GateKnownStep(s: State, a: Action, n: Name, was: bool)
    requires Inv(s) && Enabled(s, a) && GateKnown(s, n, was)
    ensures GateKnown(Next(s, a), n, Opens(s, a, n) || (was && !Shuts(s, a, n)))
  {
    hide Inv, Next, Enabled, Shuts;
    if n in s.cells {
      GateStep(s, a, n);
    } else {
      NothingOpens(s, a, n);
      if n in Next(s, a).cells {
        NewcomersAreShut(s, a, n);
      }
    }
  }

  lemma NothingOpens(s: State, a: Action, n: Name)
    requires Inv(s) && Enabled(s, a) && n !in s.cells
    ensures !Opens(s, a, n)
  {
    hide Inv, CanRun, Before;
    if a.Run? && Stack(s, a.t) != [] {
      TopLocked(s, a.t);
    }
  }

  lemma {:induction false} RunMovesGate(s: State, run: seq<Action>, n: Name, was: bool)
    requires Inv(s) && Protocol.Legal(s, run) && GateKnown(s, n, was)
    ensures GateKnown(After(s, run), n, OpenedSince(s, run, n, was))
    decreases |run|
  {
    hide Inv, Next, Enabled, GateKnown, Opens, Shuts;
    if run != [] {
      GateKnownStep(s, run[0], n, was);
      NextKeeps(s, run[0]);
      RunMovesGate(Next(s, run[0]), run[1..], n, Opens(s, run[0], n) || (was && !Shuts(s, run[0], n)));
    }
  }

  /** In every run a gate is open exactly if nothing has begun on the entry since a successful activation finished. */
  lemma GateIsOpenIff(run: seq<Action>, n: Name)
    requires Protocol.Legal(Init, run) && n in After(Init, run).cells
    ensures After(Init, run).cells[n].e.gate <==> OpenedSince(Init, run, n, false)
  {
    hide After, Protocol.Legal, OpenedSince;
    InitInv();
    RunMovesGate(Init, run, n, false);
  }

  // ------------------------------------------------------ both gates of a switch

  /** The switch has stopped its source. */
  predicate SourceStopped(sw: SwitchStage) {
    sw.SStart? || sw.SStarting? || (sw.SLeaving? && sw.reach.Stopped?)
  }

  /** Activation `i` is a switch that has found its target inactive. */
  predicate Switching(s: State, t: Tid, i: nat) {
    i < |Stack(s, t)| && Stack(s, t)[i].SwitchFrame? && Handover.Compared(Stack(s, t)[i].sw)
  }

  predicate PastStop(s: State, t: Tid, i: nat) {
    Switching(s, t, i) && SourceStopped(Stack(s, t)[i].sw)
  }

  /** An operation nested in activation `i` ends by opening the source. */
  predicate Reopens(s: State, a: Action, t: Tid, i: nat)
    requires PastStop(s, t, i)
  {
    a.t == t && Nested(Stack(s, t), i) && Opens(s, a, Stack(s, t)[i].source)
  }

  predicate StaysReopened(s: State, a: Action, t: Tid, i: nat, was: bool) {
    PastStop(s, t, i) && (Reopens(s, a, t, i) || (was && !Shuts(s, a, Stack(s, t)[i].source)))
  }

  /**
   * Since activation `i`, a switch, stopped its source, an operation nested in it has
   * opened the source again, and nothing has begun on the source after that.
   */
  predicate Reopened(s: State, run: seq<Action>, t: Tid, i: nat, was: bool)
    requires Protocol.Legal(s, run)
    decreases |run|
  {
    if run == [] then was
    else Reopened(Next(s, run[0]), run[1..], t, i, StaysReopened(s, run[0], t, i, was))
  }

  predicate GateOf(s: State, n: Name) {
    n in s.cells && s.cells[n].e.gate
  }

  /** Until its source has stopped not both are open; from then on the source is open as the run says. */
  predicate GatesTell(s: State, t: Tid, i: nat, was: bool) {
    Switching(s, t, i) ==>
      var f := Stack(s, t)[i];
      if SourceStopped(f.sw) then GateOf(s, f.source) <==> was else !(GateOf(s, f.source) && GateOf(s, f.target))
  }

  /** An inactive entry is shut. */
  lemma InactiveIsShut(s: State, n: Name)
    requires Inv(s) && In(s, n, INACTIVE)
    ensures !GateOf(s, n)
  {
    hide Inv;
    OpenIsActive(s, n);
  }

  /** No other thread moves the gates of a switch. */
  lemma OthersLeaveGates(s: State, a: Action, t: Tid, i: nat, was: bool)
    requires Inv(s) && Enabled(s, a) && GatesTell(s, t, i, was) && i < |Stack(s, t)| && Stack(s, t)[i].SwitchFrame?
    requires !(a.Run? && a.t == t)
    ensures GatesTell(Next(s, a), t, i, StaysReopened(s, a, t, i, was))
  {
    hide Inv, Next, Enabled, Opens, Shuts, Acts, Awaits;
    AwaitedHere(s, t, i);
    ActionsAside(s, a, t, i);
    if Switching(s, t, i) {
      SwitchOwns(s, t, i);
      ForeignStep(s, a, t, Stack(s, t)[i].source);
      ForeignStep(s, a, t, Stack(s, t)[i].target);
    }
  }

  /** A step that is not one of `t` leaves the gates that `t` has locked. */
  lemma ForeignStep(s: State, a: Action, t: Tid, n: Name)
    requires Inv(s) && Enabled(s, a) && n in s.cells && s.cells[n].owner == Some(t) && !(a.Run? && a.t == t)
    ensures !Opens(s, a, n) && !Shuts(s, a, n) && (GateOf(Next(s, a), n) <==> GateOf(s, n))
  {
    hide Inv, Next, Enabled, Refuses, Allowed;
    GateStep(s, a, n);
    if a.Run? && (Opens(s, a, n) || Shuts(s, a, n)) {
      OpenersOwn(s, a, n);
    }
  }

  lemma OpenersOwn(s: State, a: Action, n: Name)
    requires Inv(s) && n in s.cells && (Opens(s, a, n) || Shuts(s, a, n))
    ensures s.cells[n].owner == Some(a.t)
  {
    hide Inv, Refuses, Allowed, Before;
    TopLocked(s, a.t);
  }

  /** An operation nested in the switch: during the stop the source is marked, and later the run tells. */
  lemma NestedGates(s: State, a: Action, t: Tid, i: nat, was: bool)
    requires Inv(s) && Enabled(s, a) && GatesTell(s, t, i, was) && i < |Stack(s, t)| && Stack(s, t)[i].SwitchFrame?
    requires a.Run? && a.t == t && Nested(Stack(s, t), i)
    ensures GatesTell(Next(s, a), t, i, StaysReopened(s, a, t, i, was))
  {
    hide Inv, Next, CanRun, Opens, Shuts;
    StepsAbove(s, t, a.choice, i);
    if Switching(s, t, i) {
      SwitchOwns(s, t, i);
      var n := Stack(s, t)[i].source;
      GateStep(s, a, n);
      if !PastStop(s, t, i) {
        NextKeeps(s, a);
        StoppingIsMarked(s, t, i);
        MarkedIsShut(Next(s, a), t, i + 1, n);
      }
    }
  }

  /** What runs inside a switch before its source has stopped runs inside the stop. */
  lemma StoppingIsMarked(s: State, t: Tid, i: nat)
    requires Inv(s) && Switching(s, t, i) && !PastStop(s, t, i) && Nested(Stack(s, t), i)
    ensures i + 1 < |Stack(s, t)| && Begun(Stack(s, t)[i + 1], Stack(s, t)[i].source) && Awaits(Stack(s, t)[i]).Some?
  {
    hide CellOk, Locked, Underway;
    assert FrameOk(s, t, i);
    assert FrameOk(s, t, i + 1);
  }

  /** The switch itself takes a step. */
  lemma SwitchGatesStep(s: State, t: Tid, i: nat, c: Choice, was: bool)
    requires Inv(s) && CanRun(s, t, c) && GatesTell(s, t, i, was) && |Stack(s, t)| == i + 1 && Top(s, t).SwitchFrame?
    ensures GatesTell(RunSwitch(s, t), t, i, StaysReopened(s, Run(t, c), t, i, was))
  {
    hide Inv, RunSwitch, Idle, Before, RootClass, CanRun, Decided;
    var f := Top(s, t);
    TopOk(s, t);
    if Decides(f.sw) {
      SwitchOwns(s, t, i);
      SwitchIdle(s, t);
      IdleEntry(s, RunSwitch(s, t), f.source);
      IdleEntry(s, RunSwitch(s, t), f.target);
      DecidesGates(s, t, i);
    } else {
      SwitchEnters(s, t, i, c);
    }
  }

  lemma DecidesGates(s: State, t: Tid, i: nat)
    requires Inv(s) && |Stack(s, t)| == i + 1 && Top(s, t).SwitchFrame? && Decides(Top(s, t).sw)
    requires Top(s, t).source in s.cells && Top(s, t).target in s.cells
    ensures var s' := RunSwitch(s, t);
            && i < |Stack(s', t)| && Stack(s', t)[i] == Top(s, t).(sw := Decided(s, t, Top(s, t)))
            && (Switching(s', t, i) ==>
                  if PastStop(s, t, i) then PastStop(s', t, i) else !PastStop(s', t, i) && !GateOf(s, Top(s, t).target))
  {
    hide Inv, RunSwitch, SetTop, Await, RootClass;
    var f := Top(s, t);
    LoneTop(s, t);
    SwitchForm(s, t);
    if s.cells[f.target].e.state.INACTIVE? {
      InactiveIsShut(s, f.target);
    }
  }

  /** The operation that the switch awaits takes a step. */
  lemma AwaitedGates(s: State, t: Tid, i: nat, c: Choice, was: bool)
    requires Inv(s) && CanRun(s, t, c) && GatesTell(s, t, i, was) && |Stack(s, t)| == i + 2 && Stack(s, t)[i].SwitchFrame?
    requires Awaits(Stack(s, t)[i]).Some?
    ensures GatesTell(Next(s, Run(t, c)), t, i, StaysReopened(s, Run(t, c), t, i, was))
  {
    hide Inv, Next, CanRun, Opens, Shuts, Awaits, Handover.Compared;
    var f, s' := Stack(s, t)[i], Next(s, Run(t, c));
    AwaitedShape(s, t, i);
    AwaitedBinds(f);
    SwitchOwns(s, t, i);
    GateStep(s, Run(t, c), f.source);
    GateStep(s, Run(t, c), f.target);
    var r := AwaitedMoves(s, t, i, c);
    if Handover.Compared(f.sw) {
      AwaitedOpens(s, t, i, c);
    }
    if r.Some? {
      ResumedStages(f, r.value);
      if In(s, f.source, INACTIVE) {
        InactiveIsShut(s, f.source);
      }
    }
  }

  lemma AwaitedBinds(f: Frame)
    requires f.SwitchFrame? && Awaits(f).Some?
    ensures Bound(f.sw)
  {
  }

  /** Where a switch resumes. */
  lemma ResumedStages(f: Frame, r: Ret)
    requires f.SwitchFrame? && Awaits(f).Some?
    ensures var g := Resume(f, r);
            && g == f.(sw := g.sw)
            && (!Handover.Compared(f.sw) ==> !Handover.Compared(g.sw))
            && (Handover.Compared(f.sw) ==>
                  Handover.Compared(g.sw) && (SourceStopped(g.sw) <==> SourceStopped(f.sw) || Succeeded(r)))
  {
    hide Succeeded;
  }

  /** The awaited stop never opens the source, and the awaited activation leaves it alone. */
  lemma AwaitedOpens(s: State, t: Tid, i: nat, c: Choice)
    requires Inv(s) && |Stack(s, t)| == i + 2 && Stack(s, t)[i].SwitchFrame? && Handover.Compared(Stack(s, t)[i].sw)
    requires Awaits(Stack(s, t)[i]).Some? && Stack(s, t)[i].source != Stack(s, t)[i].target
    requires var f := Stack(s, t)[i + 1];
             f.PrimFrame? && f.op == Awaits(Stack(s, t)[i]).value.0 && f.name == Awaits(Stack(s, t)[i]).value.1
             && PrimOk(s, t, i + 1, f) && Stack(s, t)[i].source in s.cells
    ensures var f, a := Stack(s, t)[i], Run(t, c);
            && !Opens(s, a, f.source)
            && (SourceStopped(f.sw) ==> !Shuts(s, a, f.source))
            && (!SourceStopped(f.sw) ==> !Opens(s, a, f.target))
            && (!SourceStopped(f.sw) ==> forall r | Returning(Top(s, t), r) && Succeeded(r) :: In(s, f.source, INACTIVE))
  {
    hide Inv, Refuses;
  }

  lemma GatesTellStep(s: State, a: Action, t: Tid, i: nat, was: bool)
    requires Inv(s) && Enabled(s, a) && GatesTell(s, t, i, was)
    ensures GatesTell(Next(s, a), t, i, StaysReopened(s, a, t, i, was))
  {
    hide Inv, RunPrim, RunSwitch, RunReload, RunClose, CanRun, GatesTell, StaysReopened, Awaits, Lendable;
    if i >= |Stack(s, t)| || !Stack(s, t)[i].SwitchFrame? {
      NoneAppears(s, a, t, i);
      NoneSwitching(Next(s, a), t, i, StaysReopened(s, a, t, i, was));
    } else if a.Run? && a.t == t && !Nested(Stack(s, t), i) {
      if |Stack(s, t)| == i + 1 {
        SwitchGatesStep(s, t, i, a.choice, was);
      } else {
        SwitchAwaits(s, t, i);
        AwaitedGates(s, t, i, a.choice, was);
      }
    } else if a.Run? && a.t == t {
      NestedGates(s, a, t, i, was);
    } else {
      OthersLeaveGates(s, a, t, i, was);
    }
  }

  lemma NoneSwitching(s: State, t: Tid, i: nat, was: bool)
    requires Approaches(s, t, i)
    ensures GatesTell(s, t, i, was)
  {
  }

  lemma {:induction false} RunTellsGates(s: State, run: seq<Action>, t: Tid, i: nat, was: bool)
    requires Inv(s) && Protocol.Legal(s, run) && GatesTell(s, t, i, was)
    ensures GatesTell(After(s, run), t, i, Reopened(s, run, t, i, was))
    decreases |run|
  {
    hide Inv, Next, Enabled, GatesTell, StaysReopened;
    if run != [] {
      GatesTellStep(s, run[0], t, i, was);
      NextKeeps(s, run[0]);
      RunTellsGates(Next(s, run[0]), run[1..], t, i, StaysReopened(s, run[0], t, i, was));
    }
  }

  /**
   * In every run, while a switch has found its target inactive and has not returned,
   * both its gates are open exactly if the target's is and an operation nested in the
   * switch has opened the source again after the stop, with nothing begun on it since.
   */
  lemma BothOpenIff(run: seq<Action>, t: Tid, i: nat)
    requires Protocol.Legal(Init, run) && Switching(After(Init, run), t, i)
    ensures var s := After(Init, run);
            var f := Stack(s, t)[i];
            && f.source in s.cells && f.target in s.cells
            && (s.cells[f.source].e.gate && s.cells[f.target].e.gate <==>
                  SourceStopped(f.sw) && s.cells[f.target].e.gate && Reopened(Init, run, t, i, false))
  {
    hide Inv, After, Protocol.Legal, Reopened;
    InitInv();
    RunTellsGates(Init, run, t, i, false);
    Reachable(run);
    SwitchOwns(After(Init, run), t, i);
  }
}
