/** The order in which a concurrent close unloads its entries, and what a reload has done before it refreshes. */
module CloseOrder {
  import opened Lifecycle
  import opened Names
  import opened Entries
  import opened Protocol
  import opened Invariant
  import opened Calls
  import opened PrimSteps
  import opened AllSteps
  import opened Effects
  import opened Turns
  import opened Handover

  // --------------------------------------------------------- the creation order

  predicate Distinct(names: seq<Name>) {
    forall i, j | 0 <= i < j < |names| :: names[i] != names[j]
  }

  /** Nothing but the look-up of a load adds an entry, and only a close starts closing. */
  predicate SameOrder(s: State, s': State) {
    s'.order == s.order && s'.closing == s.closing
  }

  lemma StageOrder(s: State, t: Tid, stage: Stage)
    requires Stack(s, t) != [] && Top(s, t).PrimFrame?
    ensures SameOrder(s, ToStage(s, t, stage))
  {
  }

  lemma StartOrder(s: State, t: Tid, k: Callback)
    requires Stack(s, t) != [] && Top(s, t).PrimFrame? && Top(s, t).name in s.cells
    ensures SameOrder(s, StartCallback(s, t, k))
  {
  }

  lemma BeginOrder(s: State, t: Tid)
    requires Inside(s, t)
    ensures SameOrder(s, RunBegin(s, t))
  {
    hide StartCallback, ToStage, RunBegin, BegunEntry, BegunCallback, BegunStage, Refuses, Allowed;
    var e', frame, stage, k := BeginForm(s, t);
    var mid := WithEntry(s, Top(s, t).name, e', frame);
    if k.Some? {
      StartOrder(mid, t, k.value);
    } else {
      StageOrder(mid, t, stage);
    }
  }

  lemma CallbackOrder(s: State, t: Tid, c: Choice)
    requires Inside(s, t) && Top(s, t).stage.Running?
    ensures SameOrder(s, RunCallback(s, t, c))
  {
    hide StartCallback, ToStage, Perform, Settle;
    forall mid: State, k | Stack(mid, t) == Stack(s, t) && Top(s, t).name in mid.cells
      ensures SameOrder(mid, StartCallback(mid, t, k))
    {
      StartOrder(mid, t, k);
    }
    forall mid: State, stage | Stack(mid, t) == Stack(s, t) ensures SameOrder(mid, ToStage(mid, t, stage)) {
      StageOrder(mid, t, stage);
    }
  }

  lemma DrainOrder(s: State, t: Tid)
    requires Inside(s, t)
    ensures SameOrder(s, RunDrain(s, t))
  {
    hide StartCallback, ToStage;
    forall k ensures SameOrder(s, StartCallback(s, t, k)) {
      StartOrder(s, t, k);
    }
    forall stage ensures SameOrder(s, ToStage(s, t, stage)) {
      StageOrder(s, t, stage);
    }
  }

  /** What the step of a single operation does to the order. */
  lemma PrimOrder(s: State, t: Tid, c: Choice)
    requires Inv(s) && CanRun(s, t, c) && Top(s, t).PrimFrame?
    ensures var s', n := RunPrim(s, t, c), Top(s, t).name;
            || SameOrder(s, s')
            || (n !in s.cells && !s.closing && !s'.closing && s'.order == s.order + [n])
  {
    hide Inv, RunCheck, RunBegin, RunBuilding, RunDrain, RunCallback, Return, CellOk, FrameOk, ToStage;
    forall stage ensures SameOrder(s, ToStage(s, t, stage)) {
      StageOrder(s, t, stage);
    }
    if Top(s, t).stage.Lookup? {
      LookupOrder(s, t);
    } else {
      InsideFacts(s, t);
      match Top(s, t).stage {
        case Acquire => StageOrder(Lock(s, t, Top(s, t).name), t, AfterAcquire(Top(s, t).op));
        case Check => CheckOrder(s, t);
        case Begin => BeginOrder(s, t);
        case Building => BuildingOrder(s, t, c);
        case Drain => DrainOrder(s, t);
        case Running(_) => CallbackOrder(s, t, c);
        case Finishing(to, ok, x) => FinishOrder(s, t);
        case Leaving(r) => ReturnSame(s, t, r);
        case _ =>
      }
    }
  }

  function AfterAcquire(op: Prim): Stage {
    if op.Activate? || op.Deactivate? || op.Cleanup? then Check else Stage.Begin
  }

  lemma CheckOrder(s: State, t: Tid)
    requires Inside(s, t)
    ensures SameOrder(s, RunCheck(s, t))
  {
  }

  lemma BuildingOrder(s: State, t: Tid, c: Choice)
    requires Inside(s, t)
    ensures SameOrder(s, RunBuilding(s, t, c))
  {
  }

  lemma FinishOrder(s: State, t: Tid)
    requires Inside(s, t) && Top(s, t).stage.Finishing?
    ensures var f := Top(s, t);
            SameOrder(s, ToStage(SetEntry(s, f.name, Finish(s.cells[f.name].e, f.stage.to, f.stage.ok)), t,
              Leaving(Ret(f.stage.ok, if f.stage.ok then f.stage.exported else None))))
  {
  }

  lemma LookupOrder(s: State, t: Tid)
    requires Stack(s, t) != [] && Top(s, t).PrimFrame?
    ensures var s', n := RunLookup(s, t), Top(s, t).name;
            || SameOrder(s, s')
            || (n !in s.cells && !s.closing && !s'.closing && s'.order == s.order + [n])
  {
    hide Return;
    ReturnSame(s, t, Raised);
    ReturnSame(s, t, Ret(false, None));
  }

  lemma SwitchOrder(s: State, t: Tid)
    requires Stack(s, t) != [] && Top(s, t).SwitchFrame?
    ensures SameOrder(s, RunSwitch(s, t))
  {
    hide Return, RootClass;
    forall r ensures SameOrder(s, Return(s, t, r)) {
      ReturnSame(s, t, r);
    }
  }

  lemma ReloadOrder(s: State, t: Tid, c: Choice)
    requires Stack(s, t) != [] && Top(s, t).ReloadFrame?
    ensures SameOrder(s, RunReload(s, t, c))
  {
    hide Return;
    forall r ensures SameOrder(s, Return(s, t, r)) {
      ReturnSame(s, t, r);
    }
  }

  lemma CloseKeepsOrder(s: State, t: Tid)
    requires Stack(s, t) != [] && Top(s, t).CloseFrame?
    ensures RunClose(s, t).order == s.order && (s.closing ==> RunClose(s, t).closing)
  {
    hide Return;
    forall r ensures SameOrder(s, Return(s, t, r)) {
      ReturnSame(s, t, r);
    }
  }

  /** Entries are only added at the end, each once, and none is added while the manager is closing. */
  lemma OrderStep(s: State, a: Action)
    requires Inv(s) && Enabled(s, a) && Distinct(s.order)
    ensures s.order <= Next(s, a).order && Distinct(Next(s, a).order)
    ensures s.closing ==> Next(s, a).closing && Next(s, a).order == s.order
  {
    hide CellOk, FrameOk, CanRun, RunPrim, RunSwitch, RunReload, RunClose, Return;
    if a.Run? {
      HasTop(s, a);
      match Top(s, a.t) {
        case PrimFrame(_, _, _) => PrimOrder(s, a.t, a.choice);
        case SwitchFrame(_, _, _, _, _) => SwitchOrder(s, a.t);
        case ReloadFrame(_, _, _, _, _, _, _, _) => ReloadOrder(s, a.t, a.choice);
        case CloseFrame(_, _, _, _) => CloseKeepsOrder(s, a.t);
      }
    }
  }

  lemma {:induction false} OrderIsDistinct(s: State, run: seq<Action>)
    requires Inv(s) && Distinct(s.order) && Protocol.Legal(s, run)
    ensures Distinct(After(s, run).order)
    decreases |run|
  {
    hide Inv, Next, Enabled, Distinct;
    if run != [] {
      OrderStep(s, run[0]);
      NextKeeps(s, run[0]);
      OrderIsDistinct(Next(s, run[0]), run[1..]);
    }
  }

  /** While the manager is closing no entry is added. */
  lemma ClosingStays(s: State, a: Action)
    requires Inv(s) && Enabled(s, a) && s.closing
    ensures Next(s, a).closing && Next(s, a).order == s.order
  {
    hide CellOk, FrameOk, CanRun, RunPrim, RunSwitch, RunReload, RunClose, Return;
    if a.Run? {
      HasTop(s, a);
      match Top(s, a.t) {
        case PrimFrame(_, _, _) => PrimOrder(s, a.t, a.choice);
        case SwitchFrame(_, _, _, _, _) => SwitchOrder(s, a.t);
        case ReloadFrame(_, _, _, _, _, _, _, _) => ReloadOrder(s, a.t, a.choice);
        case CloseFrame(_, _, _, _) => CloseKeepsOrder(s, a.t);
      }
    }
  }

  // ---------------------------------------------------------------- a refresh

  /**
   * A refresh begins exactly when the unload before it returns with success: the entry is
   * unloaded then, and holds no context.
   */
  lemma RefreshFollowsUnload(s: State, a: Action, t: Tid, i: nat)
    requires Inv(s) && Enabled(s, a) && i < |Stack(Next(s, a), t)| && Refreshing(Stack(Next(s, a), t)[i])
    requires i < |Stack(s, t)| ==> !Refreshing(Stack(s, t)[i])
    ensures a == Run(t, a.choice) && |Stack(s, t)| == i + 2
    ensures var f, n := Top(s, t), Stack(Next(s, a), t)[i].name;
            && f.PrimFrame? && f.op.Unload? && f.name == n && f.stage.Leaving? && Succeeded(f.stage.ret)
            && n in s.cells && s.cells[n].e.state.UNLOADED? && s.cells[n].e.context.None? && s.cells[n].e.transition.None?
  {
    hide Inv, RunPrim, RunSwitch, RunReload, RunClose, Calm, Lendable, Returning;
    if a.Run? && a.t == t {
      HasTop(s, a);
      var turn := RunTurns(s, t, a.choice);
      RefreshTurns(s, t, turn, i);
    } else {
      OthersRefreshNot(s, a, t, i);
    }
  }

  lemma OthersRefreshNot(s: State, a: Action, t: Tid, i: nat)
    requires Inv(s) && Enabled(s, a) && !(a.Run? && a.t == t)
    requires i < |Stack(Next(s, a), t)| && Refreshing(Stack(Next(s, a), t)[i])
    ensures i < |Stack(s, t)| && Refreshing(Stack(s, t)[i])
  {
    hide Inv, RunPrim, RunSwitch, RunReload, RunClose, Lendable;
    if a.StartOp? && a.t == t {
      assert Stack(Next(s, a), t) == Stack(s, t) + [a.f];
    } else {
      OtherStacks(s, a, t);
    }
  }

  lemma RefreshTurns(s: State, t: Tid, turn: Turn, i: nat)
    requires Inv(s) && Stack(s, t) != [] && MayTurn(Top(s, t), turn) && i < |Turned(Stack(s, t), turn)|
    requires Refreshing(Turned(Stack(s, t), turn)[i]) && (i < |Stack(s, t)| ==> !Refreshing(Stack(s, t)[i]))
    ensures |Stack(s, t)| == i + 2
    ensures var f, n := Top(s, t), Turned(Stack(s, t), turn)[i].name;
            && f.PrimFrame? && f.op.Unload? && f.name == n && f.stage.Leaving? && Succeeded(f.stage.ret)
            && n in s.cells && s.cells[n].e.state.UNLOADED? && s.cells[n].e.context.None? && s.cells[n].e.transition.None?
  {
    hide CellOk, Unwind, Underway, Before;
    var stack := Stack(s, t);
    if turn.GoBack? {
      UnwindLength(stack, turn.r);
      UnwindAt(stack, turn.r, i);
      assert FrameOk(s, t, i) && FrameOk(s, t, i + 1);
    }
  }
}
