/** Which entries a step can change, and how. */
module Effects {
  import opened Lifecycle
  import opened Names
  import opened Entries
  import opened Protocol
  import opened Invariant
  import opened Preservation
  import opened Calls
  import opened PrimSteps
  import opened AllSteps

  // ------------------------------------------------- steps that change no entry

  /** Locks and stacks moved; entries and contexts did not. */
  predicate Idle(s: State, s': State) {
    && (forall n | n in s.cells :: n in s'.cells && s'.cells[n].e == s.cells[n].e && s'.cells[n].built == s.cells[n].built)
    && s'.contexts == s.contexts && s'.next == s.next && s'.loans == s.loans
    && s'.closing == s.closing && s'.closedOk == s.closedOk
  }

  lemma ReturnIdle(s: State, t: Tid, r: Ret)
    requires Stack(s, t) != []
    ensures Idle(s, Return(s, t, r))
  {
    hide Return;
    ReturnSame(s, t, r);
    forall n | n in s.cells
      ensures n in Return(s, t, r).cells && Return(s, t, r).cells[n].e == s.cells[n].e
        && Return(s, t, r).cells[n].built == s.cells[n].built
    {
      ReturnCells(s, t, r, n);
    }
  }

  lemma LockIdle(s: State, t: Tid, n: Name)
    requires n in s.cells
    ensures Idle(s, Lock(s, t, n)) && Stack(Lock(s, t, n), t) == Stack(s, t)
  {
  }

  lemma TopIdle(s: State, t: Tid, f: Frame)
    requires Stack(s, t) != []
    ensures Idle(s, SetTop(s, t, f))
  {
  }

  lemma PushIdle(s: State, t: Tid, f: Frame)
    ensures Idle(s, Push(s, t, f))
  {
  }

  lemma IdleTransitive(a: State, b: State, c: State)
    requires Idle(a, b) && Idle(b, c)
    ensures Idle(a, c)
  {
  }

  lemma SwitchIdle(s: State, t: Tid)
    requires Stack(s, t) != [] && Top(s, t).SwitchFrame?
    ensures Idle(s, RunSwitch(s, t))
  {
    hide Return, Idle, Before, RootClass, SetTop, Push, Lock;
    var f := Top(s, t);
    assert Idle(s, s) by { SelfIdle(s); }
    ReturnIdle(s, t, Ret(false, None));
    ReturnIdle(s, t, Raised);
    if f.sw.SLeaving? {
      ReturnIdle(s, t, f.sw.ret);
    }
    forall sw ensures Idle(s, ToSwitch(s, t, sw)) {
      TopIdle(s, t, f.(sw := sw));
    }
    forall sw | Awaits(f.(sw := sw)).Some? ensures Idle(s, AwaitSwitch(s, t, sw)) {
      AwaitSwitchIdle(s, t, sw);
    }
    if f.sw.SFirst? && FirstLock(f.source, f.target) in s.cells {
      LockSwitchIdle(s, t, FirstLock(f.source, f.target), SSecond);
    }
    if f.sw.SSecond? && SecondLock(f.source, f.target) in s.cells {
      LockSwitchIdle(s, t, SecondLock(f.source, f.target), SGuard);
    }
  }

  lemma SelfIdle(s: State)
    ensures Idle(s, s)
  {
  }

  lemma AwaitSwitchIdle(s: State, t: Tid, sw: SwitchStage)
    requires Stack(s, t) != [] && Top(s, t).SwitchFrame? && Awaits(Top(s, t).(sw := sw)).Some?
    ensures Idle(s, AwaitSwitch(s, t, sw))
  {
    hide SetTop, Push, Idle;
    var (op, n) := Awaits(Top(s, t).(sw := sw)).value;
    TopIdle(s, t, Top(s, t).(sw := sw));
    PushIdle(ToSwitch(s, t, sw), t, PrimFrame(op, n, Lookup));
    IdleTransitive(s, ToSwitch(s, t, sw), AwaitSwitch(s, t, sw));
  }

  lemma LockSwitchIdle(s: State, t: Tid, n: Name, sw: SwitchStage)
    requires Stack(s, t) != [] && Top(s, t).SwitchFrame? && n in s.cells
    ensures Stack(Lock(s, t, n), t) == Stack(s, t) && Idle(s, ToSwitch(Lock(s, t, n), t, sw))
  {
    LockIdle(s, t, n);
    TopIdle(Lock(s, t, n), t, Top(s, t).(sw := sw));
    IdleTransitive(s, Lock(s, t, n), ToSwitch(Lock(s, t, n), t, sw));
  }

  lemma AwaitReloadIdle(s: State, t: Tid, f: Frame)
    requires Stack(s, t) != [] && Awaits(f).Some?
    ensures Idle(s, Await(s, t, f))
  {
    hide SetTop, Push, Idle;
    var (op, n) := Awaits(f).value;
    TopIdle(s, t, f);
    PushIdle(SetTop(s, t, f), t, PrimFrame(op, n, Lookup));
    IdleTransitive(s, SetTop(s, t, f), Await(s, t, f));
  }

  /** A reload itself changes an entry only when its refresh failed. */
  lemma ReloadIdle(s: State, t: Tid, c: Choice)
    requires Stack(s, t) != [] && Top(s, t).ReloadFrame?
    requires Top(s, t).rl.RRefreshing? ==> c.refreshed || Top(s, t).name !in s.cells
    ensures Idle(s, RunReload(s, t, c))
  {
    hide Idle, RunReload, Continued, Awaits;
    var f := Top(s, t);
    if Continues(f.rl) && f.name in s.cells {
      ReloadForm(s, t, c);
      var g := Continued(f, s.cells[f.name].e);
      TopIdle(s, t, g);
      if Awaits(g).Some? {
        AwaitReloadIdle(s, t, g);
      }
    } else {
      ReloadStepIdle(s, t, c);
    }
  }

  lemma ReloadStepIdle(s: State, t: Tid, c: Choice)
    requires Stack(s, t) != [] && Top(s, t).ReloadFrame?
    requires Top(s, t).rl.RRefreshing? ==> c.refreshed || Top(s, t).name !in s.cells
    requires Continues(Top(s, t).rl) ==> Top(s, t).name !in s.cells
    ensures Idle(s, RunReload(s, t, c))
  {
    hide Return, Idle, SetTop, Await, Lock, SetEntry;
    var f := Top(s, t);
    SelfIdle(s);
    match f.rl {
      case RLookup => ReturnIdle(s, t, Raised); TopIdle(s, t, f.(rl := RAcquire));
      case RAcquire =>
        if f.name in s.cells {
          LockIdle(s, t, f.name);
          TopIdle(Lock(s, t, f.name), t, f.(rl := RStart));
          IdleTransitive(s, Lock(s, t, f.name), SetTop(Lock(s, t, f.name), t, f.(rl := RStart)));
        }
      case RRefreshing => TopIdle(s, t, f.(rl := RLoad));
      case RLeaving(r) => ReturnIdle(s, t, r);
      case _ =>
    }
  }

  /** Closing changes no entry, and is never taken back. */
  lemma CloseIdle(s: State, t: Tid)
    requires Stack(s, t) != [] && Top(s, t).CloseFrame?
    ensures var s' := RunClose(s, t);
            Idle(s.(closing := s'.closing, closedOk := s'.closedOk), s')
            && (s.closing ==> s'.closing) && (s.closedOk ==> s'.closedOk)
  {
    hide Return, Await;
    ReturnIdle(s, t, Ret(false, None));
    ReturnIdle(s, t, Ret(Top(s, t).ok, None));
    if Top(s, t).cl.CNext? && Top(s, t).todo != [] {
      AwaitReloadIdle(s, t, Top(s, t).(cl := CUnloading));
    }
  }

  // --------------------------------------------- single operations are local

  /** At most entry `n` and the contexts built for it changed. */
  predicate Local(s: State, s': State, n: Name) {
    && s'.closing == s.closing && s'.closedOk == s.closedOk && s'.loans == s.loans
    && (forall m | m in s.cells :: m in s'.cells)
    && (forall m | m in s.cells && m != n :: s'.cells[m].e == s.cells[m].e && s'.cells[m].built == s.cells[m].built)
    && (forall c | c in s.contexts && s.contexts[c].home != n :: c in s'.contexts && s'.contexts[c] == s.contexts[c])
  }

  lemma IdleLocal(s: State, s': State, n: Name)
    requires Idle(s, s')
    ensures Local(s, s', n)
  {
  }

  lemma LocalTransitive(a: State, b: State, c: State, n: Name)
    requires Local(a, b, n) && Local(b, c, n)
    ensures Local(a, c, n)
  {
  }

  lemma CellLocal(s: State, n: Name, cell: Cell)
    requires n in s.cells
    ensures Local(s, s.(cells := s.cells[n := cell]), n)
  {
  }

  lemma StageIdle(s: State, t: Tid, stage: Stage)
    requires Stack(s, t) != [] && Top(s, t).PrimFrame?
    ensures Idle(s, ToStage(s, t, stage)) && ToStage(s, t, stage).cells == s.cells
    ensures Stack(ToStage(s, t, stage), t) != [] && Top(ToStage(s, t, stage), t) == Top(s, t).(stage := stage)
  {
  }

  /** The context of the entry, if any, was built for it. */
  predicate AtHome(s: State, n: Name)
    requires n in s.cells
  {
    var id := s.cells[n].e.context;
    id.Some? && id.value in s.contexts ==> s.contexts[id.value].home == n
  }

  lemma StartLocal(s: State, t: Tid, k: Callback)
    requires Stack(s, t) != [] && Top(s, t).PrimFrame? && Top(s, t).name in s.cells && AtHome(s, Top(s, t).name)
    ensures Local(s, StartCallback(s, t, k), Top(s, t).name)
    ensures StartCallback(s, t, k).cells == s.cells
    ensures forall c | c in s.contexts ::
              && c in StartCallback(s, t, k).contexts && StartCallback(s, t, k).contexts[c].tree == s.contexts[c].tree
              && StartCallback(s, t, k).contexts[c].home == s.contexts[c].home
  {
  }

  lemma BeginLocal(s: State, t: Tid)
    requires Inside(s, t) && AtHome(s, Top(s, t).name)
    ensures Local(s, RunBegin(s, t), Top(s, t).name)
  {
    hide Local, Refuses, StartCallback, ToStage, Allowed, RunBegin, BegunEntry, BegunCallback, BegunStage;
    var f, n := Top(s, t), Top(s, t).name;
    var e := s.cells[n].e;
    if Refuses(e, t, s.closing, Allowed(f.op), f.op.Unload?) {
      RefusedForm(s, t);
      CellLocal(s, n, s.cells[n].(e := Reject(e), frame := s.cells[n].frame));
      ThenStage(s, WithEntry(s, n, Reject(e), s.cells[n].frame), t, n, Leaving(Ret(false, None)));
    } else {
      BegunForm(s, t);
      BegunContext(f.op, e, t);
      var e', frame := BegunEntry(f.op, e, t), |Stack(s, t)| - 1;
      var k := BegunCallback(f.op, e);
      CellLocal(s, n, s.cells[n].(e := e', frame := frame));
      if k.Some? {
        ThenStart(s, WithEntry(s, n, e', frame), t, n, k.value);
      } else {
        ThenStage(s, WithEntry(s, n, e', frame), t, n, BegunStage(f.op, e'));
      }
    }
  }

  lemma BegunContext(op: Prim, e: Entry, t: Tid)
    ensures BegunEntry(op, e, t).context == e.context
  {
  }

  lemma ThenStage(s: State, mid: State, t: Tid, n: Name, stage: Stage)
    requires Local(s, mid, n) && Stack(mid, t) != [] && Top(mid, t).PrimFrame?
    ensures Local(s, ToStage(mid, t, stage), n)
  {
    hide Idle, Local, ToStage;
    StageIdle(mid, t, stage);
    IdleLocal(mid, ToStage(mid, t, stage), n);
    LocalTransitive(s, mid, ToStage(mid, t, stage), n);
  }

  lemma ThenStart(s: State, mid: State, t: Tid, n: Name, k: Callback)
    requires Local(s, mid, n) && Stack(mid, t) != [] && Top(mid, t).PrimFrame? && Top(mid, t).name == n
    requires n in mid.cells && AtHome(mid, n)
    ensures Local(s, StartCallback(mid, t, k), n)
  {
    hide Local, StartCallback;
    StartLocal(mid, t, k);
    LocalTransitive(s, mid, StartCallback(mid, t, k), n);
  }

  lemma BuildingLocal(s: State, t: Tid, c: Choice)
    requires Inside(s, t) && s.next !in s.contexts
    ensures Local(s, RunBuilding(s, t, c), Top(s, t).name)
  {
    hide Local, ToStage;
    var f := Top(s, t);
    var cell := s.cells[f.name];
    assert Local(s, s, f.name) by { SelfIdle(s); IdleLocal(s, s, f.name); }
    ThenStage(s, s, t, f.name, Finishing(ERROR, false, None));
    if c.built.Some? {
      var e := cell.e.(context := Some(s.next), generation := cell.e.generation + 1,
        configured := false, mayBeActive := false);
      var s' := s.(
        cells := s.cells[f.name := cell.(e := e, built := cell.built + [s.next])],
        contexts := s.contexts[s.next := Context(f.name, c.built.value, [])],
        next := s.next + 1);
      assert Local(s, s', f.name) by { NewLocal(s, s', f.name); }
      ThenStage(s, s', t, f.name, Finishing(UNCONFIGURED, true, None));
    }
  }

  lemma NewLocal(s: State, s': State, n: Name)
    requires n in s.cells && n in s'.cells && s.next !in s.contexts && s.next in s'.contexts
    requires s' == s.(cells := s.cells[n := s'.cells[n]],
      contexts := s.contexts[s.next := s'.contexts[s.next]], next := s'.next)
    ensures Local(s, s', n)
  {
  }

  lemma DrainLocal(s: State, t: Tid)
    requires Inside(s, t) && AtHome(s, Top(s, t).name)
    ensures Local(s, RunDrain(s, t), Top(s, t).name) && RunDrain(s, t).cells == s.cells
  {
    hide Local, ToStage, StartCallback;
    SelfIdle(s);
    IdleLocal(s, s, Top(s, t).name);
    forall stage ensures Local(s, ToStage(s, t, stage), Top(s, t).name) && ToStage(s, t, stage).cells == s.cells {
      ThenStage(s, s, t, Top(s, t).name, stage);
      StageIdle(s, t, stage);
    }
    forall k ensures Local(s, StartCallback(s, t, k), Top(s, t).name) && StartCallback(s, t, k).cells == s.cells {
      StartLocal(s, t, k);
    }
  }

  /** The state in which a callback has ended, before its operation moves on. */
  function Ended(s: State, t: Tid, o: Outside): State
    requires Inside(s, t) && Top(s, t).stage.Running?
    requires var e := s.cells[Top(s, t).name].e; e.context.Some? && e.context.value in s.contexts
  {
    var f := Top(s, t);
    var k := f.stage.callback;
    var cell := s.cells[f.name];
    var x := s.contexts[cell.e.context.value];
    var r := Perform(o, k, x.tree, if f.op.Activate? then f.op.state else None);
    s.(cells := s.cells[f.name := cell.(e := Settle(cell.e, k, r.error.None?))],
       contexts := s.contexts[cell.e.context.value := EndedContext(x, k, o.history, r)])
  }

  /** The entry and the context after a callback has ended. */
  lemma CallbackEffect(s: State, t: Tid, c: Choice)
    requires Inside(s, t) && Top(s, t).stage.Running?
    requires var e := s.cells[Top(s, t).name].e;
             e.context.Some? && e.context.value in s.contexts && s.contexts[e.context.value].home == Top(s, t).name
    ensures var f := Top(s, t);
            var e := s.cells[f.name].e;
            var k := f.stage.callback;
            var s' := RunCallback(s, t, c);
            var r := Perform(c.outside, k, s.contexts[e.context.value].tree, if f.op.Activate? then f.op.state else None);
            && Local(s, s', f.name)
            && s'.cells == s.cells[f.name := s.cells[f.name].(e := Settle(e, k, r.error.None?))]
            && e.context.value in s'.contexts && s'.contexts[e.context.value].tree == r.tree
            && s'.contexts[e.context.value].home == f.name
  {
    hide Perform, Local, StartCallback, ToStage;
    var f := Top(s, t);
    var mid := Ended(s, t, c.outside);
    EndedLocal(s, t, c.outside);
    forall stage ensures Local(s, ToStage(mid, t, stage), f.name) && ToStage(mid, t, stage).cells == mid.cells
      && ToStage(mid, t, stage).contexts == mid.contexts
    {
      ThenStage(s, mid, t, f.name, stage);
      StageIdle(mid, t, stage);
    }
    forall k ensures Local(s, StartCallback(mid, t, k), f.name) && StartCallback(mid, t, k).cells == mid.cells
      && forall d | d in mid.contexts ::
        && d in StartCallback(mid, t, k).contexts && StartCallback(mid, t, k).contexts[d].tree == mid.contexts[d].tree
        && StartCallback(mid, t, k).contexts[d].home == mid.contexts[d].home
    {
      ThenStart(s, mid, t, f.name, k);
      StartLocal(mid, t, k);
    }
  }

  lemma EndedLocal(s: State, t: Tid, o: Outside)
    requires Inside(s, t) && Top(s, t).stage.Running?
    requires var e := s.cells[Top(s, t).name].e;
             e.context.Some? && e.context.value in s.contexts && s.contexts[e.context.value].home == Top(s, t).name
    ensures Local(s, Ended(s, t, o), Top(s, t).name) && Stack(Ended(s, t, o), t) == Stack(s, t)
    ensures AtHome(Ended(s, t, o), Top(s, t).name)
  {
    hide Perform;
  }

  // ----------------------------------------------------------------- any step

  /** The innermost activation of `t` is an operation under way on `n`, or may become one. */
  predicate Acts(s: State, t: Tid, n: Name)
    requires n in s.cells
  {
    && Stack(s, t) != []
    && var f := Top(s, t);
    || Begun(f, n)
    || (f.PrimFrame? && f.name == n && f.stage.Begin? && s.cells[n].e.transition.None?)
    || (f.ReloadFrame? && f.name == n && f.rl.RRefreshing?)
  }

  /** Nothing but the last result and the calls in flight changed. */
  predicate Undisturbed(e: Entry, e': Entry) {
    e' == e.(lastOk := e'.lastOk, inFlight := e'.inFlight, callers := e'.callers)
  }

  /** Everything that operations on `n` work on is as before. */
  predicate Left(s: State, s': State, n: Name)
    requires n in s.cells
  {
    && n in s'.cells && Undisturbed(s.cells[n].e, s'.cells[n].e) && s'.cells[n].built == s.cells[n].built
    && (forall c | c in s.contexts && s.contexts[c].home == n :: c in s'.contexts && s'.contexts[c] == s.contexts[c])
  }

  lemma IdleLeft(s: State, s': State, n: Name)
    requires Idle(s, s') && n in s.cells
    ensures Left(s, s', n)
  {
  }

  lemma LocalLeft(s: State, s': State, m: Name, n: Name)
    requires Local(s, s', m) && m != n && n in s.cells
    ensures Left(s, s', n)
  {
  }

  /** A step by an activation that does not act on an entry leaves it alone. */
  lemma NotActing(s: State, a: Action, n: Name)
    requires Inv(s) && Enabled(s, a) && n in s.cells
    requires a.Run? ==> !Acts(s, a.t, n)
    ensures Left(s, Next(s, a), n)
    ensures (s.closing ==> Next(s, a).closing) && (s.closedOk ==> Next(s, a).closedOk)
  {
    hide Inv, RunPrim, RunSwitch, RunReload, RunClose, Idle, Local, BuilderFree, CanLock, NewTree;
    if a.Run? {
      match Top(s, a.t) {
        case PrimFrame(_, _, _) => PrimNotActing(s, a.t, a.choice, n);
        case SwitchFrame(_, _, _, _, _) => SwitchIdle(s, a.t); IdleLeft(s, RunSwitch(s, a.t), n); IdleFlags(s, RunSwitch(s, a.t));
        case ReloadFrame(_, _, _, _, _, _, _, _) => ReloadNotActing(s, a.t, a.choice, n);
        case CloseFrame(_, _, _, _) =>
          CloseIdle(s, a.t);
          var s' := RunClose(s, a.t);
          IdleLeft(s.(closing := s'.closing, closedOk := s'.closedOk), s', n);
      }
    }
  }

  lemma IdleFlags(s: State, s': State)
    requires Idle(s, s')
    ensures s'.closing == s.closing && s'.closedOk == s.closedOk
  {
  }

  lemma ReloadNotActing(s: State, t: Tid, c: Choice, n: Name)
    requires Stack(s, t) != [] && Top(s, t).ReloadFrame? && n in s.cells && !Acts(s, t, n)
    ensures Left(s, RunReload(s, t, c), n)
    ensures RunReload(s, t, c).closing == s.closing && RunReload(s, t, c).closedOk == s.closedOk
  {
    var f := Top(s, t);
    if f.rl.RRefreshing? && !c.refreshed && f.name in s.cells {
      assert f.name != n;
    } else {
      hide Idle, RunReload;
      ReloadIdle(s, t, c);
      IdleLeft(s, RunReload(s, t, c), n);
      IdleFlags(s, RunReload(s, t, c));
    }
  }

  lemma PrimNotActing(s: State, t: Tid, c: Choice, n: Name)
    requires Inv(s) && CanRun(s, t, c) && Top(s, t).PrimFrame? && n in s.cells && !Acts(s, t, n)
    ensures Left(s, RunPrim(s, t, c), n)
    ensures RunPrim(s, t, c).closing == s.closing && RunPrim(s, t, c).closedOk == s.closedOk
  {
    hide Inv, RunLookup, RunCheck, RunBegin, RunBuilding, RunDrain, RunCallback, Return, Idle, Local, ToStage, CellOk, FrameOk;
    var f := Top(s, t);
    if f.stage.Lookup? {
      LookupLeft(s, t, n);
    } else {
      InsideFacts(s, t);
      CellFacts(s, f.name);
      match f.stage {
        case Acquire =>
          LockIdle(s, t, f.name);
          LockedStage(s, t, n, if f.op.Activate? || f.op.Deactivate? || f.op.Cleanup? then Check else Stage.Begin);
        case Check => CheckLeft(s, t, n);
        case Begin => BeginLeft(s, t, n);
        case WaitBuild => StageIdle(s, t, Building); IdleLeft(s, ToStage(s, t, Building), n); IdleFlags(s, ToStage(s, t, Building));
        case Building => NextIsFresh(s); BuildingLocal(s, t, c); LocalLeft(s, RunBuilding(s, t, c), f.name, n); LocalFlags(s, RunBuilding(s, t, c), f.name);
        case Drain => DrainLocal(s, t); LocalLeft(s, RunDrain(s, t), f.name, n); LocalFlags(s, RunDrain(s, t), f.name);
        case Running(_) => CallbackEffect(s, t, c); LocalLeft(s, RunCallback(s, t, c), f.name, n); LocalFlags(s, RunCallback(s, t, c), f.name);
        case Finishing(to, ok, exported) => FinishLeft(s, t, n);
        case Leaving(r) => ReturnIdle(s, t, r); IdleLeft(s, Return(s, t, r), n); IdleFlags(s, Return(s, t, r));
        case Lookup =>
      }
    }
  }

  lemma LocalFlags(s: State, s': State, n: Name)
    requires Local(s, s', n)
    ensures s'.closing == s.closing && s'.closedOk == s.closedOk
  {
  }

  lemma LockedStage(s: State, t: Tid, n: Name, stage: Stage)
    requires Stack(s, t) != [] && Top(s, t).PrimFrame? && Top(s, t).name in s.cells && n in s.cells
    ensures var locked := s.(cells := s.cells[Top(s, t).name := s.cells[Top(s, t).name].(owner := Some(t))]);
            && Left(s, ToStage(locked, t, stage), n)
            && ToStage(locked, t, stage).closing == s.closing && ToStage(locked, t, stage).closedOk == s.closedOk
  {
  }

  lemma LookupLeft(s: State, t: Tid, n: Name)
    requires Stack(s, t) != [] && Top(s, t).PrimFrame? && n in s.cells
    ensures Left(s, RunLookup(s, t), n)
    ensures RunLookup(s, t).closing == s.closing && RunLookup(s, t).closedOk == s.closedOk
  {
    hide Return, Idle;
    ReturnIdle(s, t, Raised);
    ReturnIdle(s, t, Ret(false, None));
    IdleLeft(s, Return(s, t, Raised), n);
    IdleLeft(s, Return(s, t, Ret(false, None)), n);
    IdleFlags(s, Return(s, t, Raised));
    IdleFlags(s, Return(s, t, Ret(false, None)));
  }

  lemma CheckLeft(s: State, t: Tid, n: Name)
    requires Inside(s, t) && n in s.cells
    ensures Left(s, RunCheck(s, t), n)
    ensures RunCheck(s, t).closing == s.closing && RunCheck(s, t).closedOk == s.closedOk
  {
    hide ToStage, Left;
    var m := Top(s, t).name;
    var rejected := SetEntry(s, m, Reject(s.cells[m].e));
    SelfLeft(s, n);
    RejectLeft(s, m, n);
    forall stage
      ensures Left(s, ToStage(s, t, stage), n)
      ensures ToStage(s, t, stage).closing == s.closing && ToStage(s, t, stage).closedOk == s.closedOk
    {
      StageLeft(s, s, t, stage, n);
    }
    StageLeft(s, rejected, t, Leaving(Ret(false, None)), n);
  }

  lemma SelfLeft(s: State, n: Name)
    requires n in s.cells
    ensures Left(s, s, n)
  {
  }

  lemma RejectLeft(s: State, m: Name, n: Name)
    requires n in s.cells && m in s.cells
    ensures Left(s, SetEntry(s, m, Reject(s.cells[m].e)), n)
  {
  }

  /** Going on to `stage` from `mid` leaves everything as it was in `s`. */
  lemma StageLeft(s: State, mid: State, t: Tid, stage: Stage, n: Name)
    requires Stack(mid, t) != [] && Top(mid, t).PrimFrame? && n in s.cells && Left(s, mid, n)
    requires mid.closing == s.closing && mid.closedOk == s.closedOk
    ensures var s' := ToStage(mid, t, stage);
            Left(s, s', n) && s'.closing == s.closing && s'.closedOk == s.closedOk
  {
  }

  lemma BeginLeft(s: State, t: Tid, n: Name)
    requires Inside(s, t) && AtHome(s, Top(s, t).name) && n in s.cells && Top(s, t).stage.Begin? && !Acts(s, t, n)
    ensures Left(s, RunBegin(s, t), n)
    ensures RunBegin(s, t).closing == s.closing && RunBegin(s, t).closedOk == s.closedOk
  {
    hide Local, StartCallback;
    BeginLocal(s, t);
    LocalFlags(s, RunBegin(s, t), Top(s, t).name);
    if Top(s, t).name != n {
      LocalLeft(s, RunBegin(s, t), Top(s, t).name, n);
    } else {
      assert Refuses(s.cells[n].e, t, s.closing, Allowed(Top(s, t).op), Top(s, t).op.Unload?);
    }
  }

  lemma FinishLeft(s: State, t: Tid, n: Name)
    requires Inside(s, t) && Top(s, t).stage.Finishing? && Top(s, t).name != n && n in s.cells
    ensures var f := Top(s, t);
            var s' := ToStage(SetEntry(s, f.name, Finish(s.cells[f.name].e, f.stage.to, f.stage.ok)), t,
              Leaving(Ret(f.stage.ok, if f.stage.ok then f.stage.exported else None)));
            Left(s, s', n) && s'.closing == s.closing && s'.closedOk == s.closedOk
  {
  }
}
