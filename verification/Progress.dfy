/**
 * Deadlock freedom of disciplined runs: whoever is blocked waits, through a
 * finite chain of other threads, for a thread that can take a step.
 */
module Progress {
  import opened Lifecycle
  import opened ContextTree
  import opened Names
  import opened Entries
  import opened Protocol
  import opened Invariant
  import opened Calls
  import opened PrimSteps
  import opened AllSteps
  import opened Effects
  import opened Turns
  import opened Discipline
  import opened PrimEffects

  /** The operation lock that the activation asks for next. */
  function Wanted(f: Frame): Option<Name> {
    match f
    case PrimFrame(_, n, stage) => if stage.Acquire? then Some(n) else None
    case SwitchFrame(a, b, _, _, sw) =>
      if sw.SFirst? then Some(FirstLock(a, b)) else if sw.SSecond? then Some(SecondLock(a, b)) else None
    case ReloadFrame(n, _, _, _, _, _, _, rl) => if rl.RAcquire? then Some(n) else None
    case CloseFrame(_, _, _, _) => None
  }

  predicate WaitsForLock(s: State, t: Tid, u: Tid) {
    && Stack(s, t) != [] && u != t
    && Wanted(Top(s, t)).Some? && Wanted(Top(s, t)).value in s.cells
    && s.cells[Wanted(Top(s, t)).value].owner == Some(u)
  }

  predicate WaitsForBuild(s: State, t: Tid, u: Tid) {
    && Stack(s, t) != [] && u != t
    && Top(s, t).PrimFrame? && Top(s, t).stage.WaitBuild? && BuildsIn(Stack(s, u))
  }

  predicate WaitsForCall(s: State, t: Tid, u: Tid) {
    && Stack(s, t) != []
    && Top(s, t).PrimFrame? && Top(s, t).stage.Drain? && Top(s, t).name in s.cells
    && Calling(s.cells[Top(s, t).name].e, u) > 0
  }

  /** Thread `t` cannot go on before `u` does. */
  predicate WaitsFor(s: State, t: Tid, u: Tid) {
    WaitsForLock(s, t, u) || WaitsForBuild(s, t, u) || WaitsForCall(s, t, u)
  }

  /** A step of `t` that ends a borrow or carries its operation forward, and changes the state. */
  ghost predicate Steps(s: State, t: Tid, a: Action) {
    && Enabled(s, a) && Disciplined(s, a) && a.t == t && (a.Run? || a.EndBorrow?)
    && Next(s, a) != s
  }

  // ------------------------------------------------------ every step is a change

  /** The stack of `t` is another one. */
  predicate Moved(s: State, s': State, t: Tid) {
    Stack(s', t) != Stack(s, t)
  }

  lemma PrimMoves(s: State, t: Tid, c: Choice)
    requires Inv(s) && CanRun(s, t, c) && Top(s, t).PrimFrame?
    ensures Moved(s, RunPrim(s, t, c), t)
  {
    hide Inv, Return, Moved, ToStage, RunCheck, RunBegin, RunBuilding, RunDrain, RunCallback, Restaged, Effect;
    var f := Top(s, t);
    if f.stage.Lookup? {
      ReturnMoves(s, t, Ret(false, None));
      ReturnMoves(s, t, Raised);
      AcquiringMoves(s, s, t);
      if f.name !in s.cells {
        AcquiringMoves(s, Created(s, f.name), t);
      }
    } else if f.stage.Leaving? {
      InsideFacts(s, t);
      ReturnMoves(s, t, f.stage.ret);
    } else {
      PrimHas(s, t, c);
      RestagedMoves(s, RunPrim(s, t, c), t);
    }
  }

  lemma ReturnMoves(s: State, t: Tid, r: Ret)
    requires Stack(s, t) != []
    ensures Moved(s, Return(s, t, r), t)
  {
    hide Return, Unwind;
    ReturnStacks(s, t, r, t);
    UnwindLength(Stack(s, t), r);
  }

  lemma AcquiringMoves(s: State, mid: State, t: Tid)
    requires Stack(s, t) != [] && Top(s, t).PrimFrame? && Top(s, t).stage.Lookup? && mid.stacks == s.stacks
    ensures Moved(s, ToStage(mid, t, Acquire), t)
  {
    assert Stack(ToStage(mid, t, Acquire), t)[|Stack(s, t)| - 1] == Top(s, t).(stage := Acquire);
  }

  lemma RestagedMoves(s: State, s': State, t: Tid)
    requires Stack(s, t) != [] && Top(s, t).PrimFrame? && Top(s, t).name in s.cells && HasEffect(s, s', t)
    ensures Moved(s, s', t)
  {
    hide Calm, Visits, Effect;
    var f := Top(s, t);
    EffectMoves(f.op, f.stage, Top(s', t).stage, s.cells[f.name].e, s'.cells[f.name].e, Visits(s, f.name), Visits(s', f.name));
  }

  /** A turn changes the stack, except that a single operation might stay where it is. */
  lemma TurnMoves(s: State, s': State, t: Tid, turn: Turn)
    requires TakesTurn(s, s', t, turn) && !Top(s, t).PrimFrame?
    ensures Moved(s, s', t)
  {
    hide Calm, Awaits, Returning, SameSite, Unwind;
    var k := |Stack(s, t)| - 1;
    match turn {
      case GoOn(g) => assert Stack(s', t)[k] == g;
      case Call(g) => assert |Stack(s', t)| == k + 2;
      case GoBack(r) => UnwindLength(Stack(s, t), r);
    }
  }

  /** No step of an operation leaves everything as it was. */
  lemma RunMoves(s: State, t: Tid, c: Choice)
    requires Inv(s) && CanRun(s, t, c)
    ensures Next(s, Run(t, c)) != s
  {
    hide Inv, RunPrim, RunSwitch, RunReload, RunClose, TakesTurn;
    if Top(s, t).PrimFrame? {
      PrimMoves(s, t, c);
    } else {
      var turn := RunTurns(s, t, c);
      TurnMoves(s, Next(s, Run(t, c)), t, turn);
    }
  }

  // ------------------------------------------------------- who waits for whom

  lemma GivesBack(s: State, t: Tid, n: Name)
    requires Inv(s) && n in s.cells && Calling(s.cells[n].e, t) > 0 && Tidy(s, t)
    ensures Steps(s, t, EndBorrow(t, n, t))
  {
    hide Inv, CellOk, Ranked;
    CellOf(s, n);
    CellFacts(s, n);
    GiveBackCounted(s.cells[n].e, t);
    assert !(Stack(s, t) != [] && !CallsOut(Top(s, t)));
    assert GiveBack(s.cells[n].e, t).inFlight != s.cells[n].e.inFlight;
    assert Next(s, EndBorrow(t, n, t)).cells[n].e != s.cells[n].e;
  }

  /** A thread that cannot step now waits for another thread. */
  lemma StepsOrWaits(s: State, t: Tid) returns (a: Action, u: Tid)
    requires Inv(s) && AllTidy(s) && Stack(s, t) != []
    ensures Steps(s, t, a) || WaitsFor(s, t, u)
  {
    hide Inv, CanRun, BuilderFree, CanLock, Next, Calm, BuildsIn, Ranked;
    a, u := Run(t, Plain), t;
    assert Tidy(s, t);
    if CallsOut(Top(s, t)) && !Free(s, t) {
      var n :| n in s.cells && Calling(s.cells[n].e, t) > 0;
      a := EndBorrow(t, n, t);
      GivesBack(s, t, n);
    } else if CanRun(s, t, Plain) {
      RunMoves(s, t, Plain);
    } else {
      u := Obstacle(s, t);
    }
  }

  lemma Obstacle(s: State, t: Tid) returns (u: Tid)
    requires Inv(s) && Stack(s, t) != [] && !CanRun(s, t, Plain)
    ensures WaitsFor(s, t, u)
  {
    hide Inv, CellOk, Before, BuildsIn;
    var f := Top(s, t);
    if Wanted(f).Some? {
      assert !CanLock(s, t, Wanted(f).value);
      u := s.cells[Wanted(f).value].owner.value;
    } else if f.stage.WaitBuild? {
      u :| u in s.stacks && u != t && BuildsIn(s.stacks[u]);
    } else {
      CellOf(s, f.name);
      CellFacts(s, f.name);
      u := SomeCaller(s.cells[f.name].e);
    }
  }

  /** A builder and a borrower can always step. */
  lemma HolderSteps(s: State, t: Tid, u: Tid) returns (a: Action)
    requires Inv(s) && AllTidy(s) && (WaitsForBuild(s, t, u) || WaitsForCall(s, t, u))
    ensures Steps(s, u, a)
  {
    hide Inv, Next, Calm, CanRun;
    assert Tidy(s, u);
    if WaitsForCall(s, t, u) {
      GivesBack(s, u, Top(s, t).name);
      a := EndBorrow(u, Top(s, t).name, u);
    } else {
      BuilderIsTop(Stack(s, u));
      var v;
      a, v := StepsOrWaits(s, u);
      if !Steps(s, u, a) {
        BuilderWaitsForNobody(s, u, v);
      }
    }
  }

  lemma BuilderIsTop(stack: seq<Frame>)
    requires Ranked(stack) && BuildsIn(stack)
    ensures stack != [] && Builds(stack[|stack| - 1])
  {
    var i :| 0 <= i < |stack| && stack[i].PrimFrame? && stack[i].stage.Building?;
    if i < |stack| - 1 {
      NothingOnBuilder(stack, i);
    }
  }

  lemma NothingOnBuilder(stack: seq<Frame>, i: nat)
    requires Ranked(stack) && i < |stack| - 1
    ensures !Builds(stack[i])
  {
    hide Rises;
    assert MayStandOn(stack[..i + 1], stack[i + 1]);
    assert stack[..i + 1][i] == stack[i];
  }

  lemma BuilderWaitsForNobody(s: State, u: Tid, v: Tid)
    requires Stack(s, u) != [] && Builds(Top(s, u))
    ensures !WaitsFor(s, u, v)
  {
  }

  /** A thread that waits for a lock holds only earlier ones in the activations below the waiting one. */
  lemma BelowIsEarlier(s: State, u: Tid, v: Tid, n: Name)
    requires Inv(s) && Tidy(s, u) && WaitsForLock(s, u, v) && HeldIn(Stack(s, u)[..|Stack(s, u)| - 1], n)
    ensures Before(n, Wanted(Top(s, u)).value)
  {
    hide Before, CellOk;
    var stack := Stack(s, u);
    var k := |stack| - 1;
    var m := Wanted(stack[k]).value;
    assert MayStandOn(stack[..k], stack[k]);
    WantedIsAsked(stack[k]);
    assert Rises(stack[..k], m);
    if HeldIn(stack[..k], m) {
      var i :| 0 <= i < k && Holds(stack[..k][i], m);
      HolderOwns(s, u, i, m);
    }
  }

  lemma WantedIsAsked(f: Frame)
    requires Wanted(f).Some?
    ensures Asks(f, Wanted(f).value)
  {
    hide Before;
  }

  lemma HolderOwns(s: State, u: Tid, i: nat, m: Name)
    requires Inv(s) && i < |Stack(s, u)| && Holds(Stack(s, u)[i], m)
    ensures m in s.cells && s.cells[m].owner == Some(u)
  {
    hide CellOk, Underway, Before, Chained;
    assert FrameOk(s, u, i);
  }

  /** Whoever holds a lock and waits for another one waits for a later name. */
  lemma LocksAreOrdered(s: State, u: Tid, v: Tid, n: Name)
    requires Inv(s) && Tidy(s, u) && n in s.cells && s.cells[n].owner == Some(u) && WaitsForLock(s, u, v)
    ensures Before(n, Wanted(Top(s, u)).value)
  {
    hide Before, CellOk, Ranked, FrameOk;
    var stack := Stack(s, u);
    assert HeldIn(stack, n) by { CellOf(s, n); OwnerHolds(s, n); }
    var i :| 0 <= i < |stack| && Holds(stack[i], n);
    if i < |stack| - 1 {
      assert Holds(stack[..|stack| - 1][i], n);
      BelowIsEarlier(s, u, v, n);
    } else {
      BeforeTotal(Top(s, u).source, Top(s, u).target);
    }
  }

  lemma OwnerHolds(s: State, n: Name)
    requires CellOk(s, n) && s.cells[n].owner.Some?
    ensures HeldIn(Stack(s, s.cells[n].owner.value), n)
  {
  }

  // ------------------------------------------------------------ no deadlock

  ghost function Later(s: State, n: Name): set<Name> {
    set m | m in s.cells && Before(n, m)
  }

  lemma LaterShrinks(s: State, n: Name, m: Name)
    requires Before(n, m) && m in s.cells
    ensures Later(s, m) < Later(s, n)
  {
    hide Before;
    forall k | k in Later(s, m) ensures k in Later(s, n) {
      BeforeTransitive(n, m, k);
    }
    BeforeTotal(m, m);
    assert m in Later(s, n) && m !in Later(s, m);
  }

  ghost predicate Chain(s: State, path: seq<Tid>) {
    && path != []
    && forall i | 0 <= i < |path| - 1 :: WaitsFor(s, path[i], path[i + 1])
  }

  lemma ChainFrom(s: State, t: Tid, path: seq<Tid>)
    requires Chain(s, path) && WaitsFor(s, t, path[0])
    ensures Chain(s, [t] + path)
  {
    hide WaitsFor;
    var p := [t] + path;
    forall i | 0 <= i < |p| - 1 ensures WaitsFor(s, p[i], p[i + 1]) {
      if i > 0 {
        assert WaitsFor(s, path[i - 1], path[i - 1 + 1]);
      }
    }
  }

  /** A thread that waits for the lock of `n` waits in the end for a thread that can step. */
  lemma LockChain(s: State, n: Name, u: Tid) returns (path: seq<Tid>, a: Action)
    requires Inv(s) && AllTidy(s) && n in s.cells && s.cells[n].owner == Some(u)
    ensures Chain(s, path) && path[0] == u && Steps(s, path[|path| - 1], a)
    decreases Later(s, n)
  {
    hide Inv, WaitsForBuild, WaitsForCall, Steps, Tidy, Later;
    assert Tidy(s, u);
    assert Stack(s, u) != [] by { CellOf(s, n); OwnerHolds(s, n); }
    var v;
    a, v := StepsOrWaits(s, u);
    if Steps(s, u, a) {
      path := [u];
    } else if WaitsForLock(s, u, v) {
      LocksAreOrdered(s, u, v, n);
      LaterShrinks(s, n, Wanted(Top(s, u)).value);
      path, a := LockChain(s, Wanted(Top(s, u)).value, v);
      ChainFrom(s, u, path);
      path := [u] + path;
    } else {
      a := HolderSteps(s, u, v);
      path := [u, v];
    }
  }

  /**
   * Deadlock freedom: in every state that disciplined threads can reach, every
   * unfinished thread can step, or waits along a finite chain of threads for one
   * that can. In particular no set of threads waits only for each other.
   */
  lemma NoDeadlock(run: seq<Action>, t: Tid) returns (path: seq<Tid>, a: Action)
    requires Orderly(Init, run) && Stack(After(Init, run), t) != []
    ensures var s := After(Init, run);
            Chain(s, path) && path[0] == t && Steps(s, path[|path| - 1], a)
  {
    hide Inv, WaitsForBuild, WaitsForCall, Steps, Tidy, Orderly, Protocol.Legal, After;
    InitInv();
    InitTidy();
    OrderlyTidy(Init, run);
    var s := After(Init, run);
    var u;
    a, u := StepsOrWaits(s, t);
    if Steps(s, t, a) {
      path := [t];
    } else if WaitsForLock(s, t, u) {
      path, a := LockChain(s, Wanted(Top(s, t)).value, u);
      ChainFrom(s, t, path);
      path := [t] + path;
    } else {
      a := HolderSteps(s, t, u);
      path := [t, u];
    }
  }
}
