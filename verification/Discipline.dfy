/**
 * Runs in which no operation is started from a borrow or from a builder, and an
 * operation started from a callback or a refresh asks only for entries that its
 * thread has locked already, or that come after all those in the order of names.
 */
module Discipline {
  import opened Lifecycle
  import opened Names
  import opened Entries
  import opened Protocol
  import opened Invariant
  import opened Calls
  import opened PrimSteps
  import opened AllSteps
  import opened Turns

  /** The thread has no call in flight. */
  ghost predicate Free(s: State, t: Tid) {
    forall n | n in s.cells :: Calling(s.cells[n].e, t) == 0
  }

  /** The activation takes the operation lock of this entry itself. */
  predicate Asks(f: Frame, n: Name) {
    match f
    case PrimFrame(_, name, _) => name == n
    case SwitchFrame(a, b, _, _, _) => n == a || n == b
    case ReloadFrame(name, _, _, _, _, _, _, _) => name == n
    case CloseFrame(_, _, _, _) => false
  }

  /** The lock is held in these activations, or comes after all locks that are. */
  ghost predicate Rises(below: seq<Frame>, n: Name) {
    HeldIn(below, n) || forall m :: HeldIn(below, m) ==> Before(m, n)
  }

  predicate InCallback(below: seq<Frame>) {
    exists i | 0 <= i < |below| :: UserCode(below[i])
  }

  predicate Builds(f: Frame) {
    f.PrimFrame? && f.stage.Building?
  }

  /** The activation may be the next one above these. A `close` from inside a callback is refused at once. */
  ghost predicate MayStandOn(below: seq<Frame>, f: Frame) {
    && (forall n | Asks(f, n) :: Rises(below, n))
    && (f.CloseFrame? && below != [] ==> f.cl.CStart? && InCallback(below))
    && (below != [] ==> !Builds(below[|below| - 1]))
  }

  ghost predicate Disciplined(s: State, a: Action) {
    match a
    case StartOp(t, f) => MayStandOn(Stack(s, t), f) && Free(s, t)
    case Borrow(_, _, _) => true
    case EndBorrow(_, _, _) => true
    case Run(t, _) => Stack(s, t) != [] && CallsOut(Top(s, t)) ==> Free(s, t)
  }

  ghost predicate Orderly(s: State, run: seq<Action>)
    ensures Orderly(s, run) ==> Protocol.Legal(s, run)
    decreases |run|
  {
    run == [] || (Enabled(s, run[0]) && Disciplined(s, run[0]) && Orderly(Next(s, run[0]), run[1..]))
  }

  ghost predicate Ranked(stack: seq<Frame>) {
    forall i | 0 <= i < |stack| :: MayStandOn(stack[..i], stack[i])
  }

  /** Locks are asked for in order, and borrows live only in foreign code. */
  ghost predicate Tidy(s: State, t: Tid) {
    && Ranked(Stack(s, t))
    && (Stack(s, t) != [] && !CallsOut(Top(s, t)) ==> Free(s, t))
  }

  // ---------------------------------------------------------------- ranked stacks

  lemma SiteAlike(f: Frame, g: Frame)
    requires SameSite(f, g)
    ensures forall n :: Asks(f, n) <==> Asks(g, n)
  {
  }

  lemma ResumeAlike(f: Frame, r: Ret)
    ensures forall n :: Asks(f, n) <==> Asks(Resume(f, r), n)
    ensures f.CloseFrame? == Resume(f, r).CloseFrame? && (f.CloseFrame? && f.cl.CStart? ==> Resume(f, r).cl.CStart?)
  {
  }

  lemma RankedPrefix(stack: seq<Frame>, i: nat)
    requires Ranked(stack) && i <= |stack|
    ensures Ranked(stack[..i])
  {
    forall j | 0 <= j < i ensures MayStandOn(stack[..i][..j], stack[..i][j]) {
      assert stack[..i][..j] == stack[..j];
    }
  }

  lemma RankedMore(stack: seq<Frame>, f: Frame)
    requires Ranked(stack) && MayStandOn(stack, f)
    ensures Ranked(stack + [f])
  {
    hide MayStandOn;
    var more := stack + [f];
    forall j | 0 <= j < |more| ensures MayStandOn(more[..j], more[j]) {
      assert more[..j] == stack[..j];
      if j == |stack| {
        assert stack[..j] == stack;
      }
    }
  }

  /** The innermost activation may change to one that asks for the same entries. */
  lemma RankedTop(stack: seq<Frame>, g: Frame)
    requires Ranked(stack) && stack != []
    requires var f := stack[|stack| - 1];
             && (forall n :: Asks(f, n) <==> Asks(g, n)) && f.CloseFrame? == g.CloseFrame?
             && (f.CloseFrame? && f.cl.CStart? && |stack| > 1 ==> g.cl.CStart?)
    ensures Ranked(stack[|stack| - 1 := g])
  {
    hide Rises;
    var k := |stack| - 1;
    assert stack[k := g] == stack[..k] + [g];
    RankedPrefix(stack, k);
    assert MayStandOn(stack[..k], stack[k]);
    RankedMore(stack[..k], g);
  }

  /** A waiting activation may have the operation it waits for above it. */
  lemma CallStands(below: seq<Frame>, g: Frame, child: Frame)
    requires Awaits(g).Some? && child == PrimFrame(Awaits(g).value.0, Awaits(g).value.1, Lookup)
    requires g.CloseFrame? ==> below == []
    ensures MayStandOn(below + [g], child)
  {
    hide Before;
    var all := below + [g];
    assert all[|below|] == g;
    if g.CloseFrame? {
      assert forall i | 0 <= i < |all| :: all[i] == g;
    } else {
      AwaitedIsHeld(g);
      assert HeldIn(all, child.name);
    }
  }

  lemma AwaitedIsHeld(g: Frame)
    requires Awaits(g).Some? && !g.CloseFrame?
    ensures Holds(g, Awaits(g).value.1)
  {
  }

  /** A turn keeps the stack ranked, unless a nested `close` would go on. */
  lemma TurnRanked(stack: seq<Frame>, turn: Turn)
    requires stack != [] && Ranked(stack) && MayTurn(stack[|stack| - 1], turn)
    requires stack[|stack| - 1].CloseFrame? && |stack| > 1 ==> turn.GoBack?
    ensures Ranked(Turned(stack, turn))
  {
    hide Ranked, MayStandOn, Resume, Awaits, Unwind;
    var k := |stack| - 1;
    match turn {
      case GoOn(g) =>
        SiteAlike(stack[k], g);
        RankedTop(stack, g);
      case Call(g) =>
        SiteAlike(stack[k], g);
        RankedTop(stack, g);
        var child := PrimFrame(Awaits(g).value.0, Awaits(g).value.1, Lookup);
        assert stack[k := g] == stack[..k] + [g];
        CallStands(stack[..k], g, child);
        RankedMore(stack[k := g], child);
      case GoBack(r) =>
        UnwindSplit(stack, r);
        RankedPrefix(stack, k);
        if k > 0 {
          ResumeAlike(stack[k - 1], r);
          RankedTop(stack[..k], Resume(stack[k - 1], r));
        }
    }
  }

  lemma UnwindSplit(stack: seq<Frame>, r: Ret)
    requires stack != []
    ensures var k := |stack| - 1;
            Unwind(stack, r) == if k == 0 then stack[..k] else stack[..k][k - 1 := Resume(stack[k - 1], r)]
  {
    hide Resume;
  }

  // --------------------------------------------------------------------- runs

  ghost predicate AllTidy(s: State) {
    forall t :: Tidy(s, t)
  }

  lemma CalmFree(s: State, s': State, t: Tid, u: Tid)
    requires Calm(s, s', t) && Free(s, u)
    ensures Free(s', u)
  {
    forall n | n in s'.cells ensures Calling(s'.cells[n].e, u) == 0 {
      if n in s.cells {
        assert Calling(s.cells[n].e, u) == 0;
      }
    }
  }

  /** Foreign code of a single operation marks its entry with its thread, so `close` refuses. */
  lemma NestedCloseReturns(s: State, t: Tid, c: Choice)
    requires Inv(s) && CanRun(s, t, c) && Top(s, t).CloseFrame? && Top(s, t).cl.CStart?
    requires InCallback(Stack(s, t)[..|Stack(s, t)| - 1])
    ensures RunClose(s, t) == Return(s, t, Ret(false, None))
  {
    hide CellOk, Return, Underway;
    var k := |Stack(s, t)| - 1;
    var i :| 0 <= i < k && UserCode(Stack(s, t)[..k][i]);
    assert FrameOk(s, t, i);
    assert s.cells[Stack(s, t)[i].name].e.operationThread == Some(t);
  }

  lemma RunRanked(s: State, a: Action)
    requires Inv(s) && Enabled(s, a) && a.Run? && Ranked(Stack(s, a.t))
    ensures Calm(s, Next(s, a), a.t) && Ranked(Stack(Next(s, a), a.t))
  {
    hide Inv, CanRun, Ranked, RunPrim, RunSwitch, RunReload, RunClose, Calm, Turned, Unwind, Return;
    assert Stack(s, a.t) != [] by { HasTop(s, a); }
    if Top(s, a.t).CloseFrame? && |Stack(s, a.t)| > 1 {
      TopStands(Stack(s, a.t));
      NestedCloseReturns(s, a.t, a.choice);
      TopOk(s, a.t);
      var turn := GoBack(Ret(false, None));
      ReturnCalm(s, a.t, turn.r);
      TurnRanked(Stack(s, a.t), turn);
      assert Turned(Stack(s, a.t), turn) == Unwind(Stack(s, a.t), turn.r) by { BackTurned(Stack(s, a.t), turn.r); }
    } else {
      var turn := RunTurns(s, a.t, a.choice);
      TurnRanked(Stack(s, a.t), turn);
    }
  }

  lemma TopStands(stack: seq<Frame>)
    requires Ranked(stack) && stack != []
    ensures MayStandOn(stack[..|stack| - 1], stack[|stack| - 1])
  {
    hide MayStandOn;
  }

  lemma BackTurned(stack: seq<Frame>, r: Ret)
    requires stack != []
    ensures Turned(stack, GoBack(r)) == Unwind(stack, r)
  {
  }

  lemma RunTidy(s: State, a: Action, u: Tid)
    requires Inv(s) && Enabled(s, a) && Disciplined(s, a) && a.Run? && Tidy(s, a.t) && Tidy(s, u)
    ensures Tidy(Next(s, a), u)
  {
    hide Inv, Next, CanRun, Ranked, Free, CallsOut, Calm;
    HasTop(s, a);
    RunRanked(s, a);
    assert Free(s, a.t);
    CalmFree(s, Next(s, a), a.t, a.t);
    if u != a.t {
      OtherTidy(s, Next(s, a), a.t, u);
    }
  }

  lemma OtherTidy(s: State, s': State, t: Tid, u: Tid)
    requires Calm(s, s', t) && u != t && Tidy(s, u)
    ensures Tidy(s', u)
  {
    hide CallsOut, Ranked, Free;
    assert Stack(s', u) == Stack(s, u);
    if Free(s, u) {
      CalmFree(s, s', t, u);
    }
  }

  lemma BorrowTidy(s: State, a: Action, u: Tid)
    requires Enabled(s, a) && (a.Borrow? || a.EndBorrow?) && Tidy(s, u)
    ensures Tidy(Next(s, a), u)
  {
    hide Lendable, Ranked;
    assert Stack(Next(s, a), u) == Stack(s, u);
    if Free(s, u) && !(a.Borrow? && a.t == u) {
      assert Calling(s.cells[a.n].e, u) == 0;
      assert Free(Next(s, a), u);
    }
  }

  lemma StartTidy(s: State, a: Action, u: Tid)
    requires Enabled(s, a) && Disciplined(s, a) && a.StartOp? && Tidy(s, u)
    ensures Tidy(Next(s, a), u)
  {
    hide Starting, Ranked, MayStandOn;
    assert Next(s, a).cells == s.cells;
    if u == a.t {
      assert Stack(Next(s, a), u) == Stack(s, u) + [a.f];
      RankedMore(Stack(s, u), a.f);
    } else {
      assert Stack(Next(s, a), u) == Stack(s, u);
    }
  }

  lemma NextTidy(s: State, a: Action)
    requires Inv(s) && Enabled(s, a) && Disciplined(s, a) && AllTidy(s)
    ensures AllTidy(Next(s, a))
  {
    hide Inv, Next, Enabled, Disciplined, Tidy;
    forall u ensures Tidy(Next(s, a), u) {
      assert Tidy(s, u);
      match a {
        case StartOp(_, _) => StartTidy(s, a, u);
        case Run(t, _) => assert Tidy(s, t); RunTidy(s, a, u);
        case _ => BorrowTidy(s, a, u);
      }
    }
  }

  lemma {:induction false} OrderlyTidy(s: State, run: seq<Action>)
    requires Inv(s) && AllTidy(s) && Orderly(s, run)
    ensures Inv(After(s, run)) && AllTidy(After(s, run))
    decreases |run|
  {
    hide Inv, Next, Enabled, Disciplined, AllTidy;
    if run != [] {
      NextKeeps(s, run[0]);
      NextTidy(s, run[0]);
      OrderlyTidy(Next(s, run[0]), run[1..]);
    }
  }

  lemma InitTidy()
    ensures AllTidy(Init)
  {
  }
}
