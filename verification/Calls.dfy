/** Starting and returning from operations keeps the invariant. */
module Calls {
  import opened Lifecycle
  import opened Names
  import opened Entries
  import opened Protocol
  import opened Invariant

  lemma HasTop(s: State, a: Action)
    requires a.Run? && CanRun(s, a.t, a.choice)
    ensures Stack(s, a.t) != []
  {
  }

  // ------------------------------------------------------------------ returns

  lemma ResumeHolds(f: Frame, r: Ret, n: Name)
    ensures Holds(Resume(f, r), n) <==> Holds(f, n)
    ensures f.PrimFrame? ==> Resume(f, r) == f
  {
  }

  /** Foreign code goes on as if nothing had happened. */
  lemma ResumeCallsOut(f: Frame, r: Ret)
    requires CallsOut(f)
    ensures Resume(f, r) == f
  {
  }

  lemma ResumeLocked(cells: map<Name, Cell>, t: Tid, f: Frame, r: Ret)
    requires Locked(cells, t, f)
    ensures Locked(cells, t, Resume(f, r))
  {
    hide Resume, Before;
    match f {
      case PrimFrame(_, _, _) => ResumeHolds(f, r, f.name);
      case SwitchFrame(a, b, _, _, _) =>
        ResumeHolds(f, r, a);
        ResumeHolds(f, r, b);
        ResumeShape(f, r);
      case ReloadFrame(n, _, _, _, _, _, _, _) =>
        ResumeHolds(f, r, n);
        ResumeShape(f, r);
      case CloseFrame(_, _, _, _) => ResumeShape(f, r);
    }
  }

  lemma ResumeShape(f: Frame, r: Ret)
    ensures f.SwitchFrame? ==>
              Resume(f, r) == f.(sw := Resume(f, r).sw) && (Resume(f, r).sw.SLookup? <==> f.sw.SLookup?)
    ensures f.ReloadFrame? ==>
              && Resume(f, r).ReloadFrame? && Resume(f, r).name == f.name
              && (Resume(f, r).rl.RLookup? <==> f.rl.RLookup?)
    ensures f.CloseFrame? ==> Resume(f, r).CloseFrame?
  {
    hide Succeeded;
  }

  lemma ResumedAwaits(f: Frame, r: Ret)
    requires Awaits(f).Some?
    ensures Awaits(Resume(f, r)).None? && !UserCode(Resume(f, r))
  {
    hide Succeeded;
  }

  lemma UnwindAt(stack: seq<Frame>, r: Ret, i: nat)
    requires stack != [] && i < |stack| - 1
    ensures Unwind(stack, r)[i] == if i == |stack| - 2 then Resume(stack[i], r) else stack[i]
  {
  }

  lemma UnwindHeld(stack: seq<Frame>, r: Ret, n: Name)
    requires stack != []
    ensures HeldIn(Unwind(stack, r), n) <==> HeldIn(stack[..|stack| - 1], n)
    ensures HeldIn(stack, n) && !Holds(stack[|stack| - 1], n) ==> HeldIn(Unwind(stack, r), n)
  {
    hide Holds;
    var rest := Unwind(stack, r);
    forall i | 0 <= i < |rest| ensures Holds(rest[i], n) <==> Holds(stack[i], n) {
      UnwindAt(stack, r, i);
      ResumeHolds(stack[i], r, n);
    }
  }

  /** A free lock was held by nobody else on the stack; nothing else about an entry changes. */
  lemma ReturnCells(s: State, t: Tid, r: Ret, n: Name)
    requires Stack(s, t) != []
    ensures var s' := Return(s, t, r);
            && (n in s'.cells <==> n in s.cells)
            && (n in s.cells ==>
                  && s'.cells[n] == s.cells[n].(owner := s'.cells[n].owner)
                  && (s'.cells[n].owner == s.cells[n].owner
                      || (s'.cells[n].owner.None? && s.cells[n].owner == Some(t) && !HeldIn(Stack(s', t), n)))
                  && (s'.cells[n].owner == Some(t) ==>
                        HeldIn(Stack(s', t), n) || !Holds(Top(s, t), n)))
  {
    hide HeldIn;
  }

  lemma ReturnStacks(s: State, t: Tid, r: Ret, u: Tid)
    requires Stack(s, t) != []
    ensures Stack(Return(s, t, r), u) == if u == t then Unwind(Stack(s, t), r) else Stack(s, u)
  {
  }

  predicate Returning(f: Frame, r: Ret) {
    && Awaits(f).None?
    && (f.PrimFrame? ==>
          || (f.stage.Lookup? && !Succeeded(r))
          || (f.stage.Leaving? && f.stage.ret == r))
  }

  lemma ReturnCell(s: State, t: Tid, r: Ret, n: Name)
    requires Stack(s, t) != [] && Returning(Top(s, t), r) && CellOk(s, n)
    ensures CellOk(Return(s, t, r), n)
  {
    hide HeldIn, Linked, EntryOk, Return, Unwind, Holds;
    var s' := Return(s, t, r);
    ReturnCells(s, t, r, n);
    ReturnSame(s, t, r);
    var c := s.cells[n];
    if c.owner.Some? {
      ReturnStacks(s, t, r, c.owner.value);
      if c.owner.value == t {
        UnwindHeld(Stack(s, t), r, n);
      }
    }
    if c.e.transition.Some? && !Stuck(c.e) {
      var u := c.e.operationThread.value;
      ReturnStacks(s, t, r, u);
      assert Witnessed(s, n);
      if u == t {
        assert c.frame != |Stack(s, t)| - 1;
        UnwindAt(Stack(s, t), r, c.frame);
        ResumeHolds(Stack(s, t)[c.frame], r, n);
        UnwindLength(Stack(s, t), r);
      }
      assert Witnessed(s', n);
    }
    assert History(s', n);
  }

  lemma UnwindLength(stack: seq<Frame>, r: Ret)
    requires stack != []
    ensures |Unwind(stack, r)| == |stack| - 1
  {
  }

  lemma ReturnSame(s: State, t: Tid, r: Ret)
    requires Stack(s, t) != []
    ensures var s' := Return(s, t, r);
            && s'.contexts == s.contexts && s'.next == s.next && s'.order == s.order
            && s'.closing == s.closing && s'.closedOk == s.closedOk && s'.loans == s.loans
  {
  }

  lemma ReturnLocked(s: State, t: Tid, r: Ret, u: Tid, j: nat, f: Frame)
    requires Stack(s, t) != [] && j < |Stack(Return(s, t, r), u)| && f == Stack(Return(s, t, r), u)[j]
    requires Locked(s.cells, u, f)
    ensures Locked(Return(s, t, r).cells, u, f)
  {
    hide Return, Unwind, Before;
    match f {
      case PrimFrame(_, n, _) => ReturnCells(s, t, r, n); ReturnStacks(s, t, r, u);
      case SwitchFrame(a, b, _, _, _) =>
        ReturnCells(s, t, r, a);
        ReturnCells(s, t, r, b);
        ReturnStacks(s, t, r, u);
      case ReloadFrame(n, _, _, _, _, _, _, _) => ReturnCells(s, t, r, n); ReturnStacks(s, t, r, u);
      case CloseFrame(_, _, _, _) =>
    }
  }

  /** An activation that did not wait for the one that returned. */
  lemma ReturnFrame(s: State, t: Tid, r: Ret, u: Tid, j: nat)
    requires Inv(s) && Stack(s, t) != [] && j < |Stack(s, u)|
    requires u == t ==> j < |Stack(s, t)| - 1 && (j == |Stack(s, t)| - 2 ==> Awaits(Stack(s, t)[j]).None?)
    requires FrameOk(s, u, j)
    ensures FrameOk(Return(s, t, r), u, j)
  {
    hide Return, Unwind, Resume, Locked, Awaits, Inv, Underway, Stable;
    var s' := Return(s, t, r);
    ReturnStacks(s, t, r, u);
    ReturnSame(s, t, r);
    var f := Stack(s, u)[j];
    if u == t {
      UnwindLength(Stack(s, t), r);
      UnwindAt(Stack(s, t), r, j);
      if j == |Stack(s, t)| - 2 {
        assert CallsOut(f);
        ResumeCallsOut(f, r);
      } else {
        UnwindAt(Stack(s, t), r, j + 1);
        if Awaits(f).Some? {
          ResumeHolds(Stack(s, t)[j + 1], r, "");
        }
      }
    }
    assert Stack(s', u)[j] == f;
    ReturnLocked(s, t, r, u, j, f);
    ReturnPrim(s, t, r, f);
    if f.CloseFrame? {
      ReturnClose(s, t, r, f);
    }
    ReturnReload(s, t, r, u, j);
    if f.PrimFrame? {
      assert PrimOk(s', u, j, f) by {
        ReturnPrim(s, t, r, f);
      }
    }
  }

  lemma ReturnPrim(s: State, t: Tid, r: Ret, f: Frame)
    requires Stack(s, t) != []
    ensures forall u, j: nat | f.PrimFrame? && PrimOk(s, u, j, f) :: PrimOk(Return(s, t, r), u, j, f)
  {
    hide Return, Underway;
    if f.PrimFrame? {
      ReturnCells(s, t, r, f.name);
      ReturnSame(s, t, r);
    }
  }

  lemma ReturnClose(s: State, t: Tid, r: Ret, f: Frame)
    requires Stack(s, t) != [] && f.CloseFrame? && CloseOk(s, f)
    ensures CloseOk(Return(s, t, r), f)
  {
    hide Return, Stable;
    ReturnSame(s, t, r);
    forall n ensures n in Return(s, t, r).cells <==> n in s.cells
      ensures n in s.cells ==> Return(s, t, r).cells[n].e == s.cells[n].e
    {
      ReturnCells(s, t, r, n);
    }
  }

  /** What lies below an activation stays when the innermost one returns. */
  lemma ReturnReload(s: State, t: Tid, r: Ret, u: Tid, j: nat)
    requires Stack(s, t) != [] && j < |Stack(s, u)| && (u == t ==> j < |Stack(s, t)| - 1)
    requires ReloadOk(Stack(s, u), j)
    ensures var stack := Stack(Return(s, t, r), u);
            j < |stack| && (stack[j] == Stack(s, u)[j] ==> ReloadOk(stack, j))
  {
    hide Return, Unwind, Begun, Resume;
    ReturnStacks(s, t, r, u);
    if u == t {
      UnwindLength(Stack(s, t), r);
      forall i | 0 <= i < j ensures Stack(Return(s, t, r), u)[i] == Stack(s, u)[i] {
        UnwindAt(Stack(s, t), r, i);
      }
    }
  }

  /** The activation that waited continues with what the operation promised. */
  lemma ReturnParent(s: State, t: Tid, r: Ret)
    requires Inv(s) && |Stack(s, t)| >= 2 && Returning(Top(s, t), r)
    requires Awaits(Stack(s, t)[|Stack(s, t)| - 2]).Some?
    ensures FrameOk(Return(s, t, r), t, |Stack(s, t)| - 2)
  {
    hide Return, Unwind, Resume, Underway, Stable, CellOk;
    var s' := Return(s, t, r);
    var j := |Stack(s, t)| - 2;
    var p := Stack(s, t)[j];
    assert FrameOk(s, t, j) && FrameOk(s, t, j + 1);
    ReturnStacks(s, t, r, t);
    UnwindLength(Stack(s, t), r);
    UnwindAt(Stack(s, t), r, j);
    ResumeShape(p, r);
    ResumedAwaits(p, r);
    ResumeLocked(s.cells, t, p, r);
    ReturnLocked(s, t, r, t, j, Resume(p, r));
    if p.CloseFrame? {
      ResumedClose(s, t, p, Top(s, t), r);
      ReturnClose(s, t, r, Resume(p, r));
    }
    ResumedReload(s, t, r);
  }

  lemma ResumedClose(s: State, t: Tid, p: Frame, f: Frame, r: Ret)
    requires Inv(s) && Stack(s, t) != [] && f.PrimFrame? && Returning(f, r)
    requires PrimOk(s, t, |Stack(s, t)| - 1, f) && Locked(s.cells, t, f)
    requires Awaits(p) == Some((f.op, f.name)) && p.CloseFrame? && CloseOk(s, p)
    ensures CloseOk(s, Resume(p, r))
  {
    hide HeldIn, Witnessed, History, Counted, Linked, FrameOk, Stable, Coherent, Flags, Rests, Quiet;
    if Succeeded(r) {
      assert CellOk(s, f.name);
      UnloadedIsStable(s.cells[f.name].e);
    }
  }

  /** A refresh starts after an unload, so no operation on its entry is under way below it. */
  lemma ResumedReload(s: State, t: Tid, r: Ret)
    requires Inv(s) && |Stack(s, t)| >= 2 && Returning(Top(s, t), r)
    requires var j := |Stack(s, t)| - 2; Awaits(Stack(s, t)[j]).Some? && FrameOk(s, t, j) && FrameOk(s, t, j + 1)
    ensures |Stack(Return(s, t, r), t)| == |Stack(s, t)| - 1 && ReloadOk(Stack(Return(s, t, r), t), |Stack(s, t)| - 2)
  {
    hide Inv, Return, Unwind, FrameOk, Resume, Begun, Returning;
    var j := |Stack(s, t)| - 2;
    var p := Stack(s, t)[j];
    ReturnStacks(s, t, r, t);
    UnwindLength(Stack(s, t), r);
    UnwindAt(Stack(s, t), r, j);
    if Refreshing(Resume(p, r)) {
      UnloadedUnmarked(s, t, r);
      forall i | 0 <= i < j ensures !Begun(Stack(Return(s, t, r), t)[i], p.name) {
        UnwindAt(Stack(s, t), r, i);
        if Begun(Stack(s, t)[i], p.name) {
          BegunMarks(s, t, i, p.name);
        }
      }
    }
  }

  /** The unload that a reload awaited has returned. */
  lemma UnloadedUnmarked(s: State, t: Tid, r: Ret)
    requires |Stack(s, t)| >= 2 && Returning(Top(s, t), r)
    requires var j := |Stack(s, t)| - 2;
             Awaits(Stack(s, t)[j]).Some? && FrameOk(s, t, j) && FrameOk(s, t, j + 1) && Refreshing(Resume(Stack(s, t)[j], r))
    ensures var p := Stack(s, t)[|Stack(s, t)| - 2];
            && Resume(p, r).name == p.name && p.ReloadFrame?
            && p.name in s.cells && s.cells[p.name].e.transition.None?
  {
    hide Underway, Succeeded;
  }

  lemma BegunMarks(s: State, t: Tid, i: nat, n: Name)
    requires Inv(s) && i < |Stack(s, t)| && Begun(Stack(s, t)[i], n) && n in s.cells
    ensures s.cells[n].e.transition.Some?
  {
    hide CellOk, Underway;
    assert FrameOk(s, t, i);
  }

  lemma UnloadedIsStable(e: Entry)
    requires Coherent(e) && Counted(e) && e.transition.None? && e.state.UNLOADED? && e.context.None?
    ensures Stable(e)
  {
  }

  lemma ReturnKeeps(s: State, t: Tid, r: Ret)
    requires Inv(s) && Stack(s, t) != [] && Returning(Top(s, t), r)
    ensures Inv(Return(s, t, r))
  {
    hide CellOk, FrameOk, ContextOk, Stable, Return, Unwind, LoanOk, Awaits;
    var s' := Return(s, t, r);
    ReturnSame(s, t, r);
    forall n ensures n in s'.cells <==> n in s.cells
      ensures n in s.cells ==> s'.cells[n].e == s.cells[n].e
      ensures n in s.cells ==> CellOk(s', n)
    {
      ReturnCells(s, t, r, n);
      if n in s.cells {
        ReturnCell(s, t, r, n);
      }
    }
    forall u, j: nat | j < |Stack(s', u)| ensures FrameOk(s', u, j) {
      ReturnStacks(s, t, r, u);
      UnwindLength(Stack(s, t), r);
      if u == t && j == |Stack(s, t)| - 2 && Awaits(Stack(s, t)[j]).Some? {
        ReturnParent(s, t, r);
      } else {
        assert FrameOk(s, u, j);
        ReturnFrame(s, t, r, u, j);
      }
    }
    forall i | 0 <= i < |s'.loans| ensures LoanOk(s', s'.loans[i]) {
      assert LoanOk(s, s.loans[i]);
      ReturnLoan(s, t, r, s.loans[i]);
    }
    forall c | c in s'.contexts ensures ContextOk(s', c) {
      assert ContextOk(s, c);
      ReturnContext(s, t, r, c);
    }
  }

  lemma ReturnLoan(s: State, t: Tid, r: Ret, l: Loan)
    requires Stack(s, t) != [] && LoanOk(s, l)
    ensures LoanOk(Return(s, t, r), l)
  {
    hide Return;
    ReturnCells(s, t, r, l.name);
  }

  lemma ReturnContext(s: State, t: Tid, r: Ret, c: ContextId)
    requires Stack(s, t) != [] && ContextOk(s, c)
    ensures ContextOk(Return(s, t, r), c)
  {
    hide Return;
    ReturnSame(s, t, r);
  }

  // ------------------------------------------------- calls and changes of stage

  /** Only the innermost activation of `t` changes, or another one is put on top of it. */
  ghost predicate Grown(s: State, s': State, t: Tid) {
    && s' == s.(stacks := s'.stacks)
    && s'.stacks == s.stacks[t := Stack(s', t)]
    && var stack, stack' := Stack(s, t), Stack(s', t);
    && |stack| <= |stack'|
    && (forall i | 0 <= i < |stack| - 1 :: stack'[i] == stack[i])
    && (stack != [] ==>
          var f, f' := stack[|stack| - 1], stack'[|stack| - 1];
          && (f.PrimFrame? ==> f'.PrimFrame? && f'.op == f.op && f'.name == f.name)
          && (f.PrimFrame? && Begun(f, f.name) ==> Begun(f', f.name))
          && (forall n :: Holds(f, n) ==> Holds(f', n)))
  }

  lemma GrownHeld(s: State, s': State, t: Tid, u: Tid, n: Name)
    requires Grown(s, s', t) && HeldIn(Stack(s, u), n)
    ensures HeldIn(Stack(s', u), n)
  {
    var i :| 0 <= i < |Stack(s, u)| && Holds(Stack(s, u)[i], n);
    assert Holds(Stack(s', u)[i], n);
  }

  lemma GrownCell(s: State, s': State, t: Tid, n: Name)
    requires Grown(s, s', t) && CellOk(s, n)
    ensures CellOk(s', n)
  {
    hide HeldIn, Linked, EntryOk;
    var c := s.cells[n];
    if c.owner.Some? {
      GrownHeld(s, s', t, c.owner.value, n);
    }
    if c.e.transition.Some? && !Stuck(c.e) {
      assert Witnessed(s, n);
      assert Witnessed(s', n);
    }
    assert History(s', n);
  }

  lemma GrownFrame(s: State, s': State, t: Tid, u: Tid, j: nat)
    requires Grown(s, s', t) && j < |Stack(s, u)| && (u == t ==> j < |Stack(s, t)| - 1)
    requires FrameOk(s, u, j)
    ensures FrameOk(s', u, j)
  {
    hide Locked, Underway, Stable, Awaits, Holds;
    assert Stack(s', u)[j] == Stack(s, u)[j];
  }

  lemma GrownKeeps(s: State, s': State, t: Tid)
    requires Inv(s) && Grown(s, s', t)
    requires forall i: nat | |Stack(s, t)| - 1 <= i < |Stack(s', t)| :: FrameOk(s', t, i)
    ensures Inv(s')
  {
    hide CellOk, FrameOk, ContextOk, Stable, LoanOk, Grown;
    GrownRest(s, s', t);
    forall n | n in s.cells ensures n in s'.cells && CellOk(s', n) {
      GrownCell(s, s', t, n);
    }
    forall u, j: nat | j < |Stack(s', u)| ensures FrameOk(s', u, j) {
      GrownStack(s, s', t, u);
      if u != t || j < |Stack(s, t)| - 1 {
        GrownFrame(s, s', t, u, j);
      }
    }
  }

  lemma GrownStack(s: State, s': State, t: Tid, u: Tid)
    requires Grown(s, s', t)
    ensures u != t ==> Stack(s', u) == Stack(s, u)
  {
  }

  lemma GrownRest(s: State, s': State, t: Tid)
    requires Inv(s) && Grown(s, s', t)
    ensures s'.cells == s.cells && s'.order == s.order && s'.closing == s.closing && s'.closedOk == s.closedOk
    ensures forall c | c in s'.contexts :: ContextOk(s', c)
    ensures forall i | 0 <= i < |s'.loans| :: LoanOk(s', s'.loans[i])
  {
    hide CellOk, FrameOk, Stable;
    assert forall i | 0 <= i < |s.loans| :: LoanOk(s, s.loans[i]);
    assert forall c | c in s.contexts :: ContextOk(s, c);
  }

  lemma StartKeeps(s: State, t: Tid, f: Frame)
    requires Inv(s) && MayCall(Stack(s, t)) && Starting(f)
    ensures Inv(Push(s, t, f))
  {
    hide Inv, Holds;
    var s' := Push(s, t, f);
    var k := |Stack(s, t)|;
    assert Stack(s', t) == Stack(s, t) + [f];
    assert FrameOk(s', t, k);
    if k > 0 {
      TopOk(s, t);
      OldTop(s, t, f);
    }
    GrownKeeps(s, s', t);
  }

  lemma TopOk(s: State, t: Tid)
    requires Inv(s) && Stack(s, t) != []
    ensures FrameOk(s, t, |Stack(s, t)| - 1)
    ensures Awaits(Top(s, t)).None?
  {
    assert FrameOk(s, t, |Stack(s, t)| - 1);
  }

  lemma OldTop(s: State, t: Tid, f: Frame)
    requires Stack(s, t) != [] && MayCall(Stack(s, t)) && FrameOk(s, t, |Stack(s, t)| - 1)
    ensures FrameOk(Push(s, t, f), t, |Stack(s, t)| - 1)
  {
    hide Underway, Locked;
    assert Stack(Push(s, t, f), t)[|Stack(s, t)| - 1] == Top(s, t);
  }

  /** Start the operation that the innermost activation, now `f'`, waits for. */
  lemma AwaitKeeps(s: State, t: Tid, f': Frame)
    requires Inv(s) && Stack(s, t) != [] && !Top(s, t).PrimFrame? && !f'.PrimFrame? && Awaits(f').Some?
    requires forall n :: Holds(Top(s, t), n) ==> Holds(f', n)
    requires Locked(s.cells, t, f')
    requires f'.CloseFrame? ==> CloseOk(s, f')
    ensures Inv(Await(s, t, f'))
  {
    hide Inv, Holds, CloseOk, Locked;
    var (op, n) := Awaits(f').value;
    var child := PrimFrame(op, n, Lookup);
    var s' := Push(SetTop(s, t, f'), t, child);
    var k := |Stack(s, t)|;
    assert Stack(s', t) == Stack(s, t)[k - 1 := f'] + [child];
    assert FrameOk(s', t, k) by { assert Locked(s'.cells, t, child) by { LookupLocked(s'.cells, t, child); } }
    assert FrameOk(s', t, k - 1) by {
      if f'.CloseFrame? {
        SameClose(s, s', f');
      }
    }
    GrownKeeps(s, s', t);
  }

  lemma LookupLocked(cells: map<Name, Cell>, t: Tid, f: Frame)
    requires f.PrimFrame? && f.stage.Lookup?
    ensures Locked(cells, t, f)
  {
  }

  lemma SameClose(s: State, s': State, f: Frame)
    requires f.CloseFrame? && CloseOk(s, f) && s'.cells == s.cells && s'.closing == s.closing
    ensures CloseOk(s', f)
  {
  }

  /** The innermost activation moves to another stage without touching anything else. */
  lemma MoveKeeps(s: State, t: Tid, f': Frame)
    requires Inv(s) && Stack(s, t) != [] && Awaits(f').None?
    requires var f := Top(s, t);
             && (f.PrimFrame? ==> f'.PrimFrame? && f'.op == f.op && f'.name == f.name)
             && (f.PrimFrame? && Begun(f, f.name) ==> Begun(f', f.name))
             && (forall n :: Holds(f, n) ==> Holds(f', n))
    requires Locked(s.cells, t, f')
    requires f'.PrimFrame? ==> PrimOk(s, t, |Stack(s, t)| - 1, f')
    requires !Refreshing(f')
    requires f'.CloseFrame? ==> CloseOk(s, f')
    ensures Inv(SetTop(s, t, f'))
  {
    hide Inv, Holds, CloseOk, Locked, Underway;
    var s' := SetTop(s, t, f');
    var k := |Stack(s, t)| - 1;
    assert Stack(s', t) == Stack(s, t)[k := f'];
    assert FrameOk(s', t, k) by {
      if f'.CloseFrame? {
        SameClose(s, s', f');
      }
    }
    GrownKeeps(s, s', t);
  }
}
