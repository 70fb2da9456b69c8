/** How a step of one thread on one entry leaves all other entries and activations alone. */
module Preservation {
  import opened Lifecycle
  import opened Names
  import opened Entries
  import opened Protocol
  import opened Invariant

  /** `e'` differs from `e` at most in the last result. */
  predicate SameCore(e: Entry, e': Entry) {
    e' == e.(lastOk := e'.lastOk)
  }

  /**
   * Thread `t` may change the entry: it holds the lock, and either no operation
   * is under way or its own innermost activation is that operation.
   */
  predicate Mine(s: State, t: Tid, n: Name)
    requires n in s.cells
  {
    var c := s.cells[n];
    && c.owner == Some(t)
    && (c.e.transition.None? || Stuck(c.e) || (c.e.operationThread == Some(t) && c.frame == |Stack(s, t)| - 1))
  }

  /** The innermost activation of `t` becomes `f'`; at most the entry `n` and its contexts change. */
  ghost predicate Replaced(s: State, s': State, t: Tid, n: Name, f': Frame) {
    && Stack(s, t) != []
    && s'.stacks == s.stacks[t := Stack(s, t)[|Stack(s, t)| - 1 := f']]
    && n in s.cells && n in s'.cells && s'.cells == s.cells[n := s'.cells[n]]
    && s'.order == s.order && s'.closing == s.closing && s'.closedOk == s.closedOk && s'.loans == s.loans
    && var f := Top(s, t);
    && (f.PrimFrame? ==> f'.PrimFrame? && f'.op == f.op && f'.name == f.name == n)
    && (Holds(f, n) ==> Holds(f', n))
    && (f.PrimFrame? || (forall m :: Holds(f, m) ==> Holds(f', m)))
  }

  /** The entry changed only as far as the thread was allowed to change it. */
  predicate Touched(s: State, s': State, t: Tid, n: Name)
    requires n in s.cells && n in s'.cells
  {
    var c, c' := s.cells[n], s'.cells[n];
    || (c' == c && s'.contexts == s.contexts)
    || (&& (c.owner.None? || c.owner == Some(t)) && c'.owner == Some(t)
        && (|| (SameCore(c.e, c'.e) && c'.frame == c.frame && c'.lost == c.lost && s'.contexts == s.contexts)
            || Mine(s, t, n)))
  }

  predicate ContextsKept(s: State, s': State, n: Name) {
    && s.next <= s'.next
    && (forall c | c in s.contexts :: c in s'.contexts && s'.contexts[c].home == s.contexts[c].home)
    && (forall c | c in s.contexts && s.contexts[c].home != n :: s'.contexts[c] == s.contexts[c])
    && (forall c | c in s'.contexts :: ContextOk(s', c))
  }

  predicate Settled(s: State, s': State, n: Name)
    requires n in s.cells && n in s'.cells
  {
    && s.cells[n].built <= s'.cells[n].built
    && (s.closing && Stable(s.cells[n].e) ==> Stable(s'.cells[n].e))
  }

  lemma OtherHeld(s: State, s': State, t: Tid, n: Name, f': Frame, u: Tid, m: Name)
    requires Replaced(s, s', t, n, f') && HeldIn(Stack(s, u), m)
    ensures HeldIn(Stack(s', u), m)
  {
    var i :| 0 <= i < |Stack(s, u)| && Holds(Stack(s, u)[i], m);
    if u == t && i == |Stack(s, t)| - 1 {
      assert Holds(f', m);
    }
    assert Holds(Stack(s', u)[i], m);
  }

  lemma OtherCell(s: State, s': State, t: Tid, n: Name, f': Frame, m: Name)
    requires Replaced(s, s', t, n, f') && ContextsKept(s, s', n)
    requires m != n && CellOk(s, m)
    ensures CellOk(s', m)
  {
    hide HeldIn, Linked, EntryOk;
    var c := s.cells[m];
    assert s'.cells[m] == c;
    if c.owner.Some? {
      OtherHeld(s, s', t, n, f', c.owner.value, m);
    }
    if c.e.transition.Some? && !Stuck(c.e) {
      var u := c.e.operationThread.value;
      assert Witnessed(s, m);
      assert u == t ==> c.frame != |Stack(s, t)| - 1;
      assert Witnessed(s', m);
    }
    assert History(s', m);
  }

  lemma OtherChain(s: State, s': State, t: Tid, n: Name, f': Frame, u: Tid, j: nat)
    requires Replaced(s, s', t, n, f') && j < |Stack(s, u)|
    requires !(u == t && j == |Stack(s, t)| - 1)
    requires Chained(Stack(s, u), j)
    ensures j < |Stack(s', u)| && Stack(s', u)[j] == Stack(s, u)[j] && Chained(Stack(s', u), j)
  {
  }

  lemma OtherLocks(s: State, s': State, t: Tid, n: Name, u: Tid, f: Frame)
    requires n in s.cells && n in s'.cells && s'.cells == s.cells[n := s'.cells[n]]
    requires Touched(s, s', t, n) && Locked(s.cells, u, f)
    ensures Locked(s'.cells, u, f)
  {
  }

  lemma OtherPrim(s: State, s': State, t: Tid, n: Name, f': Frame, u: Tid, j: nat)
    requires Replaced(s, s', t, n, f') && Touched(s, s', t, n) && ContextsKept(s, s', n)
    requires j < |Stack(s, u)| && !(u == t && j == |Stack(s, t)| - 1)
    requires FrameOk(s, u, j) && Stack(s, u)[j].PrimFrame?
    requires Stack(s, u)[j].name in s.cells ==> CellOk(s, Stack(s, u)[j].name)
    ensures PrimOk(s', u, j, Stack(s, u)[j])
  {
    hide Touched, CellOk, PrimOk;
    var f := Stack(s, u)[j];
    if f.name != n {
      ElsewherePrim(s, s', n, u, j, f);
    } else {
      HerePrim(s, s', t, n, f', u, j);
    }
  }

  lemma ElsewherePrim(s: State, s': State, n: Name, u: Tid, j: nat, f: Frame)
    requires n in s.cells && n in s'.cells && s'.cells == s.cells[n := s'.cells[n]] && ContextsKept(s, s', n)
    requires f.PrimFrame? && f.name != n && PrimOk(s, u, j, f) && (f.name in s.cells ==> CellOk(s, f.name))
    ensures PrimOk(s', u, j, f)
  {
    if f.name in s.cells {
      assert s'.cells[f.name] == s.cells[f.name];
      SamePhase(s, s', n, f.name);
    }
  }

  lemma HerePrim(s: State, s': State, t: Tid, n: Name, f': Frame, u: Tid, j: nat)
    requires Replaced(s, s', t, n, f') && Touched(s, s', t, n) && ContextsKept(s, s', n)
    requires j < |Stack(s, u)| && !(u == t && j == |Stack(s, t)| - 1)
    requires FrameOk(s, u, j) && Stack(s, u)[j].PrimFrame? && Stack(s, u)[j].name == n
    ensures PrimOk(s', u, j, Stack(s, u)[j])
  {
    var f := Stack(s, u)[j];
    if s'.cells[n] != s.cells[n] && Holds(f, n) {
      assert u == t;
      assert UserCode(f);
    }
  }

  lemma SamePhase(s: State, s': State, n: Name, m: Name)
    requires ContextsKept(s, s', n) && m != n && CellOk(s, m)
    ensures Phase(s'.contexts, s.cells[m].e) == Phase(s.contexts, s.cells[m].e)
  {
  }

  lemma OtherReload(s: State, s': State, t: Tid, n: Name, f': Frame, u: Tid, j: nat)
    requires Replaced(s, s', t, n, f')
    requires j < |Stack(s, u)| && !(u == t && j == |Stack(s, t)| - 1) && ReloadOk(Stack(s, u), j)
    ensures j < |Stack(s', u)| && ReloadOk(Stack(s', u), j)
  {
  }

  lemma OtherClose(s: State, s': State, n: Name, f: Frame)
    requires n in s.cells && n in s'.cells && s'.cells == s.cells[n := s'.cells[n]] && s'.closing == s.closing
    requires Settled(s, s', n) && f.CloseFrame? && CloseOk(s, f)
    ensures CloseOk(s', f)
  {
  }

  lemma OtherFrame(s: State, s': State, t: Tid, n: Name, f': Frame, u: Tid, j: nat)
    requires Replaced(s, s', t, n, f') && Touched(s, s', t, n) && ContextsKept(s, s', n) && Settled(s, s', n)
    requires j < |Stack(s, u)| && !(u == t && j == |Stack(s, t)| - 1)
    requires FrameOk(s, u, j)
    requires forall m | m in s.cells :: CellOk(s, m)
    ensures FrameOk(s', u, j)
  {
    OtherChain(s, s', t, n, f', u, j);
    var f := Stack(s, u)[j];
    OtherLocks(s, s', t, n, u, f);
    OtherReload(s, s', t, n, f', u, j);
    match f {
      case PrimFrame(_, _, _) => OtherPrim(s, s', t, n, f', u, j);
      case SwitchFrame(_, _, _, _, _) =>
      case ReloadFrame(_, _, _, _, _, _, _, _) =>
      case CloseFrame(_, _, _, _) => OtherClose(s, s', n, f);
    }
  }

  /** A step that replaces the innermost activation keeps the invariant if it is right locally. */
  lemma ReplaceKeeps(s: State, s': State, t: Tid, n: Name, f': Frame)
    requires Inv(s)
    requires Replaced(s, s', t, n, f') && Touched(s, s', t, n) && ContextsKept(s, s', n) && Settled(s, s', n)
    requires CellOk(s', n) && FrameOk(s', t, |Stack(s, t)| - 1)
    ensures Inv(s')
  {
    hide CellOk, FrameOk, Touched, ContextOk, Stable;
    forall m | m in s'.cells ensures CellOk(s', m) {
      if m != n {
        OtherCell(s, s', t, n, f', m);
      }
    }
    forall u, j: nat | j < |Stack(s', u)| ensures FrameOk(s', u, j) {
      if !(u == t && j == |Stack(s, t)| - 1) {
        OtherFrame(s, s', t, n, f', u, j);
      }
    }
    forall i | 0 <= i < |s'.loans| ensures LoanOk(s', s'.loans[i]) {
      assert LoanOk(s, s.loans[i]);
    }
  }
}
