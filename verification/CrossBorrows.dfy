/**
 * Why borrow bodies must not manage other entries either: two borrowers that
 * each stop the entry that the other one has borrowed wait for ever.
 */
module CrossBorrows {
  import opened Lifecycle
  import opened Plugins
  import opened ContextTree
  import opened Names
  import opened Entries
  import opened Protocol
  import opened Invariant
  import opened PrimSteps
  import opened AllSteps
  import opened Operations
  import opened Runs
  import opened Undisturbed

  const STOP: Prim := Deactivate(false)

  // ---------------------------------------------------------- up to the drain

  /** A thread that may stop an active entry comes to its drain. */
  predicate MayStop(s: State, t: Tid, n: Name) {
    && Stack(s, t) == [] && n in s.cells && s.cells[n].owner.None? && !s.closing
    && s.cells[n].e.state.ACTIVE? && s.cells[n].e.transition.None? && Calling(s.cells[n].e, t) == 0
  }

  function Draining(s: State, t: Tid, n: Name): Spot
    requires n in s.cells
  {
    Spot(PrimFrame(STOP, n, Drain),
      s.cells[n].(owner := Some(t), e := Entries.Begin(s.cells[n].e, OpDeactivate, t), frame := |Stack(s, t)|), s.contexts, s.next)
  }

  lemma ReachesDrain(s: State, t: Tid, n: Name)
    requires MayStop(s, t, n)
    ensures Reaches(s, t, Placed(s, t, n, Draining(s, t, n)))
  {
    hide Next, CanRun, Reaches, Placed;
    var end := Draining(s, t, n);
    var cell := s.cells[n].(owner := Some(t));
    var begin := Spot(PrimFrame(STOP, n, Stage.Begin), cell, s.contexts, s.next);
    var check := begin.(f := PrimFrame(STOP, n, Check));
    var acquire := Spot(PrimFrame(STOP, n, Acquire), s.cells[n], s.contexts, s.next);
    var lookup := acquire.(f := PrimFrame(STOP, n, Lookup));
    var o: Oracle := (_, _) => GaveOther;
    var a := Run(t, Quietly(o, []));
    Stays(Placed(s, t, n, end), t);
    BeginsDrain(s, t, n, begin, o);
    PlacedFacts(s, t, n, begin);
    StepThen(Placed(s, t, n, begin), t, a, Placed(s, t, n, end), Placed(s, t, n, end));
    ChecksOut(s, t, n, check, o);
    PlacedFacts(s, t, n, check);
    StepThen(Placed(s, t, n, check), t, a, Placed(s, t, n, begin), Placed(s, t, n, end));
    AcquireStep(s, t, n, acquire, o, []);
    PlacedFacts(s, t, n, acquire);
    StepThen(Placed(s, t, n, acquire), t, a, Placed(s, t, n, check), Placed(s, t, n, end));
    LookupStep(s, t, n, lookup, o, []);
    PlacedFacts(s, t, n, lookup);
    StepThen(Placed(s, t, n, lookup), t, a, Placed(s, t, n, acquire), Placed(s, t, n, end));
    StartStep(s, t, n, STOP);
    StepThen(s, t, StartOp(t, PrimFrame(STOP, n, Lookup)), Placed(s, t, n, lookup), Placed(s, t, n, end));
  }

  lemma BeginsDrain(s: State, t: Tid, n: Name, p: Spot, o: Oracle)
    requires p.f == PrimFrame(STOP, n, Stage.Begin) && !s.closing
    requires p.cell.e.state.ACTIVE? && p.cell.e.transition.None? && Calling(p.cell.e, t) == 0
    ensures var q := p.(f := PrimFrame(STOP, n, Drain), cell := p.cell.(e := Entries.Begin(p.cell.e, OpDeactivate, t), frame := |Stack(s, t)|));
            Enabled(Placed(s, t, n, p), Run(t, Quietly(o, []))) && Next(Placed(s, t, n, p), Run(t, Quietly(o, []))) == Placed(s, t, n, q)
  {
    hide ToStage, Placed;
    var q := p.(f := PrimFrame(STOP, n, Drain), cell := p.cell.(e := Entries.Begin(p.cell.e, OpDeactivate, t), frame := |Stack(s, t)|));
    PlacedFacts(s, t, n, p);
    PlacedCell(s, t, n, p, q.cell);
    PlacedStage(s, t, n, p.(cell := q.cell), Drain);
  }

  lemma ChecksOut(s: State, t: Tid, n: Name, p: Spot, o: Oracle)
    requires p.f == PrimFrame(STOP, n, Check) && p.cell.e.state.ACTIVE?
    ensures Enabled(Placed(s, t, n, p), Run(t, Quietly(o, [])))
    ensures Next(Placed(s, t, n, p), Run(t, Quietly(o, []))) == Placed(s, t, n, p.(f := PrimFrame(STOP, n, Stage.Begin)))
  {
    hide ToStage, Placed;
    PlacedFacts(s, t, n, p);
    PlacedStage(s, t, n, p, Stage.Begin);
  }

  // ------------------------------------------------------------- the deadlock

  predicate Lends(s: State, n: Name) {
    && n in s.cells && Lendable(s.cells[n].e, None) && s.cells[n].e.transition.None? && s.cells[n].owner.None?
    && s.cells[n].e.context.Some? && s.cells[n].e.context.value in s.contexts
    && s.contexts[s.cells[n].e.context.value].tree.plugin.Some?
  }

  /** The thread waits in an untimed drain for a call in flight, so it can neither go on nor end a borrow. */
  ghost predicate Waits(s: State, t: Tid, n: Name) {
    && Stack(s, t) == [PrimFrame(STOP, n, Drain)] && n in s.cells && s.cells[n].e.inFlight > 0
  }

  lemma WaitingIsStuck(s: State, t: Tid, n: Name)
    requires Waits(s, t, n)
    ensures forall c :: !Enabled(s, Run(t, c))
    ensures forall m, v :: !Enabled(s, EndBorrow(t, m, v))
    ensures forall f :: !Enabled(s, StartOp(t, f))
  {
  }

  lemma BorrowFacts(s: State, t: Tid, n: Name)
    requires Inv(s) && Lends(s, n) && Stack(s, t) == []
    ensures var s' := Next(s, Borrow(t, n, None));
            && Enabled(s, Borrow(t, n, None)) && n in s'.cells && s'.cells[n].e == Lend(s.cells[n].e, t)
            && s'.cells[n].e.inFlight > 0 && s'.cells[n].owner.None?
            && (forall m | m in s.cells && m != n :: m in s'.cells && s'.cells[m] == s.cells[m])
            && s'.contexts == s.contexts && s'.closing == s.closing && s'.stacks == s.stacks && Inv(s')
  {
    hide Inv, CellOk;
    CellOf(s, n);
    CellFacts(s, n);
    LendCounted(s.cells[n].e, t);
    BorrowKeeps(s, Borrow(t, n, None));
  }

  lemma PlacedElsewhere(s: State, t: Tid, n: Name, p: Spot, u: Tid, m: Name)
    requires u != t && m != n && m in s.cells
    ensures var s' := Placed(s, t, n, p);
            Stack(s', u) == Stack(s, u) && m in s'.cells && s'.cells[m] == s.cells[m] && s'.closing == s.closing
  {
  }

  /**
   * From every reachable state in which two idle threads can borrow two entries, a
   * run in which each borrow body stops the other entry, without a timeout, ends
   * with both threads waiting: neither can go on, and neither can end its borrow.
   * The documented rule, which is about a borrower's own entry, does not exclude this.
   */
  lemma CrossBorrowersDeadlock(run: seq<Action>, t: Tid, u: Tid, a: Name, b: Name)
    requires Protocol.Legal(Init, run)
    requires var s := After(Init, run);
             && t != u && a != b && Stack(s, t) == [] && Stack(s, u) == [] && !s.closing
             && Lends(s, a) && Lends(s, b) && Calling(s.cells[b].e, t) == 0 && Calling(s.cells[a].e, u) == 0
    ensures exists s': State ::
              && Leads(After(Init, run), s') && Waits(s', t, b) && Waits(s', u, a)
              && (forall c :: !Enabled(s', Run(t, c)) && !Enabled(s', Run(u, c)))
              && (forall n, v :: !Enabled(s', EndBorrow(t, n, v)) && !Enabled(s', EndBorrow(u, n, v)))
  {
    hide Inv, After, Protocol.Legal, Next, Enabled, Leads, Placed, Reaches;
    Reachable(run);
    var s := After(Init, run);
    BorrowFacts(s, t, a);
    OneStep(s, Borrow(t, a, None));
    var s1 := Next(s, Borrow(t, a, None));
    BorrowFacts(s1, u, b);
    OneStep(s1, Borrow(u, b, None));
    var s2 := Next(s1, Borrow(u, b, None));
    LeadsOn(s, s1, s2);
    ReachesDrain(s2, t, b);
    AloneLeads(s2, t, Placed(s2, t, b, Draining(s2, t, b)));
    var s3 := Placed(s2, t, b, Draining(s2, t, b));
    LeadsOn(s, s2, s3);
    PlacedElsewhere(s2, t, b, Draining(s2, t, b), u, a);
    PlacedFacts(s2, t, b, Draining(s2, t, b));
    ReachesDrain(s3, u, a);
    AloneLeads(s3, u, Placed(s3, u, a, Draining(s3, u, a)));
    var s4 := Placed(s3, u, a, Draining(s3, u, a));
    LeadsOn(s, s3, s4);
    PlacedElsewhere(s3, u, a, Draining(s3, u, a), t, b);
    PlacedFacts(s3, u, a, Draining(s3, u, a));
    WaitingIsStuck(s4, t, b);
    WaitingIsStuck(s4, u, a);
  }
}
