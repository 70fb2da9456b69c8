/** Closing a tree may fail and be retried; no runtime is lost and none is closed twice. */
module CloseTheorems {
  import opened Lifecycle
  import opened ContextTree
  import opened Traces
  import opened StopTheorems

  /** The runtimes that are still open, in the order `close` visits them. */
  function Open(t: Tree): seq<nat>
    decreases t, 1
  {
    (if t.runtime.Some? && !t.runtimeClosed then [t.runtime.value] else []) + OpenKids(t.kids)
  }

  function OpenKids(kids: seq<Tree>): seq<nat>
    decreases kids, 0
  {
    if kids == [] then [] else Open(kids[|kids| - 1]) + OpenKids(kids[..|kids| - 1])
  }

  /**
   * One `close` attempts every open runtime exactly once, in visit order;
   * afterwards exactly those whose attempt failed are open. It returns normally
   * iff none failed, and otherwise raises the first failure.
   */
  lemma {:induction false} ClosePass(o: Oracle, trace: seq<Event>, t: Tree)
    ensures var r := CloseTree(o, trace, t);
            trace <= r.trace &&
            var d := Since(trace, r.trace);
            && Calls(d) == CallsOn(Closing, Open(t))
            && Open(r.tree) == Bad(d)
            && r.error == FirstError(d)
    decreases t, 1
  {
    hide Since, Calls, CallsOn, FirstError, Bad, Reverse;
    var own := CloseOwn(o, trace, t);
    ClosePassKids(o, own.trace, t.kids);
    var r := CloseTree(o, trace, t);
    CloseOwnPass(o, trace, t);
    Between(trace, own.trace, r.trace);
    CallsOnAppend(Closing, if t.runtime.Some? && !t.runtimeClosed then [t.runtime.value] else [], OpenKids(t.kids));
    BadIffError(Since(trace, r.trace));
  }

  /** A close that succeeds lets go of the instance and the children; one that fails keeps both for a retry. */
  lemma CloseForgets(o: Oracle, trace: seq<Event>, t: Tree)
    ensures var r := CloseTree(o, trace, t);
            && (r.error.None? ==>
                  r.tree == t.(plugin := None, kids := [], runtimeClosed := t.runtimeClosed || t.runtime.Some?))
            && (r.error.Some? ==>
                  && r.tree == t.(runtimeClosed := r.tree.runtimeClosed, kids := r.tree.kids)
                  && |r.tree.kids| == |t.kids|)
  {
    ClosePassKids(o, CloseOwn(o, trace, t).trace, t.kids);
  }

  lemma CloseOwnPass(o: Oracle, trace: seq<Event>, t: Tree)
    ensures var r := CloseOwn(o, trace, t);
            trace <= r.trace &&
            var d := Since(trace, r.trace);
            && Calls(d) == CallsOn(Closing, if t.runtime.Some? && !t.runtimeClosed then [t.runtime.value] else [])
            && (if t.runtime.Some? && !r.tree.runtimeClosed then [t.runtime.value] else []) == Bad(d)
            && r.error == FirstError(d)
            && r.tree == t.(runtimeClosed := r.tree.runtimeClosed)
  {
    if t.runtime.Some? && !t.runtimeClosed {
      One(trace, InvokeClose(o, trace, t.runtime.value));
    } else {
      Nothing(trace);
    }
  }

  lemma {:induction false} ClosePassKids(o: Oracle, trace: seq<Event>, kids: seq<Tree>)
    ensures var r := CloseKids(o, trace, kids);
            trace <= r.trace && |r.kids| == |kids| &&
            var d := Since(trace, r.trace);
            && Calls(d) == CallsOn(Closing, OpenKids(kids))
            && OpenKids(r.kids) == Bad(d)
            && r.error == FirstError(d)
    decreases kids, 0
  {
    if kids == [] {
      Nothing(trace);
    } else {
      hide Since, Calls, CallsOn, FirstError, Bad, Reverse, CloseTree, Open;
      var n := |kids| - 1;
      var last := CloseTree(o, trace, kids[n]);
      var rest := CloseKids(o, last.trace, kids[..n]);
      ClosePass(o, trace, kids[n]);
      ClosePassKids(o, last.trace, kids[..n]);
      Between(trace, last.trace, rest.trace);
      CallsOnAppend(Closing, Open(kids[n]), OpenKids(kids[..n]));
      assert (rest.kids + [last.tree])[..n] == rest.kids;
    }
  }

  /** A sequence of `close()` calls on the same tree, each with its own outcomes. */
  function CloseAgain(os: seq<Oracle>, trace: seq<Event>, t: Tree): (Tree, seq<Event>) {
    if os == [] then (t, trace)
    else
      var r := CloseTree(os[0], trace, t);
      CloseAgain(os[1..], r.trace, r.tree)
  }

  lemma CloseNext(os: seq<Oracle>, trace: seq<Event>, t: Tree)
    requires os != []
    ensures var r := CloseTree(os[0], trace, t); CloseAgain(os, trace, t) == CloseAgain(os[1..], r.trace, r.tree)
  {
    hide CloseTree;
  }

  /** One close attempt moves runtimes from open to closed and loses none. */
  lemma OneClose(o: Oracle, trace: seq<Event>, t: Tree)
    ensures var r := CloseTree(o, trace, t);
            && trace <= r.trace
            && multiset(Good(Since(trace, r.trace))) + multiset(Open(r.tree)) == multiset(Open(t))
            && (Open(t) == [] ==> r.trace == trace && Open(r.tree) == [])
  {
    hide Since, Calls, CallsOn, FirstError, Bad, Reverse, Good, Targets, CloseTree, Open;
    var r := CloseTree(o, trace, t);
    ClosePass(o, trace, t);
    GoodAndBad(Since(trace, r.trace));
    TargetsOfCalls(Closing, Since(trace, r.trace), Open(t));
    if Open(t) == [] {
      NoEvents(trace, r.trace);
    }
  }

  /**
   * Over any number of close attempts every runtime of the original tree is
   * accounted for: it was closed successfully exactly once, or it is still open.
   * Once one call returns normally all of them have been closed.
   */
  lemma {:induction false} RuntimesAreConserved(os: seq<Oracle>, trace: seq<Event>, t: Tree)
    ensures var (t', trace') := CloseAgain(os, trace, t);
            && trace <= trace'
            && multiset(Good(Since(trace, trace'))) + multiset(Open(t')) == multiset(Open(t))
            && (Open(t) == [] ==> trace' == trace && Open(t') == [])
  {
    hide Since, Good, CloseTree, Open, CloseAgain;
    if os == [] {
      CloseNever(trace, t);
    } else {
      var r := CloseTree(os[0], trace, t);
      OneClose(os[0], trace, t);
      RuntimesAreConserved(os[1..], r.trace, r.tree);
      CloseNext(os, trace, t);
      var (t', trace') := CloseAgain(os, trace, t);
      Between(trace, r.trace, trace');
      GoodAppend(Since(trace, r.trace), Since(r.trace, trace'));
      Sums(Good(Since(trace, r.trace)), Good(Since(r.trace, trace')), Open(t), Open(r.tree), Open(t'));
    }
  }

  lemma CloseNever(trace: seq<Event>, t: Tree)
    ensures CloseAgain([], trace, t) == (t, trace) && Good(Since(trace, trace)) == []
  {
    Nothing(trace);
    assert Good([]) == [];
  }

  lemma Sums(a: seq<nat>, b: seq<nat>, before: seq<nat>, between: seq<nat>, after: seq<nat>)
    requires multiset(a) + multiset(between) == multiset(before) && multiset(b) + multiset(after) == multiset(between)
    ensures multiset(a + b) + multiset(after) == multiset(before)
  {
  }

  lemma NoEvents(trace: seq<Event>, trace': seq<Event>)
    requires trace <= trace' && Targets(Since(trace, trace')) == []
    ensures trace' == trace && Bad(Since(trace, trace')) == []
  {
    var d := Since(trace, trace');
    assert d == [];
    assert trace' == trace + d;
  }

  /** A normal return means every runtime of the original tree is closed, and no later call touches one. */
  lemma NormalCloseIsFinal(os: seq<Oracle>, o: Oracle, later: seq<Oracle>, trace: seq<Event>, t: Tree)
    requires var (t1, trace1) := CloseAgain(os, trace, t); CloseTree(o, trace1, t1).error.None?
    ensures var (t1, trace1) := CloseAgain(os, trace, t);
            var r := CloseTree(o, trace1, t1);
            && trace <= r.trace
            && multiset(Good(Since(trace, r.trace))) == multiset(Open(t))
            && CloseAgain(later, r.trace, r.tree).1 == r.trace
  {
    hide Since, Calls, CallsOn, FirstError, Bad, Reverse, Good, Targets, CloseTree, Open, CloseAgain;
    var (t1, trace1) := CloseAgain(os, trace, t);
    var r := CloseTree(o, trace1, t1);
    RuntimesAreConserved(os, trace, t);
    ClosePass(o, trace1, t1);
    var d := Since(trace1, r.trace);
    BadIffError(d);
    Between(trace, trace1, r.trace);
    GoodAppend(Since(trace, trace1), d);
    GoodAndBad(d);
    TargetsOfCalls(Closing, d, Open(t1));
    RuntimesAreConserved(later, r.trace, r.tree);
  }

  /** Closing a tree that owes no deactivation leaves it that way. */
  lemma {:induction false} CloseOwesNothing(o: Oracle, trace: seq<Event>, t: Tree)
    requires WellFormed(t) && Owing(t) == []
    ensures var r := CloseTree(o, trace, t); WellFormed(r.tree) && Owing(r.tree) == []
    decreases t, 1
  {
    var own := CloseOwn(o, trace, t);
    CloseOwesNothingKids(o, own.trace, t.kids);
  }

  lemma {:induction false} CloseOwesNothingKids(o: Oracle, trace: seq<Event>, kids: seq<Tree>)
    requires WellFormedKids(kids) && OwingKids(kids) == []
    ensures var r := CloseKids(o, trace, kids); WellFormedKids(r.kids) && OwingKids(r.kids) == []
    decreases kids, 0
  {
    if kids != [] {
      hide CloseTree, Owing, WellFormed;
      var n := |kids| - 1;
      var last := CloseTree(o, trace, kids[n]);
      var rest := CloseKids(o, last.trace, kids[..n]);
      CloseOwesNothing(o, trace, kids[n]);
      CloseOwesNothingKids(o, last.trace, kids[..n]);
      assert (rest.kids + [last.tree])[..|rest.kids|] == rest.kids;
    }
  }
}
