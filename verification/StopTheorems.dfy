/**
 * What one `deactivate`, `cleanup` or `configure` pass does to a whole tree,
 * for every tree and every callback behaviour.
 */
module StopTheorems {
  import opened Lifecycle
  import opened Plugins
  import opened ContextTree
  import opened Traces

  predicate AllNative(t: Tree)
    decreases t, 1
  {
    Native(t) && AllNativeKids(t.kids)
  }

  predicate AllNativeKids(kids: seq<Tree>)
    decreases kids, 0
  {
    kids == [] || (AllNative(kids[|kids| - 1]) && AllNativeKids(kids[..|kids| - 1]))
  }

  /** Only a node with a local instance can owe a deactivation. */
  predicate WellFormed(t: Tree)
    decreases t, 1
  {
    (t.outstanding ==> Local(t)) && WellFormedKids(t.kids)
  }

  predicate WellFormedKids(kids: seq<Tree>)
    decreases kids, 0
  {
    kids == [] || (WellFormed(kids[|kids| - 1]) && WellFormedKids(kids[..|kids| - 1]))
  }

  /** Every instance of the tree was started and has not been stopped since. */
  predicate AllStarted(t: Tree)
    decreases t, 1
  {
    (t.plugin.Some? ==> t.outstanding) && AllStartedKids(t.kids)
  }

  predicate AllStartedKids(kids: seq<Tree>)
    decreases kids, 0
  {
    kids == [] || (AllStarted(kids[0]) && AllStartedKids(kids[1..]))
  }

  /** The nodes that owe a deactivation, parent first, children from last to first. */
  function Owing(t: Tree): seq<nat>
    decreases t, 1
  {
    (if t.outstanding then [t.id] else []) + OwingKids(t.kids)
  }

  function OwingKids(kids: seq<Tree>): seq<nat>
    decreases kids, 0
  {
    if kids == [] then [] else Owing(kids[|kids| - 1]) + OwingKids(kids[..|kids| - 1])
  }

  /** Everything about a tree that no activation or deactivation may change. */
  function Shape(t: Tree): Tree
    decreases t, 1
  {
    t.(outstanding := false, kids := Shapes(t.kids))
  }

  function Shapes(kids: seq<Tree>): (r: seq<Tree>)
    ensures |r| == |kids|
    decreases kids, 0
  {
    if kids == [] then [] else Shapes(kids[..|kids| - 1]) + [Shape(kids[|kids| - 1])]
  }

  /**
   * One deactivation pass calls exactly the outstanding nodes, each once, parent
   * before children in reverse order, whatever fails on the way. Afterwards
   * exactly the nodes whose call failed are outstanding. It returns normally
   * iff no call failed and the tree is native, raises the first error of a
   * native tree, and exports state only if the root's callback ran in this pass.
   */
  lemma {:induction false} DeactivatePass(o: Oracle, trace: seq<Event>, t: Tree)
    requires WellFormed(t)
    ensures var r := DeactivateTree(o, trace, t);
            trace <= r.trace &&
            var d := Since(trace, r.trace);
            && Calls(d) == CallsOn(Deactivating, Owing(t))
            && Owing(r.tree) == Bad(d)
            && (r.error.None? <==> AllNative(t) && Bad(d) == [])
            && (AllNative(t) ==> r.error == FirstError(d))
            && WellFormed(r.tree) && Shape(r.tree) == Shape(t)
    decreases t, 1
  {
    var own := DeactivateOwn(o, trace, t);
    var r := DeactivateTree(o, trace, t);
    DeactivateOwnPass(o, trace, t);
    DeactivatePassKids(o, own.trace, t.kids);
    Between(trace, own.trace, r.trace);
    BadIffError(Since(trace, own.trace));
    CallsOnAppend(Deactivating, if t.outstanding then [t.id] else [], OwingKids(t.kids));
  }

  lemma DeactivateOwnPass(o: Oracle, trace: seq<Event>, t: Tree)
    requires t.outstanding ==> Local(t)
    ensures var r := DeactivateOwn(o, trace, t);
            trace <= r.trace &&
            var d := Since(trace, r.trace);
            && r.tree == t.(outstanding := r.tree.outstanding)
            && (r.tree.outstanding ==> Local(r.tree))
            && Calls(d) == CallsOn(Deactivating, if t.outstanding then [t.id] else [])
            && (if r.tree.outstanding then [t.id] else []) == Bad(d)
            && (r.error.None? <==> Native(t) && Bad(d) == [])
            && (Native(t) ==> r.error == FirstError(d))
  {
    if t.outstanding {
      One(trace, InvokeDeactivate(o, trace, t.plugin.value, t.id));
    } else {
      Nothing(trace);
    }
  }

  lemma {:induction false} DeactivatePassKids(o: Oracle, trace: seq<Event>, kids: seq<Tree>)
    requires WellFormedKids(kids)
    ensures var r := DeactivateKids(o, trace, kids);
            trace <= r.trace && |r.kids| == |kids| &&
            var d := Since(trace, r.trace);
            && Calls(d) == CallsOn(Deactivating, OwingKids(kids))
            && OwingKids(r.kids) == Bad(d)
            && (r.error.None? <==> AllNativeKids(kids) && Bad(d) == [])
            && (AllNativeKids(kids) ==> r.error == FirstError(d))
            && WellFormedKids(r.kids) && Shapes(r.kids) == Shapes(kids)
    decreases kids, 0
  {
    if kids == [] {
      Nothing(trace);
    } else {
      var n := |kids| - 1;
      var last := DeactivateTree(o, trace, kids[n]);
      var rest := DeactivateKids(o, last.trace, kids[..n]);
      DeactivatePass(o, trace, kids[n]);
      DeactivatePassKids(o, last.trace, kids[..n]);
      Between(trace, last.trace, rest.trace);
      BadIffError(Since(trace, last.trace));
      CallsOnAppend(Deactivating, Owing(kids[n]), OwingKids(kids[..n]));
      assert (rest.kids + [last.tree])[..n] == rest.kids;
    }
  }

  /** State leaves a tree only in a pass in which the root's own callback ran and nothing failed. */
  lemma ExportOnlyFromThisPass(o: Oracle, trace: seq<Event>, t: Tree)
    requires WellFormed(t)
    ensures var r := DeactivateTree(o, trace, t);
            && trace <= r.trace
            && (r.error.Some? || !t.outstanding ==> r.state.None?)
            && (r.error.None? && t.outstanding ==>
                  && Since(trace, r.trace) != []
                  && Since(trace, r.trace)[0].call == OnDeactivate(t.id)
                  && r.state == Exported(t.plugin.value, Since(trace, r.trace)[0].raw)
                  && Accepts(t.plugin.value, r.state))
  {
    hide Calls, CallsOn, Bad, Owing, OwingKids, Shape, Shapes, AllNative, AllNativeKids, WellFormedKids, FirstError, DeactivateKids;
    DeactivatePass(o, trace, t);
    if t.outstanding {
      var e := InvokeDeactivate(o, trace, t.plugin.value, t.id);
      DeactivatePassKids(o, DeactivateOwn(o, trace, t).trace, t.kids);
      One(trace, e);
      assert trace + [e] <= DeactivateTree(o, trace, t).trace;
    }
  }

  /** A retried pass calls exactly the nodes that failed in the pass before it. */
  lemma RetryCallsTheFailures(o: Oracle, trace: seq<Event>, o2: Oracle, trace2: seq<Event>, t: Tree)
    requires WellFormed(t)
    ensures var r := DeactivateTree(o, trace, t);
            var r2 := DeactivateTree(o2, trace2, r.tree);
            && trace <= r.trace && trace2 <= r2.trace
            && Calls(Since(trace2, r2.trace)) == CallsOn(Deactivating, Bad(Since(trace, r.trace)))
            && (r.error.None? ==> Since(trace2, r2.trace) == [])
  {
    DeactivatePass(o, trace, t);
    DeactivatePass(o2, trace2, DeactivateTree(o, trace, t).tree);
  }
}
