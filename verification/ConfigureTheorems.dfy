/** `configure` and `cleanup` visit a tree in mirrored orders. */
module ConfigureTheorems {
  import opened Lifecycle
  import opened Plugins
  import opened ContextTree
  import opened Traces
  import opened StopTheorems
  import opened StartTheorems

  /** The local instances, children first in slot order. */
  function ChildrenFirst(t: Tree): seq<nat>
    decreases t, 1
  {
    ChildrenFirstKids(t.kids) + (if Local(t) then [t.id] else [])
  }

  function ChildrenFirstKids(kids: seq<Tree>): seq<nat>
    decreases kids, 0
  {
    if kids == [] then [] else ChildrenFirst(kids[0]) + ChildrenFirstKids(kids[1..])
  }

  /** The local instances, parent first, children from last to first. */
  function ParentFirst(t: Tree): seq<nat>
    decreases t, 1
  {
    (if Local(t) then [t.id] else []) + ParentFirstKids(t.kids)
  }

  function ParentFirstKids(kids: seq<Tree>): seq<nat>
    decreases kids, 0
  {
    if kids == [] then [] else ParentFirst(kids[|kids| - 1]) + ParentFirstKids(kids[..|kids| - 1])
  }

  lemma {:induction false} ChildrenFirstSplit(a: seq<Tree>, b: seq<Tree>)
    ensures ChildrenFirstKids(a + b) == ChildrenFirstKids(a) + ChildrenFirstKids(b)
  {
    if a == [] {
      assert a + b == b;
    } else {
      assert (a + b)[1..] == a[1..] + b;
      ChildrenFirstSplit(a[1..], b);
    }
  }

  lemma {:induction false} MirroredOrders(t: Tree)
    ensures ParentFirst(t) == Reverse(ChildrenFirst(t))
    decreases t, 1
  {
    MirroredOrdersKids(t.kids);
    ReverseAppend(ChildrenFirstKids(t.kids), if Local(t) then [t.id] else []);
  }

  lemma {:induction false} MirroredOrdersKids(kids: seq<Tree>)
    ensures ParentFirstKids(kids) == Reverse(ChildrenFirstKids(kids))
    decreases kids, 0
  {
    if kids != [] {
      var n := |kids| - 1;
      MirroredOrders(kids[n]);
      MirroredOrdersKids(kids[..n]);
      assert kids == kids[..n] + [kids[n]];
      ChildrenFirstSplit(kids[..n], [kids[n]]);
      assert ChildrenFirstKids([kids[n]]) == ChildrenFirst(kids[n]);
      ReverseAppend(ChildrenFirstKids(kids[..n]), ChildrenFirst(kids[n]));
    }
  }

  /** Nothing but possibly the last call failed. */
  predicate StopsAtFailure(d: seq<Event>, error: Option<Error>) {
    if error.None? then Bad(d) == []
    else d != [] && error == ErrorOf(d[|d| - 1]) && Bad(d[..|d| - 1]) == []
  }

  lemma StopsLater(a: seq<Event>, b: seq<Event>, error: Option<Error>)
    requires Bad(a) == [] && StopsAtFailure(b, error)
    ensures StopsAtFailure(a + b, error)
  {
    hide Bad;
    BadAppend(a, b);
    if error.Some? {
      assert (a + b)[..|a + b| - 1] == a + b[..|b| - 1];
      BadAppend(a, b[..|b| - 1]);
    }
  }

  /** `configure` calls a prefix of the children-first order and stops at the first failure. */
  lemma {:induction false} ConfigurePass(o: Oracle, trace: seq<Event>, t: Tree)
    ensures var r := ConfigureTree(o, trace, t);
            trace <= r.trace &&
            var d := Since(trace, r.trace);
            && Calls(d) <= CallsOn(Configuring, ChildrenFirst(t))
            && (r.error.None? ==> Calls(d) == CallsOn(Configuring, ChildrenFirst(t)))
            && StopsAtFailure(d, r.error)
            && r.tree == t
    decreases t, 1
  {
    hide Calls, CallsOn, Bad, Reverse;
    ConfigurePassKids(o, trace, t.kids);
    var k := ConfigureKids(o, trace, t.kids);
    CallsOnAppend(Configuring, ChildrenFirstKids(t.kids), if Local(t) then [t.id] else []);
    OneCallOn(Configuring, t.id);
    if k.error.None? && Local(t) {
      var e := Invoke(o, k.trace, OnConfigure(t.id));
      Then(trace, k.trace, e);
      var d := Since(trace, k.trace);
      assert (d + [e])[..|d + [e]| - 1] == d;
    }
  }

  lemma OneCallOn(phase: Phase, node: nat)
    ensures CallsOn(phase, [node]) == [CallOn(phase, node)]
    ensures CallsOn(phase, []) == []
  {
  }

  lemma {:induction false} ConfigurePassKids(o: Oracle, trace: seq<Event>, kids: seq<Tree>)
    ensures var r := ConfigureKids(o, trace, kids);
            trace <= r.trace &&
            var d := Since(trace, r.trace);
            && Calls(d) <= CallsOn(Configuring, ChildrenFirstKids(kids))
            && (r.error.None? ==> Calls(d) == CallsOn(Configuring, ChildrenFirstKids(kids)))
            && StopsAtFailure(d, r.error)
            && r.kids == kids
    decreases kids, 0
  {
    if kids == [] {
      Nothing(trace);
    } else {
      hide Since, Calls, CallsOn, Bad, Reverse, ConfigureTree, ChildrenFirst, StopsAtFailure;
      var head := ConfigureTree(o, trace, kids[0]);
      ConfigurePass(o, trace, kids[0]);
      CallsOnAppend(Configuring, ChildrenFirst(kids[0]), ChildrenFirstKids(kids[1..]));
      if head.error.None? {
        ConfigurePassKids(o, head.trace, kids[1..]);
        var rest := ConfigureKids(o, head.trace, kids[1..]);
        Between(trace, head.trace, rest.trace);
        assert Bad(Since(trace, head.trace)) == [] by { NothingBad(Since(trace, head.trace)); }
        StopsLater(Since(trace, head.trace), Since(head.trace, rest.trace), rest.error);
      }
    }
  }

  lemma NothingBad(d: seq<Event>)
    requires StopsAtFailure(d, None)
    ensures Bad(d) == []
  {
  }

  /** `cleanup` calls every local instance, parent first, and raises the first failure. */
  lemma {:induction false} CleanupPass(o: Oracle, trace: seq<Event>, t: Tree)
    ensures var r := CleanupTree(o, trace, t);
            trace <= r.trace &&
            var d := Since(trace, r.trace);
            && Calls(d) == CallsOn(CleaningUp, ParentFirst(t))
            && r.error == FirstError(d)
            && r.tree == t
    decreases t, 1
  {
    hide Since, Calls, CallsOn, FirstError, Reverse;
    var before := if Local(t) then trace + [Invoke(o, trace, OnCleanup(t.id))] else trace;
    CleanupPassKids(o, before, t.kids);
    CallsOnAppend(CleaningUp, if Local(t) then [t.id] else [], ParentFirstKids(t.kids));
    OneCallOn(CleaningUp, t.id);
    Nothing(trace);
    NoCalls();
    if Local(t) {
      One(trace, Invoke(o, trace, OnCleanup(t.id)));
    }
    Between(trace, before, CleanupTree(o, trace, t).trace);
  }

  lemma NoCalls()
    ensures Calls([]) == [] && FirstError([]).None?
  {
  }

  lemma {:induction false} CleanupPassKids(o: Oracle, trace: seq<Event>, kids: seq<Tree>)
    ensures var r := CleanupKids(o, trace, kids);
            trace <= r.trace &&
            var d := Since(trace, r.trace);
            && Calls(d) == CallsOn(CleaningUp, ParentFirstKids(kids))
            && r.error == FirstError(d)
            && r.kids == kids
    decreases kids, 0
  {
    if kids == [] {
      Nothing(trace);
    } else {
      hide Since, Calls, CallsOn, FirstError, Reverse, CleanupTree, ParentFirst;
      var n := |kids| - 1;
      var last := CleanupTree(o, trace, kids[n]);
      CleanupPass(o, trace, kids[n]);
      CleanupPassKids(o, last.trace, kids[..n]);
      Between(trace, last.trace, CleanupKids(o, last.trace, kids[..n]).trace);
      CallsOnAppend(CleaningUp, ParentFirst(kids[n]), ParentFirstKids(kids[..n]));
    }
  }

  /**
   * After a successful configure, a cleanup visits exactly the same instances
   * in the exact reverse order, even if cleanup callbacks fail.
   */
  lemma CleanupMirrorsConfigure(o: Oracle, trace: seq<Event>, o2: Oracle, trace2: seq<Event>, t: Tree)
    requires ConfigureTree(o, trace, t).error.None?
    ensures var c := ConfigureTree(o, trace, t);
            var u := CleanupTree(o2, trace2, t);
            && trace <= c.trace && trace2 <= u.trace
            && Targets(Since(trace2, u.trace)) == Reverse(Targets(Since(trace, c.trace)))
  {
    ConfigurePass(o, trace, t);
    CleanupPass(o2, trace2, t);
    MirroredOrders(t);
    TargetsOfCalls(Configuring, Since(trace, ConfigureTree(o, trace, t).trace), ChildrenFirst(t));
    TargetsOfCalls(CleaningUp, Since(trace2, CleanupTree(o2, trace2, t).trace), ParentFirst(t));
  }

  /** After a successful activation, a deactivation calls the same nodes in the exact reverse order. */
  lemma DeactivateMirrorsActivate(o: Oracle, trace: seq<Event>, o2: Oracle, trace2: seq<Event>, t: Tree,
      state: Option<Value>)
    requires WellFormed(t) && ActivateTree(o, trace, t, state).error.None?
    ensures var a := ActivateTree(o, trace, t, state);
            var d := DeactivateTree(o2, trace2, a.tree);
            && trace <= a.trace && trace2 <= d.trace
            && Targets(Since(trace2, d.trace)) == Reverse(Targets(Since(trace, a.trace)))
  {
    var a := ActivateTree(o, trace, t, state);
    ActivateSucceeds(o, trace, t, state);
    DeactivatePass(o2, trace2, a.tree);
    TargetsOfCalls(Deactivating, Since(trace2, DeactivateTree(o2, trace2, a.tree).trace), Owing(a.tree));
  }
}
