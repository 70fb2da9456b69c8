/**
 * What `activate` does to a whole tree: it either activates every node, or it
 * unwinds, and then exactly the calls that failed are still owed.
 */
module StartTheorems {
  import opened Lifecycle
  import opened Plugins
  import opened ContextTree
  import opened Traces
  import opened StopTheorems

  /** The activation calls of a run in which nothing fails: children first, in slot order. */
  function Planned(t: Tree, state: Option<Value>): seq<Call>
    decreases t, 1
  {
    PlannedKids(t.kids)
    + (if t.plugin.Some? then [OnActivate(t.id, ActivateArgs(t.plugin.value, state))] else [])
  }

  function PlannedKids(kids: seq<Tree>): seq<Call>
    decreases kids, 0
  {
    if kids == [] then [] else Planned(kids[0], None) + PlannedKids(kids[1..])
  }

  lemma {:induction false} OwingAppend(a: seq<Tree>, b: seq<Tree>)
    ensures OwingKids(a + b) == OwingKids(b) + OwingKids(a)
    ensures WellFormedKids(a + b) <==> WellFormedKids(a) && WellFormedKids(b)
    ensures AllNativeKids(a + b) <==> AllNativeKids(a) && AllNativeKids(b)
    ensures Shapes(a + b) == Shapes(a) + Shapes(b)
    decreases |b|
  {
    hide Owing, WellFormed, AllNative, Shape;
    if b == [] {
      assert a + b == a;
      NothingOwed();
    } else {
      var n := |b| - 1;
      OwingAppend(a, b[..n]);
      OwingLast(a + b[..n], b[n]);
      OwingLast(b[..n], b[n]);
      assert b[..n] + [b[n]] == b;
      assert (a + b[..n]) + [b[n]] == a + b;
      assert (Owing(b[n]) + OwingKids(b[..n])) + OwingKids(a) == Owing(b[n]) + (OwingKids(b[..n]) + OwingKids(a));
      assert Shapes(a) + (Shapes(b[..n]) + [Shape(b[n])]) == (Shapes(a) + Shapes(b[..n])) + [Shape(b[n])];
    }
  }

  lemma NothingOwed()
    ensures OwingKids([]) == [] && WellFormedKids([]) && AllNativeKids([]) && Shapes([]) == []
  {
  }

  /** The functions above, one child at a time. */
  lemma OwingLast(kids: seq<Tree>, last: Tree)
    ensures OwingKids(kids + [last]) == Owing(last) + OwingKids(kids)
    ensures WellFormedKids(kids + [last]) <==> WellFormed(last) && WellFormedKids(kids)
    ensures AllNativeKids(kids + [last]) <==> AllNative(last) && AllNativeKids(kids)
    ensures Shapes(kids + [last]) == Shapes(kids) + [Shape(last)]
  {
    hide Owing, WellFormed, AllNative, Shape;
    assert (kids + [last])[..|kids|] == kids;
  }

  lemma OwingOne(t: Tree)
    ensures OwingKids([t]) == Owing(t)
    ensures WellFormedKids([t]) <==> WellFormed(t)
    ensures AllNativeKids([t]) <==> AllNative(t)
    ensures Shapes([t]) == [Shape(t)]
  {
    assert [t][..0] == [];
  }

  /** Take the first child off: the functions above are defined from the last. */
  lemma OwingHead(kids: seq<Tree>)
    requires kids != []
    ensures OwingKids(kids) == OwingKids(kids[1..]) + Owing(kids[0])
    ensures WellFormedKids(kids) <==> WellFormed(kids[0]) && WellFormedKids(kids[1..])
    ensures AllNativeKids(kids) <==> AllNative(kids[0]) && AllNativeKids(kids[1..])
    ensures Shapes(kids) == [Shape(kids[0])] + Shapes(kids[1..])
  {
    OwingOne(kids[0]);
    OwingAppend([kids[0]], kids[1..]);
    assert [kids[0]] + kids[1..] == kids;
  }

  /**
   * A successful activation makes exactly the planned calls, and leaves every
   * node it called outstanding, in the reverse of the order of the calls.
   */
  lemma {:induction false} ActivateSucceeds(o: Oracle, trace: seq<Event>, t: Tree, state: Option<Value>)
    requires WellFormed(t) && ActivateTree(o, trace, t, state).error.None?
    ensures var r := ActivateTree(o, trace, t, state);
            trace <= r.trace &&
            var d := Since(trace, r.trace);
            && Calls(d) == Planned(t, state)
            && Bad(d) == []
            && Owing(r.tree) == Reverse(Targets(d))
            && WellFormed(r.tree) && AllNative(t) && Shape(r.tree) == Shape(t)
    decreases t, 1
  {
    var k := ActivateKids(o, trace, t.kids);
    var r := ActivateTree(o, trace, t, state);
    ActivateKidsSucceed(o, trace, t.kids);
    if t.plugin.Some? {
      var e := Invoke(o, k.trace, OnActivate(t.id, ActivateArgs(t.plugin.value, state)));
      Then(trace, k.trace, e);
    }
  }

  /** A successful activation leaves every instance started. */
  lemma {:induction false} ActivateStartsAll(o: Oracle, trace: seq<Event>, t: Tree, state: Option<Value>)
    requires ActivateTree(o, trace, t, state).error.None?
    ensures AllStarted(ActivateTree(o, trace, t, state).tree)
    decreases t, 1
  {
    ActivateKidsStartAll(o, trace, t.kids);
  }

  lemma {:induction false} ActivateKidsStartAll(o: Oracle, trace: seq<Event>, kids: seq<Tree>)
    requires ActivateKids(o, trace, kids).error.None?
    ensures AllStartedKids(ActivateKids(o, trace, kids).kids)
    decreases kids, 0
  {
    if kids != [] {
      var head := ActivateTree(o, trace, kids[0], None);
      ActivateStartsAll(o, trace, kids[0], None);
      ActivateKidsStartAll(o, head.trace, kids[1..]);
      assert ActivateKids(o, trace, kids).kids[1..] == ActivateKids(o, head.trace, kids[1..]).kids;
    }
  }

  lemma {:induction false} ActivateKidsSucceed(o: Oracle, trace: seq<Event>, kids: seq<Tree>)
    requires WellFormedKids(kids) && ActivateKids(o, trace, kids).error.None?
    ensures var r := ActivateKids(o, trace, kids);
            trace <= r.trace && r.count == |kids| &&
            var d := Since(trace, r.trace);
            && Calls(d) == PlannedKids(kids)
            && Bad(d) == []
            && OwingKids(r.kids) == Reverse(Targets(d))
            && WellFormedKids(r.kids) && AllNativeKids(kids) && Shapes(r.kids) == Shapes(kids)
    decreases kids, 0
  {
    if kids == [] {
      Nothing(trace);
    } else {
      hide Since, Calls, Bad, Targets, Reverse, OwingKids, WellFormedKids, AllNativeKids, Shapes, ActivateTree;
      var head := ActivateTree(o, trace, kids[0], None);
      var rest := ActivateKids(o, head.trace, kids[1..]);
      var r := ActivateKids(o, trace, kids);
      OwingHead(kids);
      OwingHead(r.kids);
      ActivateSucceeds(o, trace, kids[0], None);
      ActivateKidsSucceed(o, head.trace, kids[1..]);
      Between(trace, head.trace, rest.trace);
      assert r.kids[1..] == rest.kids;
    }
  }

  /**
   * A stretch of a failed activation: the calls of `done` succeeded, `hit` holds
   * the one call that failed (nothing, if the failure was not a callback), and
   * `undo` stops the nodes of `done`, each once, in reverse order.
   */
  ghost predicate Unwound(d: seq<Event>, done: seq<Event>, hit: seq<Event>, undo: seq<Event>, planned: seq<Call>) {
    && d == done + hit + undo
    && Calls(done + hit) <= planned
    && Bad(done) == []
    && (hit == [] || (|hit| == 1 && hit[0].fault.Some?))
    && Calls(undo) == CallsOn(Deactivating, Reverse(Targets(done)))
  }

  predicate FirstFailure(hit: seq<Event>, error: Option<Error>) {
    if hit != [] then error == ErrorOf(hit[0])
    else error.Some? && (error.value.AdaptedActivation? || error.value.UnacceptedState?)
  }

  /**
   * A failed activation of a tree that owed nothing unwinds: it made a prefix of
   * the planned calls, stopped every node that had completed in reverse order,
   * raised the original error, and now exactly the nodes whose own call failed
   * are outstanding: the node that could not start, if any, and the nodes that
   * could not be stopped again.
   */
  lemma {:induction false} ActivateFails(o: Oracle, trace: seq<Event>, t: Tree, state: Option<Value>)
    returns (done: seq<Event>, hit: seq<Event>, undo: seq<Event>)
    requires WellFormed(t) && Owing(t) == [] && ActivateTree(o, trace, t, state).error.Some?
    ensures var r := ActivateTree(o, trace, t, state);
            && trace <= r.trace
            && Unwound(Since(trace, r.trace), done, hit, undo, Planned(t, state))
            && Owing(r.tree) == Bad(Since(trace, r.trace)) == Targets(hit) + Bad(undo)
            && FirstFailure(hit, r.error)
            && (AllNative(t) && RootAccepts(t, state) ==> hit != [])
            && WellFormed(r.tree) && Shape(r.tree) == Shape(t)
    decreases t, 1
  {
    var r := ActivateTree(o, trace, t, state);
    if !Native(t) || !RootAccepts(t, state) {
      Nothing(trace);
      done, hit, undo := [], [], [];
    } else {
      var k := ActivateKids(o, trace, t.kids);
      if k.error.Some? {
        var before, done1, undo1;
        before, done1, hit, undo1 := ActivateKidsFail(o, trace, t.kids);
        done, undo := RollbackAfterKids(o, trace, k, before, done1, hit, undo1, PlannedKids(t.kids));
      } else {
        done, hit, undo := RootFails(o, trace, t, state);
      }
      BadOfParts(done, hit, undo);
    }
  }

  /** The root's own callback failed after all children had started. */
  lemma {:induction false} RootFails(o: Oracle, trace: seq<Event>, t: Tree, state: Option<Value>)
    returns (done: seq<Event>, hit: seq<Event>, undo: seq<Event>)
    requires WellFormed(t) && Native(t) && RootAccepts(t, state)
    requires ActivateKids(o, trace, t.kids).error.None? && ActivateTree(o, trace, t, state).error.Some?
    ensures var r := ActivateTree(o, trace, t, state);
            && trace <= r.trace
            && Unwound(Since(trace, r.trace), done, hit, undo, Planned(t, state))
            && Owing(r.tree) == Targets(hit) + Bad(undo)
            && FirstFailure(hit, r.error) && hit != []
            && WellFormed(r.tree) && Shape(r.tree) == Shape(t)
  {
    hide Since, Calls, Bad, Targets, Reverse, CallsOn, OwingKids, WellFormedKids, AllNativeKids, Shapes, DeactivateKids, ActivateKids;
    var r := ActivateTree(o, trace, t, state);
    var k := ActivateKids(o, trace, t.kids);
    ActivateKidsSucceed(o, trace, t.kids);
    var e := Invoke(o, k.trace, OnActivate(t.id, ActivateArgs(t.plugin.value, state)));
    assert k.kids[..|k.kids|] == k.kids;
    var u := DeactivateKids(o, k.trace + [e], k.kids);
    DeactivatePassKids(o, k.trace + [e], k.kids);
    assert u.kids + k.kids[|k.kids|..] == u.kids;
    assert r.tree == t.(outstanding := true, kids := u.kids);
    var mid := k.trace + [e];
    done, hit, undo := Since(trace, k.trace), [e], Since(mid, r.trace);
    Then(trace, k.trace, e);
    Between(trace, mid, r.trace);
    One(k.trace, e);
  }

  /** A parent rolls back the children that completed before the one that failed. */
  lemma {:induction false} RollbackAfterKids(o: Oracle, trace: seq<Event>, k: KidsResult,
      before: seq<Event>, done: seq<Event>, hit: seq<Event>, undo: seq<Event>, planned: seq<Call>)
    returns (done': seq<Event>, undo': seq<Event>)
    requires trace <= k.trace && k.count <= |k.kids| && WellFormedKids(k.kids)
    requires Since(trace, k.trace) == before + (done + hit + undo)
    requires Calls(before + done + hit) <= planned
    requires Bad(before) == Bad(done) == [] && (hit == [] || (|hit| == 1 && hit[0].fault.Some?))
    requires Calls(undo) == CallsOn(Deactivating, Reverse(Targets(done)))
    requires OwingKids(k.kids[..k.count]) == Reverse(Targets(before))
    requires OwingKids(k.kids[k.count..]) == Targets(hit) + Bad(undo)
    ensures var u := DeactivateKids(o, k.trace, k.kids[..k.count]);
            var kids := u.kids + k.kids[k.count..];
            && trace <= u.trace
            && Unwound(Since(trace, u.trace), done', hit, undo', planned)
            && OwingKids(kids) == Targets(hit) + Bad(undo')
            && WellFormedKids(kids) && Shapes(kids) == Shapes(k.kids)
  {
    hide Since, Calls, Bad, Targets, Reverse, CallsOn, Owing, OwingKids, WellFormed, WellFormedKids, AllNative, AllNativeKids, Shape, Shapes, DeactivateTree, DeactivateKids;
    var prefix, suffix := k.kids[..k.count], k.kids[k.count..];
    assert prefix + suffix == k.kids;
    OwingAppend(prefix, suffix);
    var u := DeactivateKids(o, k.trace, prefix);
    DeactivatePassKids(o, k.trace, prefix);
    OwingAppend(u.kids, suffix);
    var late := Since(k.trace, u.trace);
    Between(trace, k.trace, u.trace);
    done', undo' := before + done, undo + late;
    Regroup(before, done, hit, undo, late, planned);
    BadAppend(undo, late);
  }

  lemma Regroup(before: seq<Event>, done: seq<Event>, hit: seq<Event>, undo: seq<Event>, late: seq<Event>,
      planned: seq<Call>)
    requires Calls(before + done + hit) <= planned
    requires Bad(before) == Bad(done) == [] && (hit == [] || (|hit| == 1 && hit[0].fault.Some?))
    requires Calls(undo) == CallsOn(Deactivating, Reverse(Targets(done)))
    requires Calls(late) == CallsOn(Deactivating, Reverse(Targets(before)))
    ensures Unwound(before + (done + hit + undo) + late, before + done, hit, undo + late, planned)
  {
    hide Calls, Bad, Targets, Reverse, CallsOn;
    assert before + (done + hit + undo) + late == (before + done) + hit + (undo + late);
    BadAppend(before, done);
    CallsAppend(undo, late);
    ReverseTargets(before, done);
    CallsOnAppend(Deactivating, Reverse(Targets(done)), Reverse(Targets(before)));
  }

  lemma BadOfParts(done: seq<Event>, hit: seq<Event>, undo: seq<Event>)
    requires Bad(done) == [] && (hit == [] || (|hit| == 1 && hit[0].fault.Some?))
    ensures Bad(done + hit + undo) == Targets(hit) + Bad(undo)
  {
    BadAppend(done + hit, undo);
    BadAppend(done, hit);
    if hit != [] {
      One([], hit[0]);
      assert hit == [hit[0]];
    }
  }

  /** How the children of a node look after one of them failed to start. */
  ghost predicate KidsUnwound(d: seq<Event>, r: KidsResult, before: seq<Event>, done: seq<Event>, hit: seq<Event>,
      undo: seq<Event>, planned: seq<Call>)
  {
    && r.count <= |r.kids|
    && d == before + (done + hit + undo)
    && Calls(before + done + hit) <= planned
    && Bad(before) == Bad(done) == [] && (hit == [] || (|hit| == 1 && hit[0].fault.Some?))
    && Calls(undo) == CallsOn(Deactivating, Reverse(Targets(done)))
    && OwingKids(r.kids[..r.count]) == Reverse(Targets(before))
    && OwingKids(r.kids[r.count..]) == Targets(hit) + Bad(undo)
    && FirstFailure(hit, r.error)
  }

  lemma {:induction false} ActivateKidsFail(o: Oracle, trace: seq<Event>, kids: seq<Tree>)
    returns (before: seq<Event>, done: seq<Event>, hit: seq<Event>, undo: seq<Event>)
    requires WellFormedKids(kids) && OwingKids(kids) == [] && ActivateKids(o, trace, kids).error.Some?
    ensures var r := ActivateKids(o, trace, kids);
            && trace <= r.trace
            && KidsUnwound(Since(trace, r.trace), r, before, done, hit, undo, PlannedKids(kids))
            && (AllNativeKids(kids) ==> hit != [])
            && WellFormedKids(r.kids) && Shapes(r.kids) == Shapes(kids)
    decreases kids, 0
  {
    OwingHead(kids);
    var r := ActivateKids(o, trace, kids);
    OwingHead(r.kids);
    var head := ActivateTree(o, trace, kids[0], None);
    if head.error.Some? {
      done, hit, undo := ActivateFails(o, trace, kids[0], None);
      before := [];
      FirstKidFails(o, trace, kids, done, hit, undo);
    } else {
      var before1;
      before1, done, hit, undo := ActivateKidsFail(o, head.trace, kids[1..]);
      before := LaterKidFails(o, trace, kids, before1, done, hit, undo);
      assert r.kids[1..] == ActivateKids(o, head.trace, kids[1..]).kids;
    }
  }

  lemma FirstKidFails(o: Oracle, trace: seq<Event>, kids: seq<Tree>,
      done: seq<Event>, hit: seq<Event>, undo: seq<Event>)
    requires kids != [] && OwingKids(kids[1..]) == []
    requires var head := ActivateTree(o, trace, kids[0], None);
             && head.error.Some? && trace <= head.trace
             && Unwound(Since(trace, head.trace), done, hit, undo, Planned(kids[0], None))
             && Owing(head.tree) == Targets(hit) + Bad(undo)
             && FirstFailure(hit, head.error)
    ensures var r := ActivateKids(o, trace, kids);
            KidsUnwound(Since(trace, r.trace), r, [], done, hit, undo, PlannedKids(kids))
  {
    var r := ActivateKids(o, trace, kids);
    OwingHead(r.kids);
    assert r.kids[1..] == kids[1..];
    assert r.kids[..0] == [] && r.kids[0..] == r.kids;
    assert [] + done + hit == done + hit;
    assert [] + (done + hit + undo) == done + hit + undo;
  }

  /** The first child started; a later one failed. */
  lemma {:induction false} LaterKidFails(o: Oracle, trace: seq<Event>, kids: seq<Tree>,
      before1: seq<Event>, done: seq<Event>, hit: seq<Event>, undo: seq<Event>)
    returns (before: seq<Event>)
    requires kids != [] && WellFormed(kids[0]) && ActivateTree(o, trace, kids[0], None).error.None?
    requires var head := ActivateTree(o, trace, kids[0], None);
             var rest := ActivateKids(o, head.trace, kids[1..]);
             && rest.error.Some? && head.trace <= rest.trace
             && KidsUnwound(Since(head.trace, rest.trace), rest, before1, done, hit, undo, PlannedKids(kids[1..]))
    ensures var r := ActivateKids(o, trace, kids);
            && trace <= r.trace
            && KidsUnwound(Since(trace, r.trace), r, before, done, hit, undo, PlannedKids(kids))
            && WellFormed(r.kids[0]) && Shape(r.kids[0]) == Shape(kids[0]) && AllNative(kids[0])
  {
    hide Since, Calls, Bad, Targets, Reverse, CallsOn, Owing, OwingKids, WellFormed, WellFormedKids, AllNative, AllNativeKids, Shape, Shapes, ActivateTree;
    var head := ActivateTree(o, trace, kids[0], None);
    var rest := ActivateKids(o, head.trace, kids[1..]);
    var r := ActivateKids(o, trace, kids);
    ActivateSucceeds(o, trace, kids[0], None);
    var first := Since(trace, head.trace);
    before := first + before1;
    Between(trace, head.trace, rest.trace);
    assert first + (before1 + (done + hit + undo)) == before + (done + hit + undo);
    StartedCalls(first, before1, done, hit);
    BadAppend(first, before1);
    ReverseTargets(first, before1);
    var started := r.kids[..r.count];
    assert started[1..] == rest.kids[..rest.count];
    assert r.kids[r.count..] == rest.kids[rest.count..];
    OwingHead(started);
  }

  lemma StartedCalls(first: seq<Event>, before: seq<Event>, done: seq<Event>, hit: seq<Event>)
    ensures Calls(first + before + done + hit) == Calls(first) + Calls(before + done + hit)
  {
    assert first + before + done + hit == first + (before + done + hit);
    CallsAppend(first, before + done + hit);
  }
}
