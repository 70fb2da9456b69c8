/** What plugin code is asked for and with which values, and when its answer counts as a failure. */
module CallbackTheorems {
  import opened Lifecycle
  import opened Plugins
  import opened ContextTree
  import opened Traces
  import opened StopTheorems
  import opened StartTheorems

  // ------------------------------------------------------------------- verdicts

  /** A callback fails unless it returns a successful `CallbackResult`, and its fault says how. */
  lemma CallbackSucceedsIff(raw: Raw)
    ensures CallbackFault(raw).None? <==> raw == GaveCallback(true)
    ensures raw.Threw? ==> CallbackFault(raw) == Some(CallbackThrew(raw.what))
    ensures CallbackFault(raw) == Some(Refused) <==> raw == GaveCallback(false)
    ensures CallbackFault(raw) == Some(WrongResultType) <==> raw.GaveOther? || raw.GaveDeactivation?
  {
  }

  /** A stop fails unless it answers as its class must, with a state that the class accepts. */
  lemma StopSucceedsIff(p: PluginClass, raw: Raw)
    ensures p.handover.None? ==> DeactivateFault(p, raw) == CallbackFault(raw)
    ensures p.handover.Some? ==>
              (DeactivateFault(p, raw).None? <==>
                && raw.GaveDeactivation? && raw.ok
                && (raw.state.None? || p.handover.value in raw.state.value.classes))
    ensures p.handover.Some? ==>
              && (raw.Threw? ==> DeactivateFault(p, raw) == Some(CallbackThrew(raw.what)))
              && (DeactivateFault(p, raw) == Some(Refused) <==> raw.GaveDeactivation? && !raw.ok)
              && (DeactivateFault(p, raw) == Some(WrongResultType) <==> raw.GaveOther? || raw.GaveCallback?)
    ensures DeactivateFault(p, raw).None? ==>
              Exported(p, raw) == if p.handover.Some? then raw.state else None
  {
  }

  /** The foreign code was asked with everything that had happened before, and its answer was judged as it must be. */
  predicate Judged(o: Oracle, history: seq<Event>, e: Event) {
    && e.raw == o(history, e.call)
    && (e.raw.Threw? ==> e.fault == Some(CallbackThrew(e.raw.what)))
    && match e.call
       case CloseRuntime(_) => e.fault.None? <==> !e.raw.Threw?
       case OnDeactivate(_) =>
         && (e.fault.None? ==> e.raw == GaveCallback(true) || (e.raw.GaveDeactivation? && e.raw.ok))
         && (e.raw.GaveOther? || e.raw == GaveCallback(false) || (e.raw.GaveDeactivation? && !e.raw.ok) ==> e.fault.Some?)
       case _ => e.fault.None? <==> e.raw == GaveCallback(true)
  }

  /** Every event between the two histories was judged. */
  predicate Asked(o: Oracle, before: seq<Event>, after: seq<Event>) {
    before <= after && forall i | |before| <= i < |after| :: Judged(o, after[..i], after[i])
  }

  lemma AskedOne(o: Oracle, before: seq<Event>, e: Event)
    requires Judged(o, before, e)
    ensures Asked(o, before, before + [e])
  {
    assert (before + [e])[..|before|] == before;
  }

  lemma AskedOn(o: Oracle, a: seq<Event>, b: seq<Event>, c: seq<Event>)
    requires Asked(o, a, b) && Asked(o, b, c)
    ensures Asked(o, a, c)
  {
    forall i | |a| <= i < |c| ensures Judged(o, c[..i], c[i]) {
      if i < |b| {
        assert b[..i] == c[..i] && b[i] == c[i];
      }
    }
  }

  lemma {:induction false} ConfigureAsks(o: Oracle, trace: seq<Event>, t: Tree)
    ensures Asked(o, trace, ConfigureTree(o, trace, t).trace)
    decreases t, 1
  {
    hide Asked;
    var k := ConfigureKids(o, trace, t.kids);
    ConfigureKidsAsk(o, trace, t.kids);
    if k.error.None? && Local(t) {
      AskedOne(o, k.trace, Invoke(o, k.trace, OnConfigure(t.id)));
      AskedOn(o, trace, k.trace, ConfigureTree(o, trace, t).trace);
    }
  }

  lemma {:induction false} ConfigureKidsAsk(o: Oracle, trace: seq<Event>, kids: seq<Tree>)
    ensures Asked(o, trace, ConfigureKids(o, trace, kids).trace)
    decreases kids, 0
  {
    if kids != [] {
      var head := ConfigureTree(o, trace, kids[0]);
      ConfigureAsks(o, trace, kids[0]);
      if head.error.None? {
        ConfigureKidsAsk(o, head.trace, kids[1..]);
        AskedOn(o, trace, head.trace, ConfigureKids(o, head.trace, kids[1..]).trace);
      }
    }
  }

  lemma {:induction false} CleanupAsks(o: Oracle, trace: seq<Event>, t: Tree)
    ensures Asked(o, trace, CleanupTree(o, trace, t).trace)
    decreases t, 1
  {
    hide Asked;
    if Local(t) {
      var e := Invoke(o, trace, OnCleanup(t.id));
      AskedOne(o, trace, e);
      CleanupKidsAsk(o, trace + [e], t.kids);
      AskedOn(o, trace, trace + [e], CleanupKids(o, trace + [e], t.kids).trace);
    } else {
      CleanupKidsAsk(o, trace, t.kids);
    }
  }

  lemma {:induction false} CleanupKidsAsk(o: Oracle, trace: seq<Event>, kids: seq<Tree>)
    ensures Asked(o, trace, CleanupKids(o, trace, kids).trace)
    decreases kids, 0
  {
    if kids != [] {
      var n := |kids| - 1;
      var last := CleanupTree(o, trace, kids[n]);
      CleanupAsks(o, trace, kids[n]);
      CleanupKidsAsk(o, last.trace, kids[..n]);
      AskedOn(o, trace, last.trace, CleanupKids(o, last.trace, kids[..n]).trace);
    }
  }

  lemma {:induction false} DeactivateAsks(o: Oracle, trace: seq<Event>, t: Tree)
    ensures Asked(o, trace, DeactivateTree(o, trace, t).trace)
    decreases t, 1
  {
    var own := DeactivateOwn(o, trace, t);
    if own.trace != trace {
      AskedOne(o, trace, InvokeDeactivate(o, trace, t.plugin.value, t.id));
    }
    DeactivateKidsAsk(o, own.trace, t.kids);
    AskedOn(o, trace, own.trace, DeactivateKids(o, own.trace, t.kids).trace);
  }

  lemma {:induction false} DeactivateKidsAsk(o: Oracle, trace: seq<Event>, kids: seq<Tree>)
    ensures Asked(o, trace, DeactivateKids(o, trace, kids).trace)
    decreases kids, 0
  {
    if kids != [] {
      var n := |kids| - 1;
      var last := DeactivateTree(o, trace, kids[n]);
      DeactivateAsks(o, trace, kids[n]);
      DeactivateKidsAsk(o, last.trace, kids[..n]);
      AskedOn(o, trace, last.trace, DeactivateKids(o, last.trace, kids[..n]).trace);
    }
  }

  lemma {:induction false} ActivateAsks(o: Oracle, trace: seq<Event>, t: Tree, state: Option<Value>)
    ensures Asked(o, trace, ActivateTree(o, trace, t, state).trace)
    decreases t, 1
  {
    hide Asked;
    var r := ActivateTree(o, trace, t, state);
    assert Asked(o, trace, trace) by { AskedNothing(o, trace); }
    if Native(t) && RootAccepts(t, state) {
      var k := ActivateKids(o, trace, t.kids);
      ActivateKidsAsk(o, trace, t.kids);
      if k.error.Some? {
        DeactivateKidsAsk(o, k.trace, k.kids[..k.count]);
        AskedOn(o, trace, k.trace, r.trace);
      } else if t.plugin.Some? {
        var e := Invoke(o, k.trace, OnActivate(t.id, ActivateArgs(t.plugin.value, state)));
        AskedOne(o, k.trace, e);
        AskedOn(o, trace, k.trace, k.trace + [e]);
        DeactivateKidsAsk(o, k.trace + [e], k.kids[..|k.kids|]);
        AskedOn(o, trace, k.trace + [e], DeactivateKids(o, k.trace + [e], k.kids[..|k.kids|]).trace);
      }
    }
  }

  lemma AskedNothing(o: Oracle, trace: seq<Event>)
    ensures Asked(o, trace, trace)
  {
  }

  lemma {:induction false} ActivateKidsAsk(o: Oracle, trace: seq<Event>, kids: seq<Tree>)
    ensures Asked(o, trace, ActivateKids(o, trace, kids).trace)
    decreases kids, 0
  {
    if kids != [] {
      var head := ActivateTree(o, trace, kids[0], None);
      ActivateAsks(o, trace, kids[0], None);
      if head.error.None? {
        ActivateKidsAsk(o, head.trace, kids[1..]);
        AskedOn(o, trace, head.trace, ActivateKids(o, head.trace, kids[1..]).trace);
      }
    }
  }

  lemma {:induction false} CloseAsks(o: Oracle, trace: seq<Event>, t: Tree)
    ensures Asked(o, trace, CloseTree(o, trace, t).trace)
    decreases t, 1
  {
    var own := CloseOwn(o, trace, t);
    if own.trace != trace {
      AskedOne(o, trace, InvokeClose(o, trace, t.runtime.value));
    }
    CloseKidsAsk(o, own.trace, t.kids);
    AskedOn(o, trace, own.trace, CloseKids(o, own.trace, t.kids).trace);
  }

  lemma {:induction false} CloseKidsAsk(o: Oracle, trace: seq<Event>, kids: seq<Tree>)
    ensures Asked(o, trace, CloseKids(o, trace, kids).trace)
    decreases kids, 0
  {
    if kids != [] {
      var n := |kids| - 1;
      var last := CloseTree(o, trace, kids[n]);
      CloseAsks(o, trace, kids[n]);
      CloseKidsAsk(o, last.trace, kids[..n]);
      AskedOn(o, trace, last.trace, CloseKids(o, last.trace, kids[..n]).trace);
    }
  }

  /** The five traversals ask for nothing but judged callbacks. */
  lemma EveryAnswerIsJudged(o: Oracle, trace: seq<Event>, t: Tree, state: Option<Value>)
    ensures Asked(o, trace, ConfigureTree(o, trace, t).trace) && Asked(o, trace, CleanupTree(o, trace, t).trace)
    ensures Asked(o, trace, ActivateTree(o, trace, t, state).trace) && Asked(o, trace, DeactivateTree(o, trace, t).trace)
    ensures Asked(o, trace, CloseTree(o, trace, t).trace)
  {
    ConfigureAsks(o, trace, t);
    CleanupAsks(o, trace, t);
    ActivateAsks(o, trace, t, state);
    DeactivateAsks(o, trace, t);
    CloseAsks(o, trace, t);
  }

  // ------------------------------------------------------------------ arguments

  /** The nodes with an instance, children before their parent, in slot order. */
  function Instances(t: Tree): seq<Tree>
    decreases t, 1
  {
    InstancesOf(t.kids) + if t.plugin.Some? then [t] else []
  }

  function InstancesOf(kids: seq<Tree>): seq<Tree>
    decreases kids, 0
  {
    if kids == [] then [] else Instances(kids[0]) + InstancesOf(kids[1..])
  }

  /** The call starts the node: with the state if its class hands over state, and without arguments otherwise. */
  predicate Starts(call: Call, node: Tree, state: Option<Value>) {
    && call.OnActivate? && call.node == node.id && node.plugin.Some?
    && (node.plugin.value.handover.Some? ==> call.args == [state])
    && (node.plugin.value.handover.None? ==> call.args == [])
  }

  /** The calls start the nodes one after the other, all of them cold. */
  predicate StartCold(calls: seq<Call>, nodes: seq<Tree>) {
    |calls| == |nodes| && forall i | 0 <= i < |calls| :: Starts(calls[i], nodes[i], None)
  }

  lemma StartColdOn(a: seq<Call>, m: seq<Tree>, b: seq<Call>, n: seq<Tree>)
    requires StartCold(a, m) && StartCold(b, n)
    ensures StartCold(a + b, m + n)
  {
  }

  lemma {:induction false} PlannedCold(t: Tree)
    ensures StartCold(Planned(t, None), Instances(t))
    decreases t, 1
  {
    PlannedKidsCold(t.kids);
    if t.plugin.Some? {
      StartColdOn(PlannedKids(t.kids), InstancesOf(t.kids), [OnActivate(t.id, ActivateArgs(t.plugin.value, None))], [t]);
    }
  }

  lemma {:induction false} PlannedKidsCold(kids: seq<Tree>)
    ensures StartCold(PlannedKids(kids), InstancesOf(kids))
    decreases kids, 0
  {
    if kids != [] {
      PlannedCold(kids[0]);
      PlannedKidsCold(kids[1..]);
      StartColdOn(Planned(kids[0], None), Instances(kids[0]), PlannedKids(kids[1..]), InstancesOf(kids[1..]));
    }
  }

  /** What a node of the tree is started with: the root with the state, every other one cold. */
  function Given(t: Tree, i: nat, state: Option<Value>): Option<Value> {
    if t.plugin.Some? && i == |Instances(t)| - 1 then state else None
  }

  lemma PlannedGives(t: Tree, state: Option<Value>, i: nat)
    ensures |Planned(t, state)| == |Instances(t)|
    ensures i < |Planned(t, state)| ==> Starts(Planned(t, state)[i], Instances(t)[i], Given(t, i, state))
  {
    PlannedKidsCold(t.kids);
  }

  lemma {:induction false} CallsAt(es: seq<Event>, i: nat)
    ensures |Calls(es)| == |es|
    ensures i < |es| ==> Calls(es)[i] == es[i].call
  {
    if es != [] && i > 0 {
      CallsAt(es[1..], i - 1);
    } else {
      CallsLength(es);
    }
  }

  /**
   * A successful activation starts every node with an instance once, children first:
   * the root with the given state if its class hands over state, every other such
   * node with None, and all the rest without arguments.
   */
  lemma ActivationGives(o: Oracle, trace: seq<Event>, t: Tree, state: Option<Value>, i: nat)
    requires WellFormed(t) && ActivateTree(o, trace, t, state).error.None?
    ensures var r := ActivateTree(o, trace, t, state);
            && trace <= r.trace
            && var d := Since(trace, r.trace);
               && |d| == |Instances(t)|
               && (i < |d| ==> d[i].fault.None? && Starts(d[i].call, Instances(t)[i], Given(t, i, state)))
  {
    ActivateSucceeds(o, trace, t, state);
    var d := Since(trace, ActivateTree(o, trace, t, state).trace);
    CallsAt(d, i);
    PlannedGives(t, state, i);
    if i < |d| {
      NoneBad(d, i);
    }
  }

  lemma {:induction false} NoneBad(es: seq<Event>, i: nat)
    requires Bad(es) == [] && i <= |es|
    ensures i < |es| ==> es[i].fault.None?
  {
    if es != [] && i > 0 {
      NoneBad(es[1..], i - 1);
    }
  }

  /** A failed one gives the same values up to the callback that failed. */
  lemma FailedActivationGives(o: Oracle, trace: seq<Event>, t: Tree, state: Option<Value>)
    returns (done: seq<Event>, hit: seq<Event>, undo: seq<Event>)
    requires WellFormed(t) && Owing(t) == [] && ActivateTree(o, trace, t, state).error.Some?
    ensures var r := ActivateTree(o, trace, t, state);
            trace <= r.trace && Since(trace, r.trace) == done + hit + undo
    ensures |done + hit| <= |Instances(t)|
    ensures forall i | 0 <= i < |done + hit| :: Starts((done + hit)[i].call, Instances(t)[i], Given(t, i, state))
    ensures forall i | 0 <= i < |undo| :: undo[i].call.OnDeactivate?
  {
    done, hit, undo := ActivateFails(o, trace, t, state);
    forall i | 0 <= i < |done + hit|
      ensures i < |Instances(t)| && Starts((done + hit)[i].call, Instances(t)[i], Given(t, i, state))
    {
      CallsAt(done + hit, i);
      PlannedGives(t, state, i);
    }
    CallsAt(done + hit, 0);
    PlannedGives(t, state, 0);
    forall i | 0 <= i < |undo| ensures undo[i].call.OnDeactivate? {
      CallsAt(undo, i);
      OnlyStops(Reverse(Targets(done)), i);
    }
  }

  lemma {:induction false} OnlyStops(nodes: seq<nat>, i: nat)
    ensures i < |CallsOn(Deactivating, nodes)| ==> CallsOn(Deactivating, nodes)[i].OnDeactivate?
  {
    if nodes != [] && i > 0 {
      OnlyStops(nodes[1..], i - 1);
    }
  }

  /** There is no state, or the root has an instance whose class hands over states of this kind. */
  predicate Takes(t: Tree, state: Option<Value>) {
    state.Some? ==>
      t.plugin.Some? && t.plugin.value.handover.Some? && t.plugin.value.handover.value in state.value.classes
  }

  /** An activation of a quiet tree succeeds iff the tree is native, its root takes the state, and no callback failed. */
  lemma StartSucceedsIff(o: Oracle, trace: seq<Event>, t: Tree, state: Option<Value>)
    requires WellFormed(t) && Owing(t) == []
    ensures var r := ActivateTree(o, trace, t, state);
            && trace <= r.trace
            && (r.error.None? <==> AllNative(t) && Takes(t, state) && Bad(Since(trace, r.trace)) == [])
  {
    if ActivateTree(o, trace, t, state).error.None? {
      ActivateSucceeds(o, trace, t, state);
    } else {
      var done, hit, undo := ActivateFails(o, trace, t, state);
    }
  }

  /** A state that the root does not take is refused before anything is called. */
  lemma RefusedState(o: Oracle, trace: seq<Event>, t: Tree, state: Option<Value>)
    requires Native(t) && !Takes(t, state)
    ensures ActivateTree(o, trace, t, state) == TreeResult(t, trace, Some(UnacceptedState(t.id)), None)
  {
  }

  /** The root of a tree that stopped without an error gave this state: what its callback replied in this pass, if it ran. */
  lemma StopGives(o: Oracle, trace: seq<Event>, t: Tree)
    requires WellFormed(t) && DeactivateTree(o, trace, t).error.None?
    ensures var r := DeactivateTree(o, trace, t);
            && trace <= r.trace
            && var d := Since(trace, r.trace);
               if t.outstanding && t.plugin.value.handover.Some? then
                 && d != [] && d[0].call == OnDeactivate(t.id) && d[0].raw == GaveDeactivation(true, r.state)
               else r.state.None?
  {
    ExportOnlyFromThisPass(o, trace, t);
    if t.outstanding {
      var d := Since(trace, DeactivateTree(o, trace, t).trace);
      DeactivatePass(o, trace, t);
      StopSucceedsIff(t.plugin.value, d[0].raw);
      NoneBad(d, 0);
      RootStopIsJudged(o, trace, t);
    }
  }

  /** The first event of a stop is the root's own. */
  lemma RootStopIsJudged(o: Oracle, trace: seq<Event>, t: Tree)
    requires WellFormed(t) && t.outstanding
    ensures var r := DeactivateTree(o, trace, t);
            && trace <= r.trace && Since(trace, r.trace) != []
            && var e := Since(trace, r.trace)[0];
               e.call == OnDeactivate(t.id) && e.fault == DeactivateFault(t.plugin.value, e.raw)
  {
    var e := InvokeDeactivate(o, trace, t.plugin.value, t.id);
    DeactivatePassKids(o, DeactivateOwn(o, trace, t).trace, t.kids);
    assert trace + [e] <= DeactivateTree(o, trace, t).trace;
  }
}
