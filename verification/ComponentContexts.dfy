/** The mutable context tree: each traversal, in place, refines its function in `ContextTree`. */
module ComponentContexts {
  import opened Lifecycle
  import opened Plugins
  import opened ContextTree

  /** Foreign code: what it answers, and everything that was asked of it. */
  class Host {
    const oracle: Oracle
    var trace: seq<Event>

    constructor (oracle: Oracle)
      ensures this.oracle == oracle && trace == []
    {
      this.oracle := oracle;
      trace := [];
    }
  }

  datatype Slot<T> = Slot(name: string, contexts: seq<T>)

  /** The contexts of all slots, in the order a forward traversal meets them. */
  function Contexts<T>(slots: seq<Slot<T>>): seq<T> {
    if slots == [] then [] else slots[0].contexts + Contexts(slots[1..])
  }

  /** The order of the nested loops over reversed slots and reversed lists. */
  function ContextsInReverse<T>(slots: seq<Slot<T>>): seq<T> {
    if slots == [] then [] else ContextsInReverse(slots[1..]) + Reverse(slots[0].contexts)
  }

  /** The nested reversed loops meet the contexts in the reverse of the forward order. */
  lemma {:induction false} ReversedSlots<T>(slots: seq<Slot<T>>)
    ensures ContextsInReverse(slots) == Reverse(Contexts(slots))
  {
    if slots != [] {
      ReversedSlots(slots[1..]);
      ReverseAppend(slots[0].contexts, Contexts(slots[1..]));
    }
  }

  ghost function Owned(kids: seq<ComponentContext>): set<ComponentContext> {
    set k, n | k in kids && n in k.nodes :: n
  }

  /** A list of trees that share no node. This is about constants only: no traversal can break it. */
  ghost predicate Forest(kids: seq<ComponentContext>, height: nat)
    decreases height, 0
  {
    && (forall i | 0 <= i < |kids| :: kids[i].height < height && kids[i].Built())
    && (forall i, j | 0 <= i < j < |kids| :: kids[i].nodes !! kids[j].nodes)
  }

  lemma AllBuilt(kids: seq<ComponentContext>, height: nat)
    requires Forest(kids, height)
    ensures forall i | 0 <= i < |kids| :: kids[i].Built()
    ensures Owned([]) == {}
  {
  }

  /** A traversal may step into child `k`, and then touches no other child. */
  lemma OneOf(kids: seq<ComponentContext>, height: nat, k: nat)
    requires Forest(kids, height) && k < |kids|
    ensures kids[k].Built() && kids[k].height < height && kids[k].nodes <= Owned(kids)
    ensures forall i | 0 <= i < |kids| :: i != k ==> kids[i].nodes !! kids[k].nodes
  {
  }

  lemma Prefix(kids: seq<ComponentContext>, height: nat, n: nat)
    requires Forest(kids, height) && n <= |kids|
    ensures Forest(kids[..n], height) && Owned(kids[..n]) <= Owned(kids)
    ensures forall i | n <= i < |kids| :: kids[i].nodes !! Owned(kids[..n])
  {
  }

  ghost function Views(kids: seq<ComponentContext>, height: nat): (ts: seq<Tree>)
    requires Forest(kids, height)
    reads Owned(kids)
    ensures |ts| == |kids| && forall i | 0 <= i < |kids| :: ts[i] == kids[i].View()
    decreases height, 0, |kids|
  {
    if kids == [] then [] else
      assert forall i | 0 <= i < |kids| - 1 :: kids[..|kids| - 1][i] == kids[i];
      Views(kids[..|kids| - 1], height) + [kids[|kids| - 1].View()]
  }

  class ComponentContext {
    const id: nat
    const runtime: Option<nat>
    /** The contexts of all slots, in slot order. */
    const children: seq<ComponentContext>
    var instance: Option<PluginClass>
    var runtimeClosed: bool
    var activationOutstanding: bool
    /** `_subcomponents` was cleared by a successful close. */
    var released: bool

    ghost const height: nat
    ghost const nodes: set<ComponentContext>

    /** The object graph below this node is a finite tree. */
    ghost predicate Built()
      decreases height, 1
    {
      && Forest(children, height)
      && nodes == {this} + Owned(children)
      && this !in Owned(children)
    }

    ghost function View(): Tree
      requires Built()
      reads nodes
      decreases height, 1
    {
      assert this in nodes;
      Node(id, instance, runtime, runtimeClosed, activationOutstanding,
        if released then [] else Views(children, height))
    }

    constructor (id: nat, instance: Option<PluginClass>, runtime: Option<nat>,
        slots: seq<Slot<ComponentContext>>, ghost height: nat)
      requires Forest(Contexts(slots), height)
      ensures Built() && fresh(nodes - Owned(Contexts(slots)))
      ensures View() == Node(id, instance, runtime, false, false, Views(Contexts(slots), height))
    {
      this.id, this.instance, this.runtime := id, instance, runtime;
      runtimeClosed, activationOutstanding, released := false, false, false;
      children := Contexts(slots);
      this.height := height;
      nodes := {this} + Owned(Contexts(slots));
    }

    method Configure(host: Host) returns (error: Option<Error>)
      requires Built()
      modifies host`trace
      ensures var r := ConfigureTree(host.oracle, old(host.trace), View());
              View() == old(View()) == r.tree && host.trace == r.trace && error == r.error
      decreases height, 1
    {
      hide Views, Forest, ConfigureKids, Owned;
      error := None;
      if !released {
        error := ConfigureInOrder(children, height, host);
        if error.Some? {
          return;
        }
      } else {
        NothingToDo(host.oracle, host.trace);
      }
      if runtime.None? && instance.Some? {
        var raw := host.oracle(host.trace, OnConfigure(id));
        var fault := CallbackFault(raw);
        host.trace := host.trace + [Event(OnConfigure(id), raw, fault)];
        if fault.Some? {
          error := Some(CallbackError(OnConfigure(id), fault.value));
        }
      }
    }

    method Cleanup(host: Host) returns (error: Option<Error>)
      requires Built()
      modifies host`trace
      ensures var r := CleanupTree(host.oracle, old(host.trace), View());
              View() == old(View()) == r.tree && host.trace == r.trace && error == r.error
      decreases height, 1
    {
      hide Views, Forest, CleanupKids, Owned;
      error := None;
      if runtime.None? && instance.Some? {
        var raw := host.oracle(host.trace, OnCleanup(id));
        var fault := CallbackFault(raw);
        host.trace := host.trace + [Event(OnCleanup(id), raw, fault)];
        if fault.Some? {
          error := Some(CallbackError(OnCleanup(id), fault.value));
        }
      }
      if !released {
        var failed := CleanupInReverse(children, height, host);
        error := First(error, failed);
      } else {
        NothingToDo(host.oracle, host.trace);
      }
    }

    method Activate(host: Host, state: Option<Value>) returns (error: Option<Error>)
      requires Built()
      modifies nodes, host`trace
      ensures var r := ActivateTree(host.oracle, old(host.trace), old(View()), state);
              View() == r.tree && host.trace == r.trace && error == r.error
      decreases height, 2
    {
      if runtime.Some? {
        return Some(AdaptedActivation(id));
      }
      if (if instance.Some? then !Accepts(instance.value, state) else state.Some?) {
        return Some(UnacceptedState(id));
      }
      error := ActivateAccepted(host, state);
    }

    /** The body of the `try` in `activate`, and its rollback. */
    method ActivateAccepted(host: Host, state: Option<Value>) returns (error: Option<Error>)
      requires Built() && runtime.None? && RootAccepts(View(), state)
      modifies nodes, host`trace
      ensures var r := ActivateTree(host.oracle, old(host.trace), old(View()), state);
              View() == r.tree && host.trace == r.trace && error == r.error
      decreases height, 1
    {
      hide Views, ActivateKids, DeactivateKids, Owned;
      var kids := if released then [] else children;
      AllBuilt([], height);
      var activated;
      activated, error := ActivateInOrder(kids, height, host);
      if error.None? && instance.Some? {
        activationOutstanding := true;
        var call := OnActivate(id, ActivateArgs(instance.value, state));
        var raw := host.oracle(host.trace, call);
        var fault := CallbackFault(raw);
        host.trace := host.trace + [Event(call, raw, fault)];
        if fault.Some? {
          error := Some(CallbackError(call, fault.value));
        }
      }
      if error.Some? {
        RollBack(kids, activated, height, host);
      }
    }

    method Close(host: Host) returns (error: Option<Error>)
      requires Built()
      modifies nodes, host`trace
      ensures var r := CloseTree(host.oracle, old(host.trace), old(View()));
              View() == r.tree && host.trace == r.trace && error == r.error
      decreases height, 1
    {
      hide Views, Forest, CloseKids, Owned;
      error := None;
      if runtime.Some? && !runtimeClosed {
        var raw := host.oracle(host.trace, CloseRuntime(runtime.value));
        var fault := if raw.Threw? then Some(CallbackThrew(raw.what)) else None;
        host.trace := host.trace + [Event(CloseRuntime(runtime.value), raw, fault)];
        if fault.None? {
          runtimeClosed := true;
        } else {
          error := Some(CallbackError(CloseRuntime(runtime.value), fault.value));
        }
      }
      if !released {
        var failed := CloseInReverse(children, height, host);
        error := First(error, failed);
      } else {
        NothingToDo(host.oracle, host.trace);
      }
      if error.None? {
        instance, released := None, true;
      }
    }

    method Deactivate(host: Host) returns (error: Option<Error>, state: Option<Value>)
      requires Built()
      modifies nodes, host`trace
      ensures var r := DeactivateTree(host.oracle, old(host.trace), old(View()));
              View() == r.tree && host.trace == r.trace && error == r.error && state == r.state
      decreases height, 1
    {
      hide Views, Forest, DeactivateKids, Owned;
      error, state := None, None;
      if runtime.Some? {
        error := Some(AdaptedDeactivation(id));
      } else if instance.Some? && activationOutstanding {
        var raw := host.oracle(host.trace, OnDeactivate(id));
        var fault := DeactivateFault(instance.value, raw);
        host.trace := host.trace + [Event(OnDeactivate(id), raw, fault)];
        if fault.None? {
          state := Exported(instance.value, raw);
          activationOutstanding := false;
        } else {
          error := Some(CallbackError(OnDeactivate(id), fault.value));
        }
      }
      if !released {
        var failed := DeactivateInReverse(children, height, host);
        error := First(error, failed);
      } else {
        NothingToDo(host.oracle, host.trace);
      }
      if error.Some? {
        state := None;
      }
    }
  }

  /** `for subcontext in reversed(...)`: stop every subtree, remember the first error. */
  method DeactivateInReverse(kids: seq<ComponentContext>, ghost height: nat, host: Host) returns (error: Option<Error>)
    requires Forest(kids, height)
    modifies Owned(kids), host`trace
    ensures var r := DeactivateKids(host.oracle, old(host.trace), old(Views(kids, height)));
            Views(kids, height) == r.kids && host.trace == r.trace && error == r.error
    decreases height, 0
  {
    hide Forest, Owned, Views, DeactivateTree, DeactivateKids, ComponentContext.View, ComponentContext.Built;
    AllBuilt(kids, height);
    ghost var before := Views(kids, height);
    ghost var goal := DeactivateKids(host.oracle, host.trace, before);
    ghost var stopped: seq<Tree> := [];
    error := None;
    var k := |kids|;
    assert before[..k] == before;
    while k > 0
      invariant 0 <= k <= |kids| && |stopped| == |kids| - k
      invariant forall i | 0 <= i < k :: kids[i].View() == before[i]
      invariant forall i | k <= i < |kids| :: kids[i].View() == stopped[i - k]
      invariant var rest := DeactivateKids(host.oracle, host.trace, before[..k]);
        goal.kids == rest.kids + stopped && goal.trace == rest.trace
        && goal.error == First(error, rest.error)
    {
      k := k - 1;
      OneOf(kids, height, k);
      StopLast(host.oracle, host.trace, before, k);
      var failed, _ := kids[k].Deactivate(host);
      error := First(error, failed);
      stopped := [kids[k].View()] + stopped;
    }
    NothingToDo(host.oracle, host.trace);
    assert Views(kids, height) == stopped;
  }

  method ConfigureInOrder(kids: seq<ComponentContext>, ghost height: nat, host: Host) returns (error: Option<Error>)
    requires Forest(kids, height)
    modifies host`trace
    ensures var r := ConfigureKids(host.oracle, old(host.trace), old(Views(kids, height)));
            Views(kids, height) == old(Views(kids, height)) && host.trace == r.trace && error == r.error
    decreases height, 0
  {
    hide Forest, Owned, Views, ConfigureTree, ConfigureKids, ComponentContext.View, ComponentContext.Built;
    AllBuilt(kids, height);
    ghost var views := Views(kids, height);
    ghost var goal := ConfigureKids(host.oracle, host.trace, views);
    assert views[0..] == views;
    for k := 0 to |kids|
      invariant Views(kids, height) == views
      invariant var rest := ConfigureKids(host.oracle, host.trace, views[k..]);
        goal.trace == rest.trace && goal.error == rest.error
    {
      OneOf(kids, height, k);
      ConfigureNext(host.oracle, host.trace, views, k);
      error := kids[k].Configure(host);
      if error.Some? {
        return;
      }
    }
    assert views[|kids|..] == [];
    NothingToDo(host.oracle, host.trace);
    error := None;
  }

  method CleanupInReverse(kids: seq<ComponentContext>, ghost height: nat, host: Host) returns (error: Option<Error>)
    requires Forest(kids, height)
    modifies host`trace
    ensures var r := CleanupKids(host.oracle, old(host.trace), old(Views(kids, height)));
            Views(kids, height) == old(Views(kids, height)) && host.trace == r.trace && error == r.error
    decreases height, 0
  {
    hide Forest, Owned, Views, CleanupTree, CleanupKids, ComponentContext.View, ComponentContext.Built;
    AllBuilt(kids, height);
    ghost var views := Views(kids, height);
    ghost var goal := CleanupKids(host.oracle, host.trace, views);
    error := None;
    var k := |kids|;
    assert views[..k] == views;
    while k > 0
      invariant 0 <= k <= |kids|
      invariant Views(kids, height) == views
      invariant var rest := CleanupKids(host.oracle, host.trace, views[..k]);
        goal.trace == rest.trace && goal.error == First(error, rest.error)
    {
      k := k - 1;
      OneOf(kids, height, k);
      CleanupLast(host.oracle, host.trace, views, k);
      var failed := kids[k].Cleanup(host);
      error := First(error, failed);
    }
    NothingToDo(host.oracle, host.trace);
  }

  /** Activate the children cold until one fails; `activated` of them completed. */
  method ActivateInOrder(kids: seq<ComponentContext>, ghost height: nat, host: Host)
    returns (activated: nat, error: Option<Error>)
    requires Forest(kids, height)
    modifies Owned(kids), host`trace
    ensures var r := ActivateKids(host.oracle, old(host.trace), old(Views(kids, height)));
            Views(kids, height) == r.kids && host.trace == r.trace && error == r.error
            && (error.Some? ==> activated == r.count) && (error.None? ==> activated == |kids|)
    decreases height, 0
  {
    hide Forest, Owned, Views, ActivateTree, ActivateKids, ComponentContext.View, ComponentContext.Built;
    AllBuilt(kids, height);
    ghost var before := Views(kids, height);
    ghost var goal := ActivateKids(host.oracle, host.trace, before);
    ghost var started: seq<Tree> := [];
    assert before[0..] == before;
    for k := 0 to |kids|
      invariant |started| == k
      invariant forall i | 0 <= i < k :: kids[i].View() == started[i]
      invariant forall i | k <= i < |kids| :: kids[i].View() == before[i]
      invariant var rest := ActivateKids(host.oracle, host.trace, before[k..]);
        goal == KidsResult(started + rest.kids, rest.trace, rest.error, k + rest.count)
    {
      ActivateNext(host.oracle, host.trace, before, k);
      error := ActivateOne(kids, k, height, host);
      started := started + [kids[k].View()];
      if error.Some? {
        activated := k;
        assert Views(kids, height) == started + before[k + 1..];
        return;
      }
    }
    assert before[|kids|..] == [];
    NothingToDo(host.oracle, host.trace);
    assert Views(kids, height) == started;
    activated, error := |kids|, None;
  }

  /** Activate one child cold; the others stay as they are. */
  method ActivateOne(kids: seq<ComponentContext>, k: nat, ghost height: nat, host: Host) returns (error: Option<Error>)
    requires Forest(kids, height) && k < |kids|
    requires forall i | 0 <= i < |kids| :: kids[i].Built()
    modifies Owned(kids), host`trace
    ensures var r := ActivateTree(host.oracle, old(host.trace), old(kids[k].View()), None);
            kids[k].View() == r.tree && host.trace == r.trace && error == r.error
    ensures forall i | 0 <= i < |kids| && i != k :: kids[i].View() == old(kids[i].View())
    decreases height, 0, 0
  {
    hide Forest, Owned, Views, ActivateTree, ComponentContext.View, ComponentContext.Built;
    OneOf(kids, height, k);
    error := kids[k].Activate(host, None);
  }

  /** Stop the first `activated` children again; the errors are only logged. */
  method RollBack(kids: seq<ComponentContext>, activated: nat, ghost height: nat, host: Host)
    requires Forest(kids, height) && activated <= |kids|
    modifies Owned(kids), host`trace
    ensures var before := old(Views(kids, height));
            var r := DeactivateKids(host.oracle, old(host.trace), before[..activated]);
            Views(kids, height) == r.kids + before[activated..] && host.trace == r.trace
    decreases height, 0, 1
  {
    hide *;
    AllBuilt(kids, height);
    Prefix(kids, height, activated);
    ghost var before := Views(kids, height);
    ghost var r := DeactivateKids(host.oracle, host.trace, before[..activated]);
    assert Views(kids[..activated], height) == before[..activated];
    var _ := DeactivateInReverse(kids[..activated], height, host);
    assert Views(kids[..activated], height) == r.kids;
    assert forall i | activated <= i < |kids| :: kids[i].View() == before[i];
    assert forall i | 0 <= i < activated :: kids[i].View() == r.kids[i];
  }

  method CloseInReverse(kids: seq<ComponentContext>, ghost height: nat, host: Host) returns (error: Option<Error>)
    requires Forest(kids, height)
    modifies Owned(kids), host`trace
    ensures var r := CloseKids(host.oracle, old(host.trace), old(Views(kids, height)));
            Views(kids, height) == r.kids && host.trace == r.trace && error == r.error
    decreases height, 0
  {
    hide Forest, Owned, Views, CloseTree, CloseKids, ComponentContext.View, ComponentContext.Built;
    AllBuilt(kids, height);
    ghost var before := Views(kids, height);
    ghost var goal := CloseKids(host.oracle, host.trace, before);
    ghost var closed: seq<Tree> := [];
    error := None;
    var k := |kids|;
    assert before[..k] == before;
    while k > 0
      invariant 0 <= k <= |kids| && |closed| == |kids| - k
      invariant forall i | 0 <= i < k :: kids[i].View() == before[i]
      invariant forall i | k <= i < |kids| :: kids[i].View() == closed[i - k]
      invariant var rest := CloseKids(host.oracle, host.trace, before[..k]);
        goal.kids == rest.kids + closed && goal.trace == rest.trace
        && goal.error == First(error, rest.error)
    {
      k := k - 1;
      OneOf(kids, height, k);
      CloseLast(host.oracle, host.trace, before, k);
      var failed := kids[k].Close(host);
      error := First(error, failed);
      closed := [kids[k].View()] + closed;
    }
    NothingToDo(host.oracle, host.trace);
    assert Views(kids, height) == closed;
  }

  lemma NothingToDo(o: Oracle, trace: seq<Event>)
    ensures ConfigureKids(o, trace, []) == CleanupKids(o, trace, []) == KidsResult([], trace, None, 0)
    ensures ActivateKids(o, trace, []) == DeactivateKids(o, trace, []) == KidsResult([], trace, None, 0)
    ensures CloseKids(o, trace, []) == KidsResult([], trace, None, 0)
  {
  }

  lemma ConfigureNext(o: Oracle, trace: seq<Event>, kids: seq<Tree>, k: nat)
    requires k < |kids|
    ensures var head := ConfigureTree(o, trace, kids[k]);
            var rest := ConfigureKids(o, head.trace, kids[k + 1..]);
            var r := ConfigureKids(o, trace, kids[k..]);
            if head.error.Some? then r.trace == head.trace && r.error == head.error
            else r.trace == rest.trace && r.error == rest.error
  {
    assert kids[k..][1..] == kids[k + 1..];
  }

  lemma CleanupLast(o: Oracle, trace: seq<Event>, kids: seq<Tree>, k: nat)
    requires k < |kids|
    ensures var last := CleanupTree(o, trace, kids[k]);
            var rest := CleanupKids(o, last.trace, kids[..k]);
            var r := CleanupKids(o, trace, kids[..k + 1]);
            r.trace == rest.trace && r.error == First(last.error, rest.error)
  {
    assert kids[..k + 1][..k] == kids[..k];
  }

  lemma ActivateNext(o: Oracle, trace: seq<Event>, kids: seq<Tree>, k: nat)
    requires k < |kids|
    ensures var head := ActivateTree(o, trace, kids[k], None);
            var rest := ActivateKids(o, head.trace, kids[k + 1..]);
            ActivateKids(o, trace, kids[k..])
              == if head.error.Some? then KidsResult([head.tree] + kids[k + 1..], head.trace, head.error, 0)
                 else KidsResult([head.tree] + rest.kids, rest.trace, rest.error, rest.count + 1)
  {
    assert kids[k..][1..] == kids[k + 1..];
  }

  lemma CloseLast(o: Oracle, trace: seq<Event>, kids: seq<Tree>, k: nat)
    requires k < |kids|
    ensures var last := CloseTree(o, trace, kids[k]);
            var rest := CloseKids(o, last.trace, kids[..k]);
            CloseKids(o, trace, kids[..k + 1])
              == KidsResult(rest.kids + [last.tree], rest.trace, First(last.error, rest.error), 0)
  {
    assert kids[..k + 1][..k] == kids[..k];
  }

  lemma StopLast(o: Oracle, trace: seq<Event>, kids: seq<Tree>, k: nat)
    requires k < |kids|
    ensures var last := DeactivateTree(o, trace, kids[k]);
            var rest := DeactivateKids(o, last.trace, kids[..k]);
            DeactivateKids(o, trace, kids[..k + 1])
              == KidsResult(rest.kids + [last.tree], rest.trace, First(last.error, rest.error), 0)
  {
    assert kids[..k + 1][..k] == kids[..k];
  }
}
