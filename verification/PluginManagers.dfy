/** `PluginManager` as an object: its table of entries, and the compound operations on them. */
module PluginManagers {
  import opened Lifecycle
  import opened Plugins
  import opened ContextTree
  import opened StopTheorems
  import opened ComponentContexts
  import opened Names
  import opened Entries
  import opened Protocol
  import opened Invariant
  import opened Operations
  import opened OperationTheorems
  import opened Compounds
  import opened ManagedEntries
  import PrimSteps

  class PluginManager {
    const host: Host
    var entries: map<Name, ManagedEntry>
    var order: seq<Name>
    var closing: bool
    /** Every context that an entry of this manager may touch. */
    ghost var nodes: set<ComponentContext>

    constructor (host: Host)
      ensures Valid() && this.host == host && entries == map[] && !closing && nodes == {}
    {
      this.host := host;
      entries, order, closing, nodes := map[], [], false, {};
    }

    /** Entries share nothing. */
    ghost predicate Separate()
      reads this, entries.Values
    {
      && (forall n :: n in order <==> n in entries)
      && (forall n | n in entries :: entries[n].Nodes() <= nodes && entries[n].Ready())
      && (forall n, m | n in entries && m in entries && n != m ::
            entries[n] != entries[m] && entries[n].Nodes() !! entries[m].Nodes())
    }

    /** Each entry satisfies the table of states, with a tree whose debts it knows. */
    ghost predicate Valid()
      reads this, entries.Values, nodes
    {
      Separate() && forall n | n in entries :: Sound(entries[n].Held())
    }

    /** What the builder returns is new to the manager and owes nothing. */
    ghost predicate Foreign(built: ComponentContext?)
      reads this, if built == null then {} else built.nodes
    {
      built != null ==> built.Built() && built.nodes !! nodes && NewTree(built.View())
    }

    ghost function Env(thread: Tid): Operations.Env
      reads this`closing
    {
      Operations.Env(thread, closing, host.oracle)
    }

    /** Run one operation on an entry. No other entry changes. */
    method Operate(op: Prim, name: Name, thread: Tid, built: ComponentContext?) returns (ret: Ret)
      requires Valid() && name in entries && Foreign(built)
      modifies entries.Values, nodes, host`trace, this`nodes
      ensures Valid() && nodes == old(nodes) + (if op.Load? && built != null then built.nodes else {})
      ensures var tree := if built == null then None else Some(old(built.View()));
              var e := entries[name];
              var out := Operations.Operate(Env(thread), old(e.Held()), old(host.trace), op, tree, old(e.generation) + 1);
              e.Held() == out.held && ret == out.ret && host.trace == out.trace
      ensures forall m | m in entries && m != name :: entries[m].Held() == old(entries[m].Held())
    {
      hide Operations.Operate, Steady, ComponentContext.View, ComponentContext.Built, NewTree, ManagedEntry.Held, ManagedEntry.Ready;
      var e := entries[name];
      ghost var tree := if built == null then None else Some(built.View());
      ghost var out := Operations.Operate(Env(thread), e.Held(), host.trace, op, tree, e.generation + 1);
      EveryOperationKeeps(Env(thread), e.Held(), host.trace, op, tree, e.generation + 1);
      nodes := nodes + (if op.Load? && built != null then built.nodes else {});
      ret := e.Operate(op, host, thread, closing, built);
      OthersUntouched(name);
      assert e.Held() == out.held;
    }

    /** After a step on one entry all others are as before, and the manager is valid if that entry is sound. */
    twostate lemma OthersUntouched(name: Name)
      requires old(Valid()) && name in entries && entries == old(entries) && order == old(order)
      requires old(nodes) <= nodes
      requires entries[name].Ready() && entries[name].Nodes() <= nodes && Sound(entries[name].Held())
      requires entries[name].Nodes() <= old(entries[name].Nodes()) || entries[name].Nodes() !! old(nodes)
      requires forall m | m in entries && m != name :: unchanged(entries[m]) && unchanged(old(entries[m].Nodes()))
      ensures Valid() && forall m | m in entries && m != name :: entries[m].Held() == old(entries[m].Held())
    {
    }

    /** `_entry` and one operation; an unknown name raises. */
    method Call(op: Prim, name: Name, thread: Tid) returns (ret: Ret)
      requires Valid() && !op.Load?
      modifies entries.Values, nodes, host`trace, this`nodes
      ensures Valid() && nodes == old(nodes)
      ensures name !in entries ==> ret == Raised && host.trace == old(host.trace)
      ensures name in entries ==>
                var e := entries[name];
                var out := Operations.Operate(Env(thread), old(e.Held()), old(host.trace), op, None, old(e.generation) + 1);
                e.Held() == out.held && ret == out.ret && host.trace == out.trace
      ensures forall m | m in entries && m != name :: entries[m].Held() == old(entries[m].Held())
    {
      if name !in entries {
        return Raised;
      }
      ret := Operate(op, name, thread, null);
    }

    /** The entry of a name, created by the first load of that name. */
    ghost function HeldOf(name: Name): Operations.Held
      requires Valid()
      reads this, entries.Values, nodes
    {
      if name in entries then entries[name].Held() else Operations.Held(NewEntry, None)
    }

    /** Blank names are refused, and so is every name once the manager is closing. */
    method Load(name: Name, component: Option<string>, thread: Tid, built: ComponentContext?) returns (ret: Ret)
      requires Valid() && Foreign(built)
      modifies this`entries, this`order, this`nodes, entries.Values, nodes, host`trace
      ensures Valid()
      ensures Blank(name) || closing ==>
                && ret == Ret(false, None) && entries == old(entries) && host.trace == old(host.trace)
                && forall m | m in entries :: HeldOf(m) == old(HeldOf(m))
      ensures !Blank(name) && !closing ==>
                && entries.Keys == old(entries.Keys) + {name}
                && (forall m | m in old(entries) :: entries[m] == old(entries[m]))
                && (forall m | m in old(entries) && m != name :: HeldOf(m) == old(HeldOf(m)))
                && Sound(old(HeldOf(name)))
                && var out := Work(Env(thread), old(HeldOf(name)), old(host.trace), Prim.Load(component), old(Tree(built)));
                   HeldOf(name) == out.held && ret == out.ret && host.trace == out.trace
    {
      hide Valid, Sound, Work, NewTree, ComponentContext.View, ComponentContext.Built, ManagedEntry.Held, Blank, HeldOf;
      NameHeld(name);
      if Blank(name) || closing {
        return Ret(false, None);
      }
      if name !in entries {
        Create(name);
      }
      ret := LoadHere(name, component, thread, built);
    }

    lemma NameHeld(name: Name)
      requires Valid()
      ensures Sound(HeldOf(name)) && (name !in entries ==> HeldOf(name) == Operations.Held(NewEntry, None))
    {
      NewIsSound();
    }

    /** `setdefault` for a name that is not there. */
    method Create(name: Name)
      requires Valid() && name !in entries
      modifies this`entries, this`order
      ensures Valid()
      ensures name in entries && entries == old(entries)[name := entries[name]] && fresh(entries[name])
      ensures HeldOf(name) == Operations.Held(NewEntry, None)
      ensures forall m | m in old(entries) :: HeldOf(m) == old(HeldOf(m))
    {
      hide Sound, ManagedEntry.Held, ManagedEntry.Ready, ManagedEntry.Nodes;
      var e := new ManagedEntry();
      NewIsSound();
      NewHeld(e);
      entries := entries[name := e];
      order := order + [name];
      assert e.Held() == Operations.Held(NewEntry, None) by { NewHeld(e); }
      assert forall m | m in old(entries) :: entries[m].Held() == old(entries[m].Held());
    }

    /** An operation that needs no builder, on an entry that is there. */
    method Run(op: Prim, name: Name, thread: Tid) returns (ret: Ret)
      requires Valid() && name in entries && !op.Load?
      modifies entries.Values, nodes, host`trace, this`nodes
      ensures Valid() && nodes == old(nodes)
      ensures var out := Work(Env(thread), old(HeldOf(name)), old(host.trace), op, None);
              HeldOf(name) == out.held && ret == out.ret && host.trace == out.trace
      ensures forall m | m in entries && m != name :: HeldOf(m) == old(HeldOf(m))
    {
      hide Sound, Operations.Operate, NewTree, ManagedEntry.Held;
      HeldGeneration(entries[name]);
      ret := Operate(op, name, thread, null);
    }

    /** `load` of an entry that is there. */
    method LoadHere(name: Name, component: Option<string>, thread: Tid, built: ComponentContext?) returns (ret: Ret)
      requires Valid() && name in entries && Foreign(built)
      modifies entries.Values, nodes, host`trace, this`nodes
      ensures Valid() && nodes == old(nodes) + (if built != null then built.nodes else {})
      ensures var tree := if built == null then None else Some(old(built.View()));
              var out := Work(Env(thread), old(HeldOf(name)), old(host.trace), Prim.Load(component), tree);
              HeldOf(name) == out.held && ret == out.ret && host.trace == out.trace
      ensures forall m | m in entries && m != name :: HeldOf(m) == old(HeldOf(m))
    {
      hide Sound, Operations.Operate, ComponentContext.View, ComponentContext.Built, ManagedEntry.Held;
      HeldGeneration(entries[name]);
      ret := Operate(Prim.Load(component), name, thread, built);
    }

    /** The tree that the builder would return. */
    ghost function Tree(built: ComponentContext?): (tree: Option<ContextTree.Tree>)
      requires Foreign(built)
      reads this, if built == null then {} else built.nodes
      ensures tree.Some? ==> NewTree(tree.value)
    {
      if built == null then None else Some(built.View())
    }

    lemma SoundHeld(name: Name)
      requires Valid() && name in entries
      ensures Sound(HeldOf(name)) && HeldOf(name) == entries[name].Held()
      ensures HeldOf(name).e == entries[name].View()
    {
    }

    /** Load and configure the target of a switch as far as needed. */
    method PrepareTarget(target: Name, thread: Tid, built: ComponentContext?) returns (ret: Ret)
      requires Valid() && target in entries && Foreign(built)
      modifies entries.Values, nodes, host`trace, this`nodes, if built == null then {} else built.nodes
      ensures Valid() && nodes <= old(nodes) + (if built == null then {} else built.nodes)
      ensures Sound(old(HeldOf(target)))
      ensures var out := Readied(Env(thread), old(HeldOf(target)), old(host.trace), old(Tree(built)));
              HeldOf(target) == out.held && ret == out.ret && host.trace == out.trace
      ensures forall m | m in entries && m != target :: HeldOf(m) == old(HeldOf(m))
    {
      hide Valid, Foreign, Sound, Work;
      var b := entries[target];
      SoundHeld(target);
      ret := Ret(true, None);
      if b.state.UNLOADED? {
        if closing {
          return Ret(false, None);
        }
        ret := LoadHere(target, None, thread, built);
        SoundHeld(target);
      }
      if Succeeded(ret) && b.state.UNCONFIGURED? {
        ret := Run(Prim.Configure, target, thread);
      }
    }

    /** Stop the source, then start the target. */
    method Exchange(source: Name, target: Name, transfer: bool, thread: Tid) returns (ret: Ret)
      requires Valid() && source in entries && target in entries && source != target
      modifies entries.Values, nodes, host`trace, this`nodes
      ensures Valid() && nodes == old(nodes)
      ensures Sound(old(HeldOf(source))) && Sound(old(HeldOf(target)))
      ensures var out := Exchanged(Env(thread), old(HeldOf(source)), old(HeldOf(target)), old(host.trace), transfer);
              HeldOf(source) == out.source && HeldOf(target) == out.target && ret == out.ret && host.trace == out.trace
      ensures forall m | m in entries && m != source && m != target :: HeldOf(m) == old(HeldOf(m))
    {
      hide Valid, Sound, Work;
      SoundHeld(source);
      SoundHeld(target);
      ret := Run(Prim.Deactivate(true), source, thread);
      if Succeeded(ret) {
        ret := Run(Prim.Activate(if transfer then ret.state else None), target, thread);
      }
    }

    /** `switch_plugins`: exactly the switch function on both entries; no other entry changes. */
    method SwitchPlugins(source: Name, target: Name, transfer: bool, thread: Tid, built: ComponentContext?) returns (ret: Ret)
      requires Valid() && Foreign(built)
      modifies this`nodes, entries.Values, nodes, host`trace, if built == null then {} else built.nodes
      ensures Valid() && nodes <= old(nodes) + (if built == null then {} else built.nodes)
      ensures source == target ==> ret == Ret(false, None)
      ensures source != target && (source !in entries || target !in entries) ==> ret == Raised
      ensures source == target || source !in entries || target !in entries ==>
                host.trace == old(host.trace) && forall m | m in entries :: HeldOf(m) == old(HeldOf(m))
      ensures source != target && source in entries && target in entries ==>
                && Sound(old(HeldOf(source))) && Sound(old(HeldOf(target)))
                && var out := Switched(Env(thread), old(HeldOf(source)), old(HeldOf(target)), old(host.trace), transfer, old(Tree(built)));
                   HeldOf(source) == out.source && HeldOf(target) == out.target && ret == out.ret && host.trace == out.trace
      ensures forall m | m in entries && m != source && m != target :: HeldOf(m) == old(HeldOf(m))
    {
      hide Valid, Foreign, Sound, Switched;
      if source == target {
        return Ret(false, None);
      }
      if source !in entries || target !in entries {
        return Raised;
      }
      ret := SwitchFound(source, target, transfer, thread, built);
    }

    /** The part of `switch_plugins` that holds both locks. */
    method SwitchFound(source: Name, target: Name, transfer: bool, thread: Tid, built: ComponentContext?) returns (ret: Ret)
      requires Valid() && Foreign(built) && source != target && source in entries && target in entries
      modifies this`nodes, entries.Values, nodes, host`trace, if built == null then {} else built.nodes
      ensures Valid() && nodes <= old(nodes) + (if built == null then {} else built.nodes)
      ensures Sound(old(HeldOf(source))) && Sound(old(HeldOf(target)))
      ensures var out := Switched(Env(thread), old(HeldOf(source)), old(HeldOf(target)), old(host.trace), transfer, old(Tree(built)));
              HeldOf(source) == out.source && HeldOf(target) == out.target && ret == out.ret && host.trace == out.trace
      ensures forall m | m in entries && m != source && m != target :: HeldOf(m) == old(HeldOf(m))
    {
      hide Valid, Foreign, Sound, Work, Readied, Settled, ManagedEntry.Held, HeldOf;
      var a, b := entries[source], entries[target];
      SoundHeld(source);
      SoundHeld(target);
      if (thread in a.callers && a.callers[thread] > 0) || (thread in b.callers && b.callers[thread] > 0) || !a.state.ACTIVE? {
        return Ret(false, None);
      }
      ret := PrepareTarget(target, thread, built);
      if Succeeded(ret) {
        ret := SwitchReadied(source, target, transfer, thread);
      }
    }

    /** The part of `switch_plugins` after its target was made ready. */
    method SwitchReadied(source: Name, target: Name, transfer: bool, thread: Tid) returns (ret: Ret)
      requires Valid() && source != target && source in entries && target in entries
      modifies this`nodes, entries.Values, nodes, host`trace
      ensures Valid() && nodes == old(nodes)
      ensures Sound(old(HeldOf(source))) && Sound(old(HeldOf(target)))
      ensures var out := Settled(Env(thread), old(HeldOf(source)), old(HeldOf(target)), old(host.trace), transfer);
              HeldOf(source) == out.source && HeldOf(target) == out.target && ret == out.ret && host.trace == out.trace
      ensures forall m | m in entries && m != source && m != target :: HeldOf(m) == old(HeldOf(m))
    {
      hide Valid, Sound, Work, Exchanged, TypesMatch, ManagedEntry.Held, HeldOf;
      SoundHeld(source);
      SoundHeld(target);
      if !entries[target].state.INACTIVE? {
        return Ret(false, None);
      }
      if transfer {
        ret := CompareTypes(source, target);
        if !Succeeded(ret) {
          return;
        }
      }
      ret := Exchange(source, target, transfer, thread);
    }

    /** The comparison of the handover types; a missing instance raises. */
    method CompareTypes(source: Name, target: Name) returns (ret: Ret)
      requires Valid() && source in entries && target in entries
      ensures ret == TypesMatch(HeldOf(source), HeldOf(target))
    {
      hide Valid, Sound;
      var a, b := entries[source].context, entries[target].context;
      RootOf(source);
      RootOf(target);
      if a == null || b == null || a.instance.None? || b.instance.None? {
        return Raised;
      }
      return Ret(a.instance.value.handover == b.instance.value.handover, None);
    }

    lemma RootOf(name: Name)
      requires Valid() && name in entries
      ensures Root(HeldOf(name)) == if entries[name].context == null then None else entries[name].context.instance
    {
    }

    /** `reload`: exactly the reload function on its entry; no other entry changes. */
    method Reload(name: Name, transfer: bool, refreshed: Option<bool>, thread: Tid, built: ComponentContext?) returns (ret: Ret)
      requires Valid() && Foreign(built)
      modifies this`nodes, entries.Values, nodes, host`trace, if built == null then {} else built.nodes
      ensures Valid() && nodes <= old(nodes) + (if built == null then {} else built.nodes)
      ensures name !in entries ==> ret == Raised && host.trace == old(host.trace)
      ensures name in entries ==>
                && Sound(old(HeldOf(name)))
                && var out := Reloaded(Env(thread), old(HeldOf(name)), old(host.trace), transfer, refreshed, old(Tree(built)));
                   HeldOf(name) == out.held && ret == out.ret && host.trace == out.trace
      ensures forall m | m in entries && m != name :: HeldOf(m) == old(HeldOf(m))
    {
      hide Valid, Sound, NewTree, Work, Restarted, TakenDown, ComponentContext.View, ComponentContext.Built;
      if name !in entries {
        return Raised;
      }
      SoundHeld(name);
      var wasActive := entries[name].state.ACTIVE?;
      ret := TakeDown(name, thread);
      if !Succeeded(ret) {
        return;
      }
      if refreshed == Some(false) {
        RefreshFailed(name);
        return Ret(false, None);
      }
      ret := Restart(name, wasActive, if transfer then ret.state else None, thread, built);
    }

    /** The first half of `reload`: stop if active, and unload. */
    method TakeDown(name: Name, thread: Tid) returns (ret: Ret)
      requires Valid() && name in entries
      modifies this`nodes, entries.Values, nodes, host`trace
      ensures Valid() && nodes == old(nodes)
      ensures Sound(old(HeldOf(name)))
      ensures var out := TakenDown(Env(thread), old(HeldOf(name)), old(host.trace));
              HeldOf(name) == out.held && ret == out.ret && host.trace == out.trace
      ensures forall m | m in entries && m != name :: HeldOf(m) == old(HeldOf(m))
    {
      hide Valid, Sound, Work;
      SoundHeld(name);
      ret := Ret(true, None);
      if entries[name].state.ACTIVE? {
        ret := Run(Prim.Deactivate(true), name, thread);
        if !Succeeded(ret) {
          return;
        }
      }
      var unloaded := Run(Prim.Unload(true), name, thread);
      if !Succeeded(unloaded) {
        return unloaded;
      }
    }

    /** `_finish` after a failed refresh. */
    method RefreshFailed(name: Name)
      requires Valid() && name in entries && HeldOf(name).e.state.UNLOADED? && HeldOf(name).e.transition.None?
      modifies entries[name]
      ensures Valid()
      ensures var h := old(HeldOf(name)); HeldOf(name) == h.(e := Entries.Finish(h.e, UNLOADED, false))
      ensures forall m | m in entries && m != name :: HeldOf(m) == old(HeldOf(m))
    {
      hide Sound, ComponentContext.View, ComponentContext.Built, ManagedEntry.Ready;
      var e := entries[name];
      RefreshFailedSound(e.Held());
      e.Finish(UNLOADED, false);
      FinishedHeld(e);
      OthersUntouched(name);
    }

    twostate lemma FinishedHeld(e: ManagedEntry)
      requires e.context == old(e.context) && old(e.Ready()) && unchanged(old(e.Nodes()))
      requires e.View() == Entries.Finish(old(e.View()), UNLOADED, false)
      ensures e.Ready() && e.Held() == old(e.Held()).(e := Entries.Finish(old(e.Held()).e, UNLOADED, false))
    {
    }

    /** The second half of `reload`. */
    method Restart(name: Name, wasActive: bool, snapshot: Option<Value>, thread: Tid, built: ComponentContext?) returns (ret: Ret)
      requires Valid() && Foreign(built) && name in entries
      modifies this`nodes, entries.Values, nodes, host`trace, if built == null then {} else built.nodes
      ensures Valid() && nodes <= old(nodes) + (if built == null then {} else built.nodes)
      ensures Sound(old(HeldOf(name)))
      ensures var out := Restarted(Env(thread), old(HeldOf(name)), old(host.trace), wasActive, snapshot, old(Tree(built)));
              HeldOf(name) == out.held && ret == out.ret && host.trace == out.trace
      ensures forall m | m in entries && m != name :: HeldOf(m) == old(HeldOf(m))
    {
      hide Valid, Foreign, Sound, Work;
      SoundHeld(name);
      if closing {
        return Ret(false, None);
      }
      ret := LoadHere(name, None, thread, built);
      if Succeeded(ret) {
        ret := Run(Prim.Configure, name, thread);
        if Succeeded(ret) && wasActive {
          ret := Run(Prim.Activate(snapshot), name, thread);
        } else if Succeeded(ret) {
          ret := Ret(true, None);
        }
      }
    }

    /** The thread is inside a guarded call or a callback of some entry. */
    ghost predicate Inside(thread: Tid)
      reads this, entries.Values
    {
      exists n | n in entries :: Calling(entries[n].View(), thread) > 0 || entries[n].operationThread == Some(thread)
    }

    /** `close` refuses inside a guarded call or a callback of the thread. */
    method InsideManagedCode(thread: Tid) returns (inside: bool)
      requires Valid()
      ensures inside <==> Inside(thread)
    {
      hide Sound, ManagedEntry.Held;
      inside := false;
      for i := 0 to |order|
        invariant inside <==>
          exists k | 0 <= k < i :: Calling(entries[order[k]].View(), thread) > 0 || entries[order[k]].operationThread == Some(thread)
      {
        var e := entries[order[i]];
        if (thread in e.callers && e.callers[thread] > 0) || e.operationThread == Some(thread) {
          inside := true;
        }
      }
    }

    /** All entries with their trees. */
    ghost function AllHeld(): (held: map<Name, Operations.Held>)
      requires Valid()
      reads this, entries.Values, nodes
      ensures AllSound(held) && forall n | n in order :: n in held
    {
      map n | n in entries :: entries[n].Held()
    }

    /**
     * `close`: refused from inside managed code; otherwise exactly the sweep over all
     * entries in the reverse order of creation, which goes on whatever fails.
     */
    method Close(thread: Tid) returns (ret: Ret)
      requires Valid()
      modifies this`closing, this`nodes, entries.Values, nodes, host`trace
      ensures Valid() && (old(closing) ==> closing)
      ensures old(Inside(thread)) ==>
                ret == Ret(false, None) && closing == old(closing) && AllHeld() == old(AllHeld()) && host.trace == old(host.trace)
      ensures !old(Inside(thread)) ==>
                && closing
                && var out := UnloadedAll(Env(thread), order, old(AllHeld()), old(host.trace));
                   AllHeld() == out.held && ret == Ret(out.ok, None) && host.trace == out.trace
    {
      hide Sound, ManagedEntry.Held, Inside, UnloadedAll;
      var inside := InsideManagedCode(thread);
      if inside {
        return Ret(false, None);
      }
      closing := true;
      assert AllHeld() == old(AllHeld());
      ret := UnloadAll(thread);
    }

    method UnloadAll(thread: Tid) returns (ret: Ret)
      requires Valid()
      modifies this`nodes, entries.Values, nodes, host`trace
      ensures Valid()
      ensures var out := UnloadedAll(Env(thread), order, old(AllHeld()), old(host.trace));
              AllHeld() == out.held && ret == Ret(out.ok, None) && host.trace == out.trace
    {
      hide Valid, Sound, Work, UnloadedAll, AllSound, AllHeld;
      var ok := true;
      var k := |order|;
      ghost var goal := UnloadedAll(Env(thread), order, AllHeld(), host.trace);
      assert order[..k] == order;
      while k > 0
        invariant 0 <= k <= |order| && Valid() && nodes == old(nodes)
        invariant var rest := UnloadedAll(Env(thread), order[..k], AllHeld(), host.trace);
                  goal == rest.(ok := ok && rest.ok)
      {
        k := k - 1;
        InOrder();
        assert order[..k + 1][..k] == order[..k] && order[..k + 1][k] == order[k];
        SweepLast(Env(thread), order[..k + 1], AllHeld(), host.trace);
        var stopped := UnloadOne(order[k], thread);
        ok := ok && Succeeded(stopped);
      }
      SweepNothing(Env(thread), AllHeld(), host.trace);
      assert order[..0] == [];
      ret := Ret(ok, None);
    }

    method UnloadOne(name: Name, thread: Tid) returns (ret: Ret)
      requires Valid() && name in entries
      modifies this`nodes, entries.Values, nodes, host`trace
      ensures Valid() && nodes == old(nodes)
      ensures name in old(AllHeld()) && Sound(old(AllHeld())[name])
      ensures var out := Work(Env(thread), old(AllHeld())[name], old(host.trace), Prim.Unload(true), None);
              AllHeld() == old(AllHeld())[name := out.held] && ret == out.ret && host.trace == out.trace
    {
      hide Valid, Sound, Work, HeldOf, AllHeld;
      ghost var before := AllHeld();
      HeldEach();
      SoundHeld(name);
      ret := Run(Prim.Unload(true), name, thread);
      HeldEach();
      HeldUpdated(before, name);
    }

    lemma HeldEach()
      requires Valid()
      ensures (forall m :: m in AllHeld() <==> m in entries) && forall m | m in entries :: AllHeld()[m] == HeldOf(m)
    {
    }

    lemma InOrder()
      requires Valid()
      ensures forall n :: n in order <==> n in entries
    {
    }

    lemma HeldUpdated(before: map<Name, Operations.Held>, name: Name)
      requires Valid() && name in entries && (forall m :: m in before <==> m in entries)
      requires forall m | m in entries && m != name :: HeldOf(m) == before[m]
      ensures AllHeld() == before[name := HeldOf(name)]
    {
    }
  }

  lemma HeldGeneration(e: ManagedEntry)
    requires e.Ready()
    ensures e.Held().e.generation == e.generation
  {
  }

  lemma NewHeld(e: ManagedEntry)
    requires e.context == null && e.View() == NewEntry
    ensures e.Ready() && e.Nodes() == {} && e.Held() == Operations.Held(NewEntry, None)
  {
  }
}
