/** A managed entry whose fields the operations update in place, holding a real context tree. */
module ManagedEntries {
  import opened Lifecycle
  import opened Plugins
  import opened ContextTree
  import opened ComponentContexts
  import opened Entries
  import opened Protocol
  import opened Operations
  import opened StopTheorems

  class ManagedEntry {
    var component: string
    var context: ComponentContext?
    var generation: nat
    var state: LifecycleState
    var transition: Option<Op>
    var operationThread: Option<Tid>
    var lastOk: bool
    var gate: bool
    var inFlight: int
    var callers: map<Tid, nat>
    var configured: bool
    var mayBeActive: bool

    constructor ()
      ensures context == null && View() == NewEntry
    {
      component, context, generation, state := "", null, 0, UNLOADED;
      transition, operationThread := None, None;
      lastOk, gate, inFlight, callers, configured, mayBeActive := true, false, 0, map[], false, false;
    }

    /** A context is named by the generation it was loaded as. */
    ghost function View(): Entry
      reads this
    {
      Entry(component, if context == null then None else Some(generation), generation, state, transition, operationThread,
        lastOk, gate, inFlight, callers, configured, mayBeActive)
    }

    ghost predicate Ready()
      reads this
    {
      context != null ==> context.Built()
    }

    ghost function Nodes(): set<ComponentContext>
      reads this
    {
      if context == null then {} else context.nodes
    }

    ghost function Held(): Operations.Held
      requires Ready()
      reads this, Nodes()
    {
      Operations.Held(View(), if context == null then None else Some(context.View()))
    }

    // --------------------------------------------------------------- sections

    method Begin(op: Prim, thread: Tid, closing: bool) returns (refused: bool)
      modifies this`transition, this`operationThread, this`gate, this`lastOk
      ensures refused == Refuses(old(View()), thread, closing, Allowed(op), op.Unload?)
      ensures View() == if refused then Reject(old(View())) else Entries.Begin(old(View()), OpOf(op), thread)
    {
      refused :=
        || (thread in callers && callers[thread] > 0)
        || transition.Some?
        || (closing && !op.Unload?)
        || state !in Allowed(op);
      if refused {
        Invalid();
      } else {
        transition, operationThread, gate := Some(OpOf(op)), Some(thread), false;
      }
    }

    /** `_invalid` */
    method Invalid()
      modifies this`lastOk
      ensures View() == Reject(old(View()))
    {
      if transition.None? {
        lastOk := false;
      }
    }

    method Finish(to: LifecycleState, ok: bool)
      modifies this`state, this`transition, this`operationThread, this`lastOk, this`gate
      ensures View() == Entries.Finish(old(View()), to, ok)
    {
      state, transition, operationThread, lastOk := to, None, None, ok;
      gate := to.ACTIVE? && ok;
    }

    // -------------------------------------------------------------- operations

    /** `built` is what the builder returns, or null if it fails. */
    method Load(host: Host, thread: Tid, closing: bool, name: Option<string>, built: ComponentContext?) returns (ret: Ret)
      requires Ready() && (built != null ==> built.Built())
      modifies this
      ensures var tree := if built == null then None else Some(built.View());
              var out := LoadOp(Env(thread, closing, host.oracle), old(Held()), host.trace, name, tree, old(generation) + 1);
              Ready() && Held() == out.held && ret == out.ret && out.trace == host.trace
      ensures context == if ret == Ret(true, None) then built else old(context)
    {
      hide ComponentContext.View, ComponentContext.Built, Refuses, Operations.Build;
      var refused := Begin(Prim.Load(name), thread, closing);
      if refused {
        return Ret(false, None);
      }
      ret := Build(host, name, built);
    }

    /** The part of `load` after `_begin`. */
    method Build(ghost host: Host, name: Option<string>, built: ComponentContext?) returns (ret: Ret)
      requires Ready() && (built != null ==> built.Built())
      modifies this
      ensures var tree := if built == null then None else Some(built.View());
              var out := Operations.Build(old(Held()), host.trace, name, tree, old(generation) + 1);
              Ready() && Held() == out.held && ret == out.ret && out.trace == host.trace
      ensures context == if ret == Ret(true, None) then built else old(context)
    {
      hide ComponentContext.View, ComponentContext.Built;
      if name.Some? {
        component := name.value;
      }
      if component == "" {
        Finish(UNLOADED, false);
        return Ret(false, None);
      }
      if built == null {
        Finish(ERROR, false);
        return Ret(false, None);
      }
      context, generation, configured, mayBeActive := built, generation + 1, false, false;
      Finish(UNCONFIGURED, true);
      return Ret(true, None);
    }

    method Configure(host: Host, thread: Tid, closing: bool) returns (ret: Ret)
      requires Ready() && Steady(Held())
      modifies this, host`trace
      ensures var out := ConfigureOp(Env(thread, closing, host.oracle), old(Held()), old(host.trace));
              Ready() && Held() == out.held && host.trace == out.trace && ret == out.ret && context == old(context)
    {
      hide ComponentContext.View, ComponentContext.Built, WellFormed, Owing, Counted, Refuses, ConfigureTree, CleanupTree, ActivateTree, DeactivateTree, CloseTree;
      var refused := Begin(Prim.Configure, thread, closing);
      if refused {
        return Ret(false, None);
      }
      NeedsContext(Env(thread, closing, host.oracle), old(Held()), Prim.Configure);
      configured := true; // cleanup must handle partial configuration
      var error := context.Configure(host);
      Finish(if error.None? then INACTIVE else ERROR, error.None?);
      return Ret(error.None?, None);
    }

    method Activate(host: Host, thread: Tid, closing: bool, handover: Option<Value>) returns (ret: Ret)
      requires Ready() && Steady(Held())
      modifies this, Nodes(), host`trace
      ensures var out := ActivateOp(Env(thread, closing, host.oracle), old(Held()), old(host.trace), handover);
              Ready() && Held() == out.held && host.trace == out.trace && ret == out.ret && context == old(context)
    {
      hide ComponentContext.View, ComponentContext.Built, WellFormed, Owing, Counted, Refuses, ConfigureTree, CleanupTree, ActivateTree, DeactivateTree, CloseTree;
      if state.ACTIVE? && transition.None? && !closing {
        return Ret(true, None);
      }
      var refused := Begin(Prim.Activate(handover), thread, closing);
      if refused {
        return Ret(false, None);
      }
      NeedsContext(Env(thread, closing, host.oracle), old(Held()), Prim.Activate(handover));
      mayBeActive := true;
      var error := context.Activate(host, handover);
      Finish(if error.None? then ACTIVE else ERROR, error.None?);
      return Ret(error.None?, None);
    }

    /** `_stop` */
    method Stop(host: Host) returns (ok: bool, exported: Option<Value>)
      requires Ready() && context != null
      modifies this`mayBeActive, Nodes(), host`trace
      ensures var c := CallBack(Env(0, false, host.oracle), old(Held()), old(host.trace), Deactivating, None);
              Ready() && Held() == c.held && host.trace == c.trace && ok == c.ok && exported == c.state && context == old(context)
    {
      hide ComponentContext.View, ComponentContext.Built, WellFormed, Owing, Counted, Refuses, ConfigureTree, CleanupTree, ActivateTree, DeactivateTree, CloseTree;
      var error, given := context.Deactivate(host);
      ok, exported := error.None?, given;
      if ok {
        mayBeActive := false;
      }
    }

    /**
     * `_drain`, while which other threads end the calls `ended`. A wait without a
     * time limit goes on until nothing is in flight.
     */
    method Drain(ended: seq<Tid>) returns (drained: bool)
      requires MayEnd(View(), ended)
      modifies this`inFlight, this`callers
      ensures View() == Ebbed(old(View()), ended) && drained == (View().inFlight == 0)
    {
      for i := 0 to |ended|
        invariant MayEnd(View(), ended[i..]) && Ebbed(View(), ended[i..]) == old(Ebbed(View(), ended))
      {
        assert ended[i..][0] == ended[i] && ended[i..][1..] == ended[i + 1..];
        EndBorrow(ended[i]);
      }
      drained := inFlight == 0;
    }

    /** `_begin` and, unless it refuses, `_drain`. */
    method Withdraw(op: Prim, thread: Tid, closing: bool, ended: seq<Tid>) returns (refused: bool)
      requires !Refuses(View(), thread, closing, Allowed(op), op.Unload?) ==> MayEnd(View(), ended)
      modifies this`transition, this`operationThread, this`gate, this`lastOk, this`inFlight, this`callers
      ensures refused == Refuses(old(View()), thread, closing, Allowed(op), op.Unload?)
      ensures View() ==
        if refused then Reject(old(View())) else Entries.Begin(old(Ebbed(View(), ended)), OpOf(op), thread)
    {
      refused := Begin(op, thread, closing);
      if !refused {
        BegunEbbs(old(View()), OpOf(op), thread, ended);
        var _ := Drain(ended);
      }
    }

    method Deactivate(host: Host, thread: Tid, closing: bool, timed: bool, ended: seq<Tid>) returns (ret: Ret)
      requires Ready() && Steady(Held())
      requires ComesToWait(Env(thread, closing, host.oracle), View(), Prim.Deactivate(timed)) ==>
                 MayEnd(View(), ended) && (timed || Ebbed(View(), ended).inFlight == 0)
      modifies this, Nodes(), host`trace
      ensures var env := Env(thread, closing, host.oracle);
              var h := Waited(env, old(Held()), Prim.Deactivate(timed), ended);
              && Steady(h)
              && var out := DeactivateOp(env, h, old(host.trace));
                 Ready() && Held() == out.held && host.trace == out.trace && ret == out.ret && context == old(context)
    {
      ghost var env := Env(thread, closing, host.oracle);
      DeactivateParts(env, Held(), host.trace, timed, ended);
      hide ComponentContext.View, ComponentContext.Built, Refuses, Ebbed, MayEnd, Steady, Halted, Allowed, DeactivateOp;
      if state.INACTIVE? && transition.None? {
        return Ret(true, None);
      }
      if state.ERROR? && !mayBeActive {
        Invalid();
        return Ret(false, None);
      }
      var refused := Withdraw(Prim.Deactivate(timed), thread, closing, ended);
      if refused {
        return Ret(false, None);
      }
      ret := Halt(host, thread, closing);
    }

    /** The part of `deactivate` after the wait. */
    method Halt(host: Host, ghost thread: Tid, ghost closing: bool) returns (ret: Ret)
      requires Ready() && context != null
      modifies this, Nodes(), host`trace
      ensures var out := Halted(Env(thread, closing, host.oracle), old(Held()), old(host.trace));
              Ready() && Held() == out.held && host.trace == out.trace && ret == out.ret && context == old(context)
    {
      hide ComponentContext.View, ComponentContext.Built, WellFormed, Owing, Counted, ConfigureTree, CleanupTree, ActivateTree, DeactivateTree, CloseTree;
      var ok, exported := false, None;
      if inFlight == 0 {
        ok, exported := Stop(host);
      }
      Finish(if ok then INACTIVE else ERROR, ok);
      return Ret(ok, if ok then exported else None);
    }

    method Cleanup(host: Host, thread: Tid, closing: bool) returns (ret: Ret)
      requires Ready() && Steady(Held())
      modifies this, host`trace
      ensures var out := CleanupOp(Env(thread, closing, host.oracle), old(Held()), old(host.trace));
              Ready() && Held() == out.held && host.trace == out.trace && ret == out.ret && context == old(context)
    {
      hide ComponentContext.View, ComponentContext.Built, WellFormed, Owing, Counted, Refuses, ConfigureTree, CleanupTree, ActivateTree, DeactivateTree, CloseTree;
      if mayBeActive {
        Invalid();
        return Ret(false, None);
      }
      var refused := Begin(Prim.Cleanup, thread, closing);
      if refused {
        return Ret(false, None);
      }
      if context == null {
        return Raised;
      }
      var error := context.Cleanup(host);
      if error.None? {
        configured := false;
      }
      Finish(if error.None? then UNCONFIGURED else ERROR, error.None?);
      return Ret(error.None?, None);
    }

    method Unload(host: Host, thread: Tid, closing: bool, timed: bool, ended: seq<Tid>) returns (ret: Ret)
      requires Ready() && Steady(Held())
      requires ComesToWait(Env(thread, closing, host.oracle), View(), Prim.Unload(timed)) ==>
                 MayEnd(View(), ended) && (timed || Ebbed(View(), ended).inFlight == 0)
      modifies this, Nodes(), host`trace
      ensures var env := Env(thread, closing, host.oracle);
              var h := Waited(env, old(Held()), Prim.Unload(timed), ended);
              && Steady(h)
              && var out := UnloadOp(env, h, old(host.trace));
                 Ready() && Held() == out.held && host.trace == out.trace && ret == out.ret
      ensures context == old(context) || context == null
    {
      ghost var env := Env(thread, closing, host.oracle);
      UnloadParts(env, Held(), host.trace, timed, ended);
      hide ComponentContext.View, ComponentContext.Built, Refuses, Ebbed, MayEnd, Steady, Discarded, Allowed, Waited, UnloadOp, ComesToWait;
      var refused := Withdraw(Prim.Unload(timed), thread, closing, ended);
      if refused {
        return Ret(false, None);
      }
      ret := Discard(host, thread, closing);
    }

    /** The part of `unload` after the wait. */
    method Discard(host: Host, ghost thread: Tid, ghost closing: bool) returns (ret: Ret)
      requires Ready()
      modifies this, Nodes(), host`trace
      ensures var out := Discarded(Env(thread, closing, host.oracle), old(Held()), old(host.trace));
              Ready() && Held() == out.held && host.trace == out.trace && ret == out.ret
      ensures context == old(context) || context == null
    {
      hide ComponentContext.View, ComponentContext.Built, WellFormed, Owing, Counted, ConfigureTree, CleanupTree, ActivateTree, DeactivateTree, CloseTree;
      var ok := inFlight == 0;
      if ok && context != null {
        ok := Release(host, thread, closing);
      }
      Finish(if ok then UNLOADED else ERROR, ok);
      return Ret(ok, None);
    }

    /** Stop, clean up and close, each only after the one before succeeded. */
    method Release(host: Host, ghost thread: Tid, ghost closing: bool) returns (ok: bool)
      requires Ready() && context != null
      modifies this, Nodes(), host`trace
      ensures var env := Env(thread, closing, host.oracle);
              var c := ThenClose(env, ThenCleanUp(env, StopFirst(env, old(Held()), old(host.trace))));
              Ready() && Held() == c.held && host.trace == c.trace && ok == c.ok
      ensures context == old(context) || context == null
    {
      hide ComponentContext.View, ComponentContext.Built, WellFormed, Owing, Counted, Refuses, ConfigureTree, CleanupTree, ActivateTree, DeactivateTree, CloseTree;
      ok := true;
      if mayBeActive {
        var stopped, _ := Stop(host);
        ok := stopped;
      }
      if ok && configured {
        var error := context.Cleanup(host);
        ok := error.None?;
        if ok {
          configured := false;
        }
      }
      if ok {
        var error := context.Close(host);
        ok := error.None?;
        if ok {
          context := null;
        }
      }
    }

    /** The operation that `op` names. */
    method Operate(op: Prim, host: Host, thread: Tid, closing: bool, built: ComponentContext?) returns (ret: Ret)
      requires Ready() && Steady(Held()) && (built != null ==> built.Built())
      modifies this, Nodes(), host`trace
      ensures var tree := if built == null then None else Some(old(built.View()));
              var out := Operations.Operate(Env(thread, closing, host.oracle), old(Held()), old(host.trace), op, tree, old(generation) + 1);
              Ready() && Held() == out.held && host.trace == out.trace && ret == out.ret
      ensures context == old(context) || context == null || (op.Load? && context == built)
    {
      hide LoadOp, ConfigureOp, ActivateOp, DeactivateOp, CleanupOp, UnloadOp, Steady, ComponentContext.View, ComponentContext.Built;
      match op {
        case Load(name) => ret := Load(host, thread, closing, name, built);
        case Configure => ret := Configure(host, thread, closing);
        case Activate(handover) => ret := Activate(host, thread, closing, handover);
        case Deactivate(_) => ret := Deactivate(host, thread, closing, true, []);
        case Cleanup => ret := Cleanup(host, thread, closing);
        case Unload(_) => ret := Unload(host, thread, closing, true, []);
      }
    }

    // ------------------------------------------------------------------ borrows

    /** The first half of `_borrow`. */
    method Borrow(thread: Tid, wanted: Option<nat>) returns (plugin: Option<PluginClass>)
      requires Ready() && Steady(Held())
      modifies this`inFlight, this`callers
      ensures plugin.Some? <==>
                && (wanted.None? || wanted.value == generation) && gate && state.ACTIVE?
                && context.instance.Some?
      ensures View() == if plugin.Some? then Lend(old(View()), thread) else old(View())
      ensures plugin.Some? ==> plugin == context.instance
    {
      plugin := None;
      if (wanted.None? || wanted.value == generation) && gate && state.ACTIVE? {
        plugin := context.instance;
        if plugin.Some? {
          inFlight := inFlight + 1;
          callers := callers[thread := (if thread in callers then callers[thread] else 0) + 1];
        }
      }
    }

    /** The `finally` of `_borrow`; `thread` is the one that made the borrow, wherever the scope ends. */
    method EndBorrow(thread: Tid)
      requires Calling(View(), thread) > 0
      modifies this`inFlight, this`callers
      ensures View() == GiveBack(old(View()), thread)
    {
      inFlight := inFlight - 1;
      if callers[thread] == 1 {
        callers := callers - {thread};
      } else {
        callers := callers[thread := callers[thread] - 1];
      }
    }
  }
}
