/**
 * What the recursive traversals of a component tree do, as functions.
 *
 * Foreign code is an oracle: a function of the whole event history and of the
 * call being made, so a statement about all oracles covers every callback
 * outcome, including outcomes that depend on what happened before.
 */
module ContextTree {
  import opened Lifecycle
  import opened Plugins

  datatype Call =
    | OnConfigure(node: nat)
    | OnCleanup(node: nat)
    | OnActivate(node: nat, args: seq<Option<Value>>)
    | OnDeactivate(node: nat)
    | CloseRuntime(handle: nat)

  datatype Event = Event(call: Call, raw: Raw, fault: Option<Fault>)

  type Oracle = (seq<Event>, Call) -> Raw

  datatype Error =
    | CallbackError(call: Call, fault: Fault)
    | AdaptedActivation(node: nat)
    | AdaptedDeactivation(node: nat)
    | UnacceptedState(node: nat)

  /** A component tree; `kids` lists the children of all slots in slot order. */
  datatype Tree = Node(
    id: nat,
    plugin: Option<PluginClass>,
    runtime: Option<nat>,
    runtimeClosed: bool,
    outstanding: bool,
    kids: seq<Tree>)

  datatype TreeResult = TreeResult(tree: Tree, trace: seq<Event>, error: Option<Error>, state: Option<Value>)

  /** `count` is the number of leading children that were fully activated. */
  datatype KidsResult = KidsResult(kids: seq<Tree>, trace: seq<Event>, error: Option<Error>, count: nat)

  predicate Native(t: Tree) {
    t.runtime.None?
  }

  /** Does this node have a local instance whose callbacks run in this process? */
  predicate Local(t: Tree) {
    Native(t) && t.plugin.Some?
  }

  function ErrorOf(e: Event): Option<Error> {
    if e.fault.None? then None else Some(CallbackError(e.call, e.fault.value))
  }

  /** Ask the oracle and interpret the reply like `Plugin.configure`, `cleanup` or `activate_state`. */
  function Invoke(o: Oracle, trace: seq<Event>, call: Call): Event {
    var raw := o(trace, call);
    Event(call, raw, CallbackFault(raw))
  }

  function InvokeDeactivate(o: Oracle, trace: seq<Event>, p: PluginClass, node: nat): Event {
    var raw := o(trace, OnDeactivate(node));
    Event(OnDeactivate(node), raw, DeactivateFault(p, raw))
  }

  /** `runtime.close()`: any reply that is not an exception counts as closed. */
  function InvokeClose(o: Oracle, trace: seq<Event>, handle: nat): Event {
    var raw := o(trace, CloseRuntime(handle));
    Event(CloseRuntime(handle), raw, if raw.Threw? then Some(CallbackThrew(raw.what)) else None)
  }

  // ---------------------------------------------------------------- configure

  function ConfigureTree(o: Oracle, trace: seq<Event>, t: Tree): TreeResult
    decreases t, 1
  {
    var k := ConfigureKids(o, trace, t.kids);
    if k.error.Some? || !Local(t) then
      TreeResult(t, k.trace, k.error, None)
    else
      var e := Invoke(o, k.trace, OnConfigure(t.id));
      TreeResult(t, k.trace + [e], ErrorOf(e), None)
  }

  function ConfigureKids(o: Oracle, trace: seq<Event>, kids: seq<Tree>): KidsResult
    decreases kids, 0
  {
    if kids == [] then KidsResult(kids, trace, None, 0)
    else
      var head := ConfigureTree(o, trace, kids[0]);
      if head.error.Some? then KidsResult(kids, head.trace, head.error, 0)
      else
        var rest := ConfigureKids(o, head.trace, kids[1..]);
        KidsResult(kids, rest.trace, rest.error, 0)
  }

  // ------------------------------------------------------------------ cleanup

  function CleanupTree(o: Oracle, trace: seq<Event>, t: Tree): TreeResult
    decreases t, 1
  {
    if Local(t) then
      var e := Invoke(o, trace, OnCleanup(t.id));
      var k := CleanupKids(o, trace + [e], t.kids);
      TreeResult(t, k.trace, First(ErrorOf(e), k.error), None)
    else
      var k := CleanupKids(o, trace, t.kids);
      TreeResult(t, k.trace, k.error, None)
  }

  /** Visits the children from the last to the first. */
  function CleanupKids(o: Oracle, trace: seq<Event>, kids: seq<Tree>): KidsResult
    decreases kids, 0
  {
    if kids == [] then KidsResult(kids, trace, None, 0)
    else
      var n := |kids| - 1;
      var last := CleanupTree(o, trace, kids[n]);
      var rest := CleanupKids(o, last.trace, kids[..n]);
      KidsResult(kids, rest.trace, First(last.error, rest.error), 0)
  }

  // --------------------------------------------------------------- deactivate

  /** The node's own part of `deactivate`, before its children are visited. */
  function DeactivateOwn(o: Oracle, trace: seq<Event>, t: Tree): TreeResult {
    if !Native(t) then TreeResult(t, trace, Some(AdaptedDeactivation(t.id)), None)
    else if t.plugin.Some? && t.outstanding then
      var e := InvokeDeactivate(o, trace, t.plugin.value, t.id);
      if e.fault.Some? then TreeResult(t, trace + [e], ErrorOf(e), None)
      else TreeResult(t.(outstanding := false), trace + [e], None, Exported(t.plugin.value, e.raw))
    else TreeResult(t, trace, None, None)
  }

  function DeactivateTree(o: Oracle, trace: seq<Event>, t: Tree): TreeResult
    decreases t, 1
  {
    var own := DeactivateOwn(o, trace, t);
    var k := DeactivateKids(o, own.trace, t.kids);
    var error := First(own.error, k.error);
    TreeResult(own.tree.(kids := k.kids), k.trace, error, if error.Some? then None else own.state)
  }

  /** Visits the children from the last to the first, continuing after errors. */
  function DeactivateKids(o: Oracle, trace: seq<Event>, kids: seq<Tree>): KidsResult
    decreases kids, 0
  {
    if kids == [] then KidsResult(kids, trace, None, 0)
    else
      var n := |kids| - 1;
      var last := DeactivateTree(o, trace, kids[n]);
      var rest := DeactivateKids(o, last.trace, kids[..n]);
      KidsResult(rest.kids + [last.tree], rest.trace, First(last.error, rest.error), 0)
  }

  // ----------------------------------------------------------------- activate

  predicate RootAccepts(t: Tree, state: Option<Value>) {
    if t.plugin.Some? then Accepts(t.plugin.value, state) else state.None?
  }

  /** Undo the first `count` children in reverse order; rollback errors are only logged. */
  function Rollback(o: Oracle, t: Tree, kids: seq<Tree>, count: nat, trace: seq<Event>, error: Option<Error>): TreeResult
    requires count <= |kids|
  {
    var undone := DeactivateKids(o, trace, kids[..count]);
    TreeResult(t.(kids := undone.kids + kids[count..]), undone.trace, error, None)
  }

  function ActivateTree(o: Oracle, trace: seq<Event>, t: Tree, state: Option<Value>): TreeResult
    decreases t, 1
  {
    if !Native(t) then TreeResult(t, trace, Some(AdaptedActivation(t.id)), None)
    else if !RootAccepts(t, state) then TreeResult(t, trace, Some(UnacceptedState(t.id)), None)
    else
      var k := ActivateKids(o, trace, t.kids);
      if k.error.Some? then Rollback(o, t, k.kids, k.count, k.trace, k.error)
      else if t.plugin.None? then TreeResult(t.(kids := k.kids), k.trace, None, None)
      else
        var e := Invoke(o, k.trace, OnActivate(t.id, ActivateArgs(t.plugin.value, state)));
        var t' := t.(outstanding := true, kids := k.kids);
        if e.fault.None? then TreeResult(t', k.trace + [e], None, None)
        else Rollback(o, t', k.kids, |k.kids|, k.trace + [e], ErrorOf(e))
  }

  /** Activates the children cold, from the first, until one fails. */
  function ActivateKids(o: Oracle, trace: seq<Event>, kids: seq<Tree>): (r: KidsResult)
    ensures |r.kids| == |kids| && r.count <= |kids|
    decreases kids, 0
  {
    if kids == [] then KidsResult(kids, trace, None, 0)
    else
      var head := ActivateTree(o, trace, kids[0], None);
      if head.error.Some? then KidsResult([head.tree] + kids[1..], head.trace, head.error, 0)
      else
        var rest := ActivateKids(o, head.trace, kids[1..]);
        KidsResult([head.tree] + rest.kids, rest.trace, rest.error, rest.count + 1)
  }

  // -------------------------------------------------------------------- close

  function CloseOwn(o: Oracle, trace: seq<Event>, t: Tree): TreeResult {
    if t.runtime.Some? && !t.runtimeClosed then
      var e := InvokeClose(o, trace, t.runtime.value);
      TreeResult(t.(runtimeClosed := e.fault.None?), trace + [e], ErrorOf(e), None)
    else TreeResult(t, trace, None, None)
  }

  function CloseTree(o: Oracle, trace: seq<Event>, t: Tree): TreeResult
    decreases t, 1
  {
    var own := CloseOwn(o, trace, t);
    var k := CloseKids(o, own.trace, t.kids);
    var error := First(own.error, k.error);
    TreeResult(
      if error.Some? then own.tree.(kids := k.kids) else own.tree.(plugin := None, kids := []),
      k.trace, error, None)
  }

  function CloseKids(o: Oracle, trace: seq<Event>, kids: seq<Tree>): KidsResult
    decreases kids, 0
  {
    if kids == [] then KidsResult(kids, trace, None, 0)
    else
      var n := |kids| - 1;
      var last := CloseTree(o, trace, kids[n]);
      var rest := CloseKids(o, last.trace, kids[..n]);
      KidsResult(rest.kids + [last.tree], rest.trace, First(last.error, rest.error), 0)
  }
}
