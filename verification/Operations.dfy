/**
 * The management operations of one entry when nothing interferes: an entry, the
 * tree it holds, and the trace of foreign calls go in, the same and a result come out.
 * Sections, flags and traversals are those of the protocol.
 */
module Operations {
  import opened Lifecycle
  import opened Plugins
  import opened ContextTree
  import opened StopTheorems
  import opened Entries
  import opened Protocol
  import opened Invariant

  /** An entry with the tree of its context. */
  datatype Held = Held(e: Entry, tree: Option<Tree>)

  /** The calling thread, whether the manager is closing, and the foreign code. */
  datatype Env = Env(t: Tid, closing: bool, oracle: Oracle)

  datatype Outcome = Outcome(held: Held, trace: seq<Event>, ret: Ret)

  datatype Called = Called(held: Held, trace: seq<Event>, ok: bool, state: Option<Value>)

  /** An entry holding a tree whose debts it knows. */
  ghost predicate Steady(h: Held) {
    && Coherent(h.e) && Counted(h.e) && (h.e.transition.None? ==> Rests(h.e))
    && (h.tree.Some? <==> h.e.context.Some?)
    && (h.tree.Some? ==> WellFormed(h.tree.value) && (!h.e.mayBeActive ==> Owing(h.tree.value) == []))
    && (h.tree.Some? && h.e.state.ACTIVE? && h.e.transition.None? ==> AllStarted(h.tree.value))
  }

  /** It satisfies the table of states as well. */
  ghost predicate Sound(h: Held) {
    Steady(h) && Flags(h.e) && (h.e.transition.None? ==> Quiet(h.e))
  }

  lemma NewIsSound()
    ensures Sound(Held(NewEntry, None))
  {
    assert Counted(NewEntry);
  }

  predicate Accepted(env: Env, e: Entry, op: Prim) {
    !Refuses(e, env.t, env.closing, Allowed(op), op.Unload?)
  }

  function Refusal(h: Held, trace: seq<Event>): Outcome {
    Outcome(h.(e := Reject(h.e)), trace, Ret(false, None))
  }

  function Entered(env: Env, h: Held, op: Prim): Held {
    h.(e := Entries.Begin(h.e, OpOf(op), env.t))
  }

  /** One callback on the tree, and the flag that the code after it updates. */
  function CallBack(env: Env, h: Held, trace: seq<Event>, k: Callback, arg: Option<Value>): Called
    requires h.tree.Some?
  {
    var r := Perform(Outside(env.oracle, trace), k, h.tree.value, arg);
    var ok := r.error.None?;
    Called(Held(Settle(h.e, k, ok), if k.Closing? && ok then None else Some(r.tree)), r.trace, ok, r.state)
  }

  function Complete(c: Called, op: Prim): Outcome {
    Outcome(c.held.(e := Finish(c.held.e, Reached(op, c.ok), c.ok)), c.trace,
      Ret(c.ok, if c.ok && op.Deactivate? then c.state else None))
  }

  /** The operation ends without calling anything more. */
  function Plainly(h: Held, trace: seq<Event>, ok: bool): Called {
    Called(h, trace, ok, None)
  }

  /** The part of `load` after `_begin`. */
  function Build(begun: Held, trace: seq<Event>, component: Option<string>, built: Option<Tree>, id: ContextId): Outcome {
    var e := if component.Some? then begun.e.(component := component.value) else begun.e;
    if e.component == "" then Outcome(begun.(e := Finish(e, UNLOADED, false)), trace, Ret(false, None))
    else if built.None? then Complete(Plainly(begun.(e := e), trace, false), Load(component))
    else
      var loaded := e.(context := Some(id), generation := e.generation + 1, configured := false, mayBeActive := false);
      Complete(Plainly(Held(loaded, built), trace, true), Load(component))
  }

  function LoadOp(env: Env, h: Held, trace: seq<Event>, component: Option<string>, built: Option<Tree>, id: ContextId): Outcome {
    if !Accepted(env, h.e, Load(component)) then Refusal(h, trace)
    else Build(Entered(env, h, Load(component)), trace, component, built, id)
  }

  function ConfigureOp(env: Env, h: Held, trace: seq<Event>): Outcome
    requires Steady(h)
  {
    if !Accepted(env, h.e, Configure) then Refusal(h, trace)
    else
      var begun := Entered(env, h, Configure);
      Complete(CallBack(env, begun.(e := begun.e.(configured := true)), trace, Configuring, None), Configure)
  }

  function ActivateOp(env: Env, h: Held, trace: seq<Event>, state: Option<Value>): Outcome
    requires Steady(h)
  {
    if h.e.state.ACTIVE? && h.e.transition.None? && !env.closing then Outcome(h, trace, Ret(true, None))
    else if !Accepted(env, h.e, Activate(state)) then Refusal(h, trace)
    else
      var begun := Entered(env, h, Activate(state));
      Complete(CallBack(env, begun.(e := begun.e.(mayBeActive := true)), trace, Activating, state), Activate(state))
  }

  /** Nothing is called on an entry without a context. */
  lemma NeedsContext(env: Env, h: Held, op: Prim)
    requires Steady(h) && Accepted(env, h.e, op)
    ensures op.Configure? || op.Activate? ==> h.tree.Some?
    ensures op.Deactivate? && (h.e.state.ERROR? ==> h.e.mayBeActive) ==> h.tree.Some?
  {
  }

  /** The part of `deactivate` after `_begin`. With calls in flight the drain times out. */
  function Halted(env: Env, begun: Held, trace: seq<Event>): Outcome
    requires begun.tree.Some?
  {
    Complete(
      if begun.e.inFlight != 0 then Plainly(begun, trace, false) else CallBack(env, begun, trace, Deactivating, None),
      Deactivate(true))
  }

  function DeactivateOp(env: Env, h: Held, trace: seq<Event>): Outcome
    requires Steady(h)
  {
    if h.e.state.INACTIVE? && h.e.transition.None? then Outcome(h, trace, Ret(true, None))
    else if h.e.state.ERROR? && !h.e.mayBeActive then Refusal(h, trace)
    else if !Accepted(env, h.e, Deactivate(true)) then Refusal(h, trace)
    else Halted(env, Entered(env, h, Deactivate(true)), trace)
  }

  /** On an entry whose load failed, the transition mark stays behind. */
  function CleanupOp(env: Env, h: Held, trace: seq<Event>): Outcome
    requires Steady(h)
  {
    if h.e.mayBeActive then Refusal(h, trace)
    else if !Accepted(env, h.e, Cleanup) then Refusal(h, trace)
    else
      var begun := Entered(env, h, Cleanup);
      if h.tree.None? then Outcome(begun, trace, Raised)
      else Complete(CallBack(env, begun, trace, CleaningUp, None), Cleanup)
  }

  function StopFirst(env: Env, h: Held, trace: seq<Event>): (c: Called)
    requires h.tree.Some?
    ensures c.held.tree.Some?
  {
    if h.e.mayBeActive then CallBack(env, h, trace, Deactivating, None) else Plainly(h, trace, true)
  }

  function ThenCleanUp(env: Env, c: Called): (c': Called)
    requires c.held.tree.Some?
    ensures c'.held.tree.Some?
  {
    if c.ok && c.held.e.configured then CallBack(env, c.held, c.trace, CleaningUp, None) else c
  }

  function ThenClose(env: Env, c: Called): Called
    requires c.held.tree.Some?
  {
    if c.ok then CallBack(env, c.held, c.trace, Closing, None) else c
  }

  /** The part of `unload` after `_begin`. */
  function Discarded(env: Env, begun: Held, trace: seq<Event>): Outcome {
    Complete(
      if begun.e.inFlight != 0 then Plainly(begun, trace, false)
      else if begun.tree.None? then Plainly(begun, trace, true)
      else ThenClose(env, ThenCleanUp(env, StopFirst(env, begun, trace))),
      Unload(true))
  }

  function UnloadOp(env: Env, h: Held, trace: seq<Event>): Outcome
    requires Steady(h)
  {
    if !Accepted(env, h.e, Unload(true)) then Refusal(h, trace)
    else Discarded(env, Entered(env, h, Unload(true)), trace)
  }

  /** The operation that `op` names; `built` and `id` are what the builder would return to a load. */
  function Operate(env: Env, h: Held, trace: seq<Event>, op: Prim, built: Option<Tree>, id: ContextId): Outcome
    requires Steady(h)
  {
    match op
    case Load(component) => LoadOp(env, h, trace, component, built, id)
    case Configure => ConfigureOp(env, h, trace)
    case Activate(state) => ActivateOp(env, h, trace, state)
    case Deactivate(_) => DeactivateOp(env, h, trace)
    case Cleanup => CleanupOp(env, h, trace)
    case Unload(_) => UnloadOp(env, h, trace)
  }

  // ------------------------------------------------------- calls that end during a drain

  /** The operation comes to the point where it waits for the calls in flight. */
  predicate ComesToWait(env: Env, e: Entry, op: Prim) {
    Accepted(env, e, op) && (op.Unload? || (op.Deactivate? && !(e.state.ERROR? && !e.mayBeActive)))
  }

  /** Each of these threads has a call in flight that it can end. */
  predicate MayEnd(e: Entry, ended: seq<Tid>)
    decreases |ended|
  {
    ended == [] || (Calling(e, ended[0]) > 0 && MayEnd(GiveBack(e, ended[0]), ended[1..]))
  }

  /** They end them, one after the other. */
  function Ebbed(e: Entry, ended: seq<Tid>): Entry
    requires MayEnd(e, ended)
    decreases |ended|
  {
    if ended == [] then e else Ebbed(GiveBack(e, ended[0]), ended[1..])
  }

  /** The entry after the wait, if the operation comes to it. */
  function Waited(env: Env, h: Held, op: Prim, ended: seq<Tid>): Held
    requires ComesToWait(env, h.e, op) ==> MayEnd(h.e, ended)
  {
    if ComesToWait(env, h.e, op) then h.(e := Ebbed(h.e, ended)) else h
  }

  /** Ending calls counts them and nothing else. */
  lemma {:induction false} EbbedCounts(e: Entry, ended: seq<Tid>)
    requires MayEnd(e, ended)
    ensures var r := Ebbed(e, ended);
            && r == e.(inFlight := r.inFlight, callers := r.callers) && r.inFlight == e.inFlight - |ended|
            && (forall t :: Calling(r, t) <= Calling(e, t))
            && (Counted(e) ==> Counted(r))
    decreases |ended|
  {
    hide Counted;
    if ended != [] {
      if Counted(e) {
        GiveBackCounted(e, ended[0]);
      }
      GiveBackLess(e, ended[0]);
      EbbedCounts(GiveBack(e, ended[0]), ended[1..]);
    }
  }

  lemma GiveBackLess(e: Entry, t: Tid)
    requires Calling(e, t) > 0
    ensures forall u :: Calling(GiveBack(e, t), u) <= Calling(e, u)
  {
  }

  /** Whether the calls end before or after `_begin` makes no difference. */
  lemma {:induction false} BegunEbbs(e: Entry, op: Op, t: Tid, ended: seq<Tid>)
    requires MayEnd(e, ended)
    ensures MayEnd(Entries.Begin(e, op, t), ended)
    ensures Ebbed(Entries.Begin(e, op, t), ended) == Entries.Begin(Ebbed(e, ended), op, t)
    decreases |ended|
  {
    if ended != [] {
      assert GiveBack(Entries.Begin(e, op, t), ended[0]) == Entries.Begin(GiveBack(e, ended[0]), op, t);
      BegunEbbs(GiveBack(e, ended[0]), op, t, ended[1..]);
    }
  }

  /** The wait keeps what is known of the entry, and what it was accepted for. */
  lemma WaitedKeeps(env: Env, h: Held, op: Prim, ended: seq<Tid>)
    requires Steady(h) && (ComesToWait(env, h.e, op) ==> MayEnd(h.e, ended))
    ensures Steady(Waited(env, h, op, ended)) && (Sound(h) ==> Sound(Waited(env, h, op, ended)))
    ensures ComesToWait(env, Waited(env, h, op, ended).e, op) == ComesToWait(env, h.e, op)
  {
    hide Counted, WellFormed, Owing, Ebbed;
    if ComesToWait(env, h.e, op) {
      EbbedCounts(h.e, ended);
    }
  }

  /** `deactivate` with the calls that end while it waits: its guards look at the entry before, the rest at the one after. */
  lemma DeactivateParts(env: Env, h: Held, trace: seq<Event>, timed: bool, ended: seq<Tid>)
    requires Steady(h) && (ComesToWait(env, h.e, Deactivate(timed)) ==> MayEnd(h.e, ended))
    ensures var op := Deactivate(timed);
            var w := Waited(env, h, op, ended);
            && Steady(w)
            && if h.e.state.INACTIVE? && h.e.transition.None? then
                 DeactivateOp(env, w, trace) == Outcome(h, trace, Ret(true, None))
               else if (h.e.state.ERROR? && !h.e.mayBeActive) || !Accepted(env, h.e, op) then
                 DeactivateOp(env, w, trace) == Refusal(h, trace)
               else
                 && ComesToWait(env, h.e, op) && h.tree.Some? && w.tree == h.tree
                 && DeactivateOp(env, w, trace) == Halted(env, Entered(env, w, op), trace)
  {
    hide Refuses, Halted, Counted, WellFormed, Owing;
    var op := Deactivate(timed);
    WaitedKeeps(env, h, op, ended);
    TimedAlike(env, h.e, op);
    TimedAlike(env, Waited(env, h, op, ended).e, op);
    NeverWaits(env, h.e, timed);
    if ComesToWait(env, h.e, op) {
      NeedsContext(env, h, op);
      EbbedCounts(h.e, ended);
    }
  }

  /** The same for `unload`. */
  lemma UnloadParts(env: Env, h: Held, trace: seq<Event>, timed: bool, ended: seq<Tid>)
    requires Steady(h) && (ComesToWait(env, h.e, Unload(timed)) ==> MayEnd(h.e, ended))
    ensures var op := Unload(timed);
            var w := Waited(env, h, op, ended);
            && Steady(w)
            && if !Accepted(env, h.e, op) then UnloadOp(env, w, trace) == Refusal(h, trace)
               else
                 && w == h.(e := Ebbed(h.e, ended)) && MayEnd(h.e, ended)
                 && UnloadOp(env, w, trace) == Discarded(env, Entered(env, w, op), trace)
  {
    hide Refuses, Discarded, Counted, WellFormed, Owing, Ebbed, MayEnd;
    var op := Unload(timed);
    WaitedKeeps(env, h, op, ended);
    TimedAlike(env, h.e, op);
    TimedAlike(env, Waited(env, h, op, ended).e, op);
  }

  /** Whether a wait has a time limit is no matter for the guards before it. */
  lemma TimedAlike(env: Env, e: Entry, op: Prim)
    ensures op.Deactivate? ==> Accepted(env, e, op) == Accepted(env, e, Deactivate(true))
    ensures op.Unload? ==> Accepted(env, e, op) == Accepted(env, e, Unload(true))
  {
  }

  lemma NeverWaits(env: Env, e: Entry, timed: bool)
    ensures e.state.INACTIVE? ==> !ComesToWait(env, e, Deactivate(timed))
  {
  }
}
