/**
 * One external component server: what starting and stopping it does, as
 * functions of the answers that the operating system and the network give.
 */
module ServerProcess {
  import opened Lifecycle

  type Adapter = nat

  /** Everything an `ExternalComponentProcess` asks of the outside. */
  datatype Request =
    | Spawn
    | StartExecutor
    | CallExecutor
    | StartContext
    | ConnectAdapter(adapter: Adapter)
    | ConnectClient
    | ShutdownClient
    | DisconnectClient
    | DisconnectAdapter(adapter: Adapter)
    | StopContext
    | StopExecutor(executor: nat)
    | Reap(child: nat)

  datatype Event = Event(request: Request, ok: bool)

  /** Answers may depend on everything that was asked before. */
  type Answers = (seq<Event>, Request) -> bool

  /**
   * The fields of an `ExternalComponentProcess`. A child process and an executor
   * are named by the position of the event that created them.
   */
  datatype Server = Server(
    components: seq<Adapter>,
    process: Option<nat>,
    context: bool,
    client: bool,
    executor: Option<nat>,
    started: bool,
    handles: nat)

  /** `error` is the position of the event whose failure is raised. */
  datatype Done = Done(server: Server, trace: seq<Event>, error: Option<nat>)

  datatype Asked = Asked(trace: seq<Event>, error: Option<nat>)

  function Ask(o: Answers, trace: seq<Event>, q: Request): Asked {
    var ok := o(trace, q);
    Asked(trace + [Event(q, ok)], if ok then None else Some(|trace|))
  }

  // ------------------------------------------------------------------ connect

  function ConnectAdapters(o: Answers, trace: seq<Event>, adapters: seq<Adapter>): Asked
    decreases |adapters|
  {
    if adapters == [] then Asked(trace, None)
    else
      var first := Ask(o, trace, ConnectAdapter(adapters[0]));
      if first.error.Some? then first else ConnectAdapters(o, first.trace, adapters[1..])
  }

  /** `_connect_adapters` */
  function Connect(o: Answers, s: Server, trace: seq<Event>): Done {
    var s1 := s.(context := true);
    var begun := Ask(o, trace, StartContext);
    if begun.error.Some? then Done(s1, begun.trace, begun.error)
    else
      var adapters := ConnectAdapters(o, begun.trace, s.components);
      if adapters.error.Some? then Done(s1, adapters.trace, adapters.error)
      else
        var client := Ask(o, adapters.trace, ConnectClient);
        Done(s1.(client := true), client.trace, client.error)
  }

  // --------------------------------------------------------------- disconnect

  /** A failed shutdown request is only logged. */
  function DropClient(o: Answers, s: Server, trace: seq<Event>): Asked {
    if s.client then Ask(o, Ask(o, trace, ShutdownClient).trace, DisconnectClient) else Asked(trace, None)
  }

  /** From the last adapter to the first, whatever fails. */
  function DropAdapters(o: Answers, trace: seq<Event>, adapters: seq<Adapter>): Asked
    decreases |adapters|
  {
    if adapters == [] then Asked(trace, None)
    else
      var n := |adapters| - 1;
      var last := Ask(o, trace, DisconnectAdapter(adapters[n]));
      var rest := DropAdapters(o, last.trace, adapters[..n]);
      Asked(rest.trace, First(last.error, rest.error))
  }

  function DropContext(o: Answers, s: Server, trace: seq<Event>): Asked {
    if s.context then Ask(o, trace, StopContext) else Asked(trace, None)
  }

  /** `_disconnect_adapters` */
  function Disconnect(o: Answers, s: Server, trace: seq<Event>): Done {
    var client := DropClient(o, s, trace);
    var adapters := DropAdapters(o, client.trace, s.components);
    var context := DropContext(o, s, adapters.trace);
    Done(s.(client := false, context := false), context.trace, First(client.error, First(adapters.error, context.error)))
  }

  // -------------------------------------------------------------------- close

  /** Disconnect on the executor and stop it. */
  function StopCalls(o: Answers, s: Server, trace: seq<Event>): Done {
    if s.executor.None? then Done(s, trace, None)
    else
      var call := Ask(o, trace, CallExecutor);
      var left := if call.error.Some? then Done(s, call.trace, call.error) else Disconnect(o, s, call.trace);
      var stop := Ask(o, left.trace, StopExecutor(s.executor.value));
      Done(
        if stop.error.None? then left.server.(executor := None) else left.server,
        stop.trace, First(left.error, stop.error))
  }

  function ReapChild(o: Answers, s: Server, trace: seq<Event>): Done {
    if s.process.None? then Done(s, trace, None)
    else
      var reap := Ask(o, trace, Reap(s.process.value));
      Done(if reap.error.None? then s.(process := None) else s, reap.trace, reap.error)
  }

  function Close(o: Answers, s: Server, trace: seq<Event>): Done {
    var calls := StopCalls(o, s, trace);
    var child := ReapChild(o, calls.server, calls.trace);
    Done(child.server.(started := false), child.trace, First(calls.error, child.error))
  }

  // ------------------------------------------------------------------ prepare

  /** The body of the `try` in `prepare`. */
  function Launch(o: Answers, s: Server, trace: seq<Event>): Done {
    var spawn := Ask(o, trace, Spawn);
    if spawn.error.Some? then Done(s, spawn.trace, spawn.error)
    else
      var s1 := s.(process := Some(|trace|), executor := Some(|spawn.trace|));
      var start := Ask(o, spawn.trace, StartExecutor);
      if start.error.Some? then Done(s1, start.trace, start.error)
      else
        var call := Ask(o, start.trace, CallExecutor);
        if call.error.Some? then Done(s1, call.trace, call.error)
        else
          var joined := Connect(o, s1, call.trace);
          if joined.error.Some? then joined else joined.(server := joined.server.(started := true))
  }

  function Prepare(o: Answers, s: Server, trace: seq<Event>): Done {
    if s.started then Done(s, trace, None)
    else
      var launch := Launch(o, s, trace);
      if launch.error.None? then launch else Close(o, launch.server, launch.trace).(error := launch.error)
  }

  // ------------------------------------------------------------------ release

  function Release(o: Answers, s: Server, trace: seq<Event>): Done {
    if s.handles == 0 then Done(s, trace, None)
    else if s.handles == 1 then
      var closed := Close(o, s, trace);
      if closed.error.Some? then closed else closed.(server := closed.server.(handles := 0))
    else Done(s.(handles := s.handles - 1), trace, None)
  }

  // ---------------------------------------------------------------- resources

  /** The children that were spawned and not reaped yet. */
  function Children(trace: seq<Event>): set<nat> {
    if trace == [] then {}
    else
      var n := |trace| - 1;
      var e := trace[n];
      var before := Children(trace[..n]);
      if e.request.Spawn? && e.ok then before + {n}
      else if e.request.Reap? && e.ok then before - {e.request.child}
      else before
  }

  /** The executors that were created and not stopped yet. */
  function Executors(trace: seq<Event>): set<nat> {
    if trace == [] then {}
    else
      var n := |trace| - 1;
      var e := trace[n];
      var before := Executors(trace[..n]);
      if e.request.StartExecutor? then before + {n}
      else if e.request.StopExecutor? && e.ok then before - {e.request.executor}
      else before
  }

  function AsSet(x: Option<nat>): set<nat> {
    if x.Some? then {x.value} else {}
  }

  /** The server knows every child and executor that it started and did not end. */
  predicate Owns(s: Server, trace: seq<Event>) {
    Children(trace) == AsSet(s.process) && Executors(trace) == AsSet(s.executor)
  }

  /** A server is started only together with its child and its executor. */
  predicate Sane(s: Server) {
    s.started ==> s.process.Some? && s.executor.Some?
  }
}
