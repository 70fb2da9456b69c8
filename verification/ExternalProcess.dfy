/** The objects behind `ServerProcess` and `SharedServers`, updated in place. */
module ExternalProcess {
  import opened Lifecycle
  import opened Text
  import opened ServerProcess
  import SharedServers

  /** The operating system and the network: what they answer, and everything they were asked. */
  class World {
    const answers: Answers
    var trace: seq<Event>

    constructor (answers: Answers)
      ensures this.answers == answers && trace == []
    {
      this.answers := answers;
      trace := [];
    }

    /** One request; `error` names the event if it failed. */
    method Ask(q: Request) returns (error: Option<nat>)
      modifies this`trace
      ensures var asked := ServerProcess.Ask(answers, old(trace), q); trace == asked.trace && error == asked.error
    {
      var ok := answers(trace, q);
      error := if ok then None else Some(|trace|);
      trace := trace + [Event(q, ok)];
    }
  }

  class ExternalComponentProcess {
    var components: seq<Adapter>
    var process: Option<nat>
    var runtimeContext: bool
    var runtimeClient: bool
    var executor: Option<nat>
    var started: bool
    var activeHandles: nat

    constructor (components: seq<Adapter>)
      requires components != []
      ensures View() == Server(components, None, false, false, None, false, 0)
    {
      this.components := components;
      process, executor := None, None;
      runtimeContext, runtimeClient, started := false, false, false;
      activeHandles := 0;
    }

    function View(): Server
      reads this
    {
      Server(components, process, runtimeContext, runtimeClient, executor, started, activeHandles)
    }

    /** Refused once the process has been started. */
    method AddComponent(adapter: Adapter) returns (ok: bool)
      modifies this`components
      ensures ok == (!started && process.None?)
      ensures components == if ok then old(components) + [adapter] else old(components)
    {
      ok := !started && process.None?;
      if ok {
        components := components + [adapter];
      }
    }

    method Prepare(world: World) returns (error: Option<nat>)
      modifies this, world`trace
      ensures var d := ServerProcess.Prepare(world.answers, old(View()), old(world.trace));
              View() == d.server && world.trace == d.trace && error == d.error
    {
      if started {
        return None;
      }
      error := Launch(world);
      if error.Some? {
        var _ := Close(world);
      }
    }

    /** The body of the `try` in `prepare`. */
    method Launch(world: World) returns (error: Option<nat>)
      requires !started
      modifies this, world`trace
      ensures var d := ServerProcess.Launch(world.answers, old(View()), old(world.trace));
              View() == d.server && world.trace == d.trace && error == d.error
    {
      error := world.Ask(Spawn);
      if error.Some? {
        return;
      }
      process := Some(|world.trace| - 1);
      executor := Some(|world.trace|);
      error := world.Ask(StartExecutor);
      if error.Some? {
        return;
      }
      error := world.Ask(CallExecutor);
      if error.Some? {
        return;
      }
      error := ConnectAdapters(world);
      if error.None? {
        started := true;
      }
    }

    method ConnectAdapters(world: World) returns (error: Option<nat>)
      modifies this`runtimeContext, this`runtimeClient, world`trace
      ensures var d := Connect(world.answers, old(View()), old(world.trace));
              View() == d.server && world.trace == d.trace && error == d.error
    {
      runtimeContext := true;
      error := world.Ask(StartContext);
      if error.Some? {
        return;
      }
      ghost var goal := ServerProcess.ConnectAdapters(world.answers, world.trace, components);
      assert components[0..] == components;
      for k := 0 to |components|
        invariant runtimeContext && runtimeClient == old(runtimeClient)
        invariant goal == ServerProcess.ConnectAdapters(world.answers, world.trace, components[k..])
      {
        assert components[k..][1..] == components[k + 1..];
        error := world.Ask(ConnectAdapter(components[k]));
        if error.Some? {
          return;
        }
      }
      runtimeClient := true;
      error := world.Ask(ConnectClient);
    }

    method DisconnectAdapters(world: World) returns (error: Option<nat>)
      modifies this`runtimeContext, this`runtimeClient, world`trace
      ensures var d := Disconnect(world.answers, old(View()), old(world.trace));
              View() == d.server && world.trace == d.trace && error == d.error
    {
      error := None;
      if runtimeClient {
        var _ := world.Ask(ShutdownClient);
        error := world.Ask(DisconnectClient);
        runtimeClient := false;
      }
      ghost var client := error;
      ghost var goal := DropAdapters(world.answers, world.trace, components);
      var k := |components|;
      assert components[..k] == components;
      while k > 0
        invariant 0 <= k <= |components|
        invariant !runtimeClient && runtimeContext == old(runtimeContext)
        invariant var rest := DropAdapters(world.answers, world.trace, components[..k]);
          goal.trace == rest.trace && First(client, goal.error) == First(error, rest.error)
      {
        assert components[..k][..k - 1] == components[..k - 1];
        k := k - 1;
        var failed := world.Ask(DisconnectAdapter(components[k]));
        error := First(error, failed);
      }
      if runtimeContext {
        var failed := world.Ask(StopContext);
        error := First(error, failed);
        runtimeContext := false;
      }
    }

    method Close(world: World) returns (error: Option<nat>)
      modifies this, world`trace
      ensures var d := ServerProcess.Close(world.answers, old(View()), old(world.trace));
              View() == d.server && world.trace == d.trace && error == d.error
    {
      error := None;
      if executor.Some? {
        error := world.Ask(CallExecutor);
        if error.None? {
          error := DisconnectAdapters(world);
        }
        var failed := world.Ask(StopExecutor(executor.value));
        if failed.None? {
          executor := None;
        }
        error := First(error, failed);
      }
      if process.Some? {
        var failed := world.Ask(Reap(process.value));
        if failed.None? {
          process := None;
        }
        error := First(error, failed);
      }
      started := false;
    }

    /** Keeps the last owner if shutting down fails. */
    method Release(world: World) returns (error: Option<nat>)
      modifies this, world`trace
      ensures var d := ServerProcess.Release(world.answers, old(View()), old(world.trace));
              View() == d.server && world.trace == d.trace && error == d.error
    {
      error := None;
      if activeHandles == 0 {
        return;
      }
      if activeHandles == 1 {
        error := Close(world);
        if error.Some? {
          return;
        }
      }
      activeHandles := activeHandles - 1;
    }
  }

  /** `Released` is the error of using a handle after it was closed. */
  datatype HandleError = Failed(event: nat) | Released

  class SharedHandle {
    const process: ExternalComponentProcess
    var closed: bool

    constructor (process: ExternalComponentProcess)
      ensures this.process == process && !closed
    {
      this.process := process;
      closed := false;
    }

    method Prepare(world: World) returns (error: Option<HandleError>)
      modifies process, world`trace
      ensures closed ==>
                error == Some(Released) && process.View() == old(process.View()) && world.trace == old(world.trace)
      ensures !closed ==>
                var d := ServerProcess.Prepare(world.answers, old(process.View()), old(world.trace));
                && process.View() == d.server && world.trace == d.trace
                && error == if d.error.Some? then Some(Failed(d.error.value)) else None
    {
      if closed {
        return Some(Released);
      }
      var failed := process.Prepare(world);
      error := if failed.Some? then Some(Failed(failed.value)) else None;
    }

    method Close(world: World) returns (error: Option<nat>)
      modifies this`closed, process, world`trace
      ensures old(closed) ==>
                error.None? && closed && process.View() == old(process.View()) && world.trace == old(world.trace)
      ensures !old(closed) ==>
                var d := ServerProcess.Release(world.answers, old(process.View()), old(world.trace));
                process.View() == d.server && world.trace == d.trace && error == d.error && closed == d.error.None?
    {
      error := None;
      if closed {
        return;
      }
      error := process.Release(world);
      closed := error.None?;
    }
  }

  /** What `create` returns or raises. */
  datatype CreateError = UnknownLanguage | FactoryFailed | AlreadyStarted

  class Registry {
    /** Whether processes of a registered language are shared. */
    var factories: map<string, bool>
    var shared: map<string, ExternalComponentProcess>

    constructor ()
      ensures factories == map[] && shared == map[]
    {
      factories, shared := map[], map[];
    }

    /** `register`: blank names are refused, and a later registration replaces an earlier one. */
    method Register(language: string, share: bool) returns (ok: bool)
      modifies this`factories
      ensures ok == (Normalized(language) != "")
      ensures factories == if ok then old(factories)[Normalized(language) := share] else old(factories)
    {
      ok := Normalized(language) != "";
      if ok {
        factories := factories[Normalized(language) := share];
      }
    }

    /** Existing handles retain their processes. */
    method BeginBuild()
      modifies this`shared
      ensures shared == map[]
    {
      shared := map[];
    }

    /**
     * `create`. For a shared language the new handle is counted on the process of the
     * language's group, which is new if the build had none; for another one (`own`)
     * the registry hands on what the factory built and keeps nothing. A refusal
     * counts nothing and changes nothing.
     */
    method Create(language: string, adapter: Adapter, factoryWorks: bool)
      returns (handle: SharedHandle?, own: bool, error: Option<CreateError>)
      modifies this`shared, shared.Values
      ensures handle != null <==> error.None? && !own
      ensures own <==> Normalized(language) in factories && !factories[Normalized(language)] && factoryWorks
      ensures error == Some(UnknownLanguage) <==> Normalized(language) !in factories
      ensures error == Some(FactoryFailed) <==>
              && Normalized(language) in factories && !factoryWorks
              && (factories[Normalized(language)] ==> Normalized(language) !in old(shared))
      ensures error == Some(AlreadyStarted) <==>
              && Normalized(language) in factories && factories[Normalized(language)] && Normalized(language) in old(shared)
              && old(shared[Normalized(language)].started || shared[Normalized(language)].process.Some?)
      ensures handle == null ==>
                shared == old(shared) && forall p | p in shared.Values :: p.View() == old(p.View())
      ensures handle != null ==>
                && fresh(handle) && !handle.closed
                && shared == old(shared)[Normalized(language) := handle.process]
                && if Normalized(language) in old(shared) then
                     && handle.process == old(shared[Normalized(language)])
                     && (var s := old(shared[Normalized(language)].View());
                         handle.process.View() == s.(components := s.components + [adapter], handles := s.handles + 1))
                     && (forall p | p in old(shared.Values) && p != handle.process :: p.View() == old(p.View()))
                   else
                     && fresh(handle.process) && handle.process.View() == SharedServers.NewServer(adapter)
                     && (forall p | p in old(shared.Values) :: p.View() == old(p.View()))
    {
      var name := Normalized(language);
      if name !in factories {
        return null, false, Some(UnknownLanguage);
      }
      if !factories[name] {
        return null, factoryWorks, if factoryWorks then None else Some(FactoryFailed);
      }
      var process: ExternalComponentProcess;
      if name !in shared {
        if !factoryWorks {
          return null, false, Some(FactoryFailed);
        }
        process := new ExternalComponentProcess([adapter]);
        shared := shared[name := process];
      } else {
        process := shared[name];
        var added := process.AddComponent(adapter);
        if !added {
          return null, false, Some(AlreadyStarted);
        }
      }
      process.activeHandles := process.activeHandles + 1;
      handle := new SharedHandle(process);
      own, error := false, None;
    }
  }
}
