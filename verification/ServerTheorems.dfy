/** Start-up rollback, retryable teardown and ownership of one external server. */
module ServerTheorems {
  import opened Lifecycle
  import opened ServerProcess

  // ------------------------------------------------------------- what was asked

  lemma {:induction false} Bounded(trace: seq<Event>)
    ensures forall c | c in Children(trace) :: c < |trace|
    ensures forall x | x in Executors(trace) :: x < |trace|
  {
    if trace != [] {
      Bounded(trace[..|trace| - 1]);
    }
  }

  lemma Appended(trace: seq<Event>, e: Event)
    ensures Children(trace + [e]) ==
            if e.request.Spawn? && e.ok then Children(trace) + {|trace|}
            else if e.request.Reap? && e.ok then Children(trace) - {e.request.child} else Children(trace)
    ensures Executors(trace + [e]) ==
            if e.request.StartExecutor? then Executors(trace) + {|trace|}
            else if e.request.StopExecutor? && e.ok then Executors(trace) - {e.request.executor} else Executors(trace)
  {
    assert (trace + [e])[..|trace|] == trace;
  }

  /** `later` continues `trace` without creating or ending anything. */
  predicate Continues(trace: seq<Event>, later: seq<Event>) {
    trace <= later && Children(later) == Children(trace) && Executors(later) == Executors(trace)
  }

  predicate Neutral(q: Request) {
    !q.Spawn? && !q.StartExecutor? && !q.StopExecutor? && !q.Reap?
  }

  lemma AskNeutral(o: Answers, trace: seq<Event>, q: Request)
    requires Neutral(q)
    ensures Continues(trace, Ask(o, trace, q).trace)
  {
    Appended(trace, Event(q, o(trace, q)));
  }

  /** The position of the first event after `from` that failed; failed shutdown requests do not count. */
  function FirstFailure(trace: seq<Event>, from: nat): Option<nat>
    decreases |trace|
  {
    if |trace| <= from then None
    else
      var n := |trace| - 1;
      First(FirstFailure(trace[..n], from), if trace[n].ok || trace[n].request.ShutdownClient? then None else Some(n))
  }

  lemma FailureNext(trace: seq<Event>, e: Event, from: nat)
    requires from <= |trace|
    ensures FirstFailure(trace + [e], from)
         == First(FirstFailure(trace, from), if e.ok || e.request.ShutdownClient? then None else Some(|trace|))
    ensures FirstFailure(trace, |trace|) == None
  {
    assert (trace + [e])[..|trace|] == trace;
  }

  lemma {:induction false} FailureSplit(trace: seq<Event>, mid: nat, from: nat)
    requires from <= mid <= |trace|
    ensures FirstFailure(trace, from) == First(FirstFailure(trace[..mid], from), FirstFailure(trace, mid))
    decreases |trace|
  {
    if mid < |trace| {
      FailureSplit(trace[..|trace| - 1], mid, from);
      assert trace[..|trace| - 1][..mid] == trace[..mid];
    } else {
      assert trace[..mid] == trace;
    }
  }

  /** A step of an attempt: it continues the trace and reports its own first failure. */
  predicate Reports(trace: seq<Event>, later: seq<Event>, error: Option<nat>) {
    trace <= later && error == FirstFailure(later, |trace|)
  }

  lemma AskReports(o: Answers, trace: seq<Event>, q: Request)
    requires !q.ShutdownClient?
    ensures Reports(trace, Ask(o, trace, q).trace, Ask(o, trace, q).error)
  {
    FailureNext(trace, Event(q, o(trace, q)), |trace|);
  }

  lemma ReportsChain(a: seq<Event>, b: seq<Event>, c: seq<Event>, e: Option<nat>, f: Option<nat>)
    requires Reports(a, b, e) && Reports(b, c, f)
    ensures Reports(a, c, First(e, f))
  {
    FailureSplit(c, |b|, |a|);
    assert c[..|b|] == b;
  }

  // ------------------------------------------------------------------- adapters

  function Connects(adapters: seq<Adapter>): seq<Request> {
    if adapters == [] then [] else [ConnectAdapter(adapters[0])] + Connects(adapters[1..])
  }

  function Disconnects(adapters: seq<Adapter>): seq<Request> {
    if adapters == [] then []
    else [DisconnectAdapter(adapters[|adapters| - 1])] + Disconnects(adapters[..|adapters| - 1])
  }

  function Requests(events: seq<Event>): seq<Request> {
    if events == [] then [] else [events[0].request] + Requests(events[1..])
  }

  lemma {:induction false} RequestsAppend(a: seq<Event>, b: seq<Event>)
    ensures Requests(a + b) == Requests(a) + Requests(b)
  {
    if a == [] {
      assert a + b == b;
    } else {
      assert (a + b)[1..] == a[1..] + b;
      RequestsAppend(a[1..], b);
    }
  }

  /** Every adapter is asked once, last to first, whatever fails. */
  lemma {:induction false} DropsAll(o: Answers, trace: seq<Event>, adapters: seq<Adapter>)
    ensures var d := DropAdapters(o, trace, adapters);
            && Reports(trace, d.trace, d.error) && Continues(trace, d.trace)
            && Requests(d.trace[|trace|..]) == Disconnects(adapters)
    decreases |adapters|
  {
    if adapters == [] {
      FailureNext(trace, Event(Spawn, true), |trace|);
    } else {
      var n := |adapters| - 1;
      var q := DisconnectAdapter(adapters[n]);
      var last := Ask(o, trace, q);
      var rest := DropAdapters(o, last.trace, adapters[..n]);
      AskReports(o, trace, q);
      AskNeutral(o, trace, q);
      DropsAll(o, last.trace, adapters[..n]);
      ReportsChain(trace, last.trace, rest.trace, last.error, rest.error);
      FirstOfRest(trace, last.trace[|trace|], rest.trace);
    }
  }

  /** Adapters are connected in order until one fails, which is then the last thing asked. */
  lemma {:induction false} ConnectsUntilFailure(o: Answers, trace: seq<Event>, adapters: seq<Adapter>)
    ensures var d := ConnectAdapters(o, trace, adapters);
            && Reports(trace, d.trace, d.error) && Continues(trace, d.trace)
            && (d.error.None? ==> Requests(d.trace[|trace|..]) == Connects(adapters))
            && (d.error.Some? ==> d.error == Some(|d.trace| - 1))
            && Requests(d.trace[|trace|..]) <= Connects(adapters)
    decreases |adapters|
  {
    hide Reports, Continues;
    if adapters == [] {
      NothingAsked(trace);
    } else {
      var q := ConnectAdapter(adapters[0]);
      var first := Ask(o, trace, q);
      AskReports(o, trace, q);
      AskNeutral(o, trace, q);
      if first.error.None? {
        var rest := ConnectAdapters(o, first.trace, adapters[1..]);
        ConnectsUntilFailure(o, first.trace, adapters[1..]);
        ReportsChain(trace, first.trace, rest.trace, None, rest.error);
        ContinuesChain(trace, first.trace, rest.trace);
        Prefixed(first.trace, rest.trace);
        FirstOfRest(trace, first.trace[|trace|], rest.trace);
      }
    }
  }

  lemma FirstOfRest(trace: seq<Event>, e: Event, later: seq<Event>)
    requires trace + [e] <= later
    ensures Requests(later[|trace|..]) == [e.request] + Requests(later[|trace| + 1..])
  {
    assert later[|trace|] == e;
    assert later[|trace|..][1..] == later[|trace| + 1..];
  }

  // ---------------------------------------------------------------------- close

  lemma ContinuesChain(a: seq<Event>, b: seq<Event>, c: seq<Event>)
    requires Continues(a, b) && Continues(b, c)
    ensures Continues(a, c)
  {
  }

  lemma NothingAsked(trace: seq<Event>)
    ensures Reports(trace, trace, None) && Continues(trace, trace)
  {
    FailureNext(trace, Event(Spawn, true), |trace|);
  }

  lemma DropsClient(o: Answers, s: Server, trace: seq<Event>)
    ensures var d := DropClient(o, s, trace); Reports(trace, d.trace, d.error) && Continues(trace, d.trace)
  {
    NothingAsked(trace);
    if s.client {
      var shut := Ask(o, trace, ShutdownClient);
      FailureNext(trace, Event(ShutdownClient, o(trace, ShutdownClient)), |trace|);
      AskNeutral(o, trace, ShutdownClient);
      AskReports(o, shut.trace, DisconnectClient);
      AskNeutral(o, shut.trace, DisconnectClient);
      ReportsChain(trace, shut.trace, Ask(o, shut.trace, DisconnectClient).trace, None, Ask(o, shut.trace, DisconnectClient).error);
    }
  }

  lemma Disconnected(o: Answers, s: Server, trace: seq<Event>)
    ensures var d := Disconnect(o, s, trace);
            && Reports(trace, d.trace, d.error) && Continues(trace, d.trace)
            && d.server == s.(client := false, context := false)
  {
    hide Reports, Continues, DropClient, DropAdapters;
    var client := DropClient(o, s, trace);
    var adapters := DropAdapters(o, client.trace, s.components);
    var context := DropContext(o, s, adapters.trace);
    DropsClient(o, s, trace);
    DropsAll(o, client.trace, s.components);
    NothingAsked(adapters.trace);
    if s.context {
      AskReports(o, adapters.trace, StopContext);
      AskNeutral(o, adapters.trace, StopContext);
    }
    ReportsChain(client.trace, adapters.trace, context.trace, adapters.error, context.error);
    ReportsChain(trace, client.trace, context.trace, client.error, First(adapters.error, context.error));
    ContinuesAll(trace, client.trace, adapters.trace, context.trace);
  }

  lemma ContinuesAll(a: seq<Event>, b: seq<Event>, c: seq<Event>, d: seq<Event>)
    requires Continues(a, b) && Continues(b, c) && Continues(c, d)
    ensures Continues(a, d)
  {
  }

  /** Stopping an executor: afterwards it is forgotten iff it was stopped. */
  lemma CallsStopped(o: Answers, s: Server, trace: seq<Event>)
    ensures var c := StopCalls(o, s, trace);
            && Reports(trace, c.trace, c.error)
            && Children(c.trace) == Children(trace)
            && c.server == s.(client := c.server.client, context := c.server.context, executor := c.server.executor)
            && (c.server.executor.None? || (c.server.executor == s.executor && c.error.Some?))
            && Executors(c.trace) == Executors(trace) - (if c.server.executor.None? then AsSet(s.executor) else {})
  {
    hide Reports, Continues, Disconnect;
    NothingAsked(trace);
    if s.executor.Some? {
      var call := Ask(o, trace, CallExecutor);
      var left := if call.error.Some? then Done(s, call.trace, call.error) else Disconnect(o, s, call.trace);
      var q := StopExecutor(s.executor.value);
      AskReports(o, trace, CallExecutor);
      AskNeutral(o, trace, CallExecutor);
      Disconnected(o, s, call.trace);
      NothingAsked(call.trace);
      ReportsChain(trace, call.trace, left.trace, call.error, if call.error.Some? then None else left.error);
      AskReports(o, left.trace, q);
      ReportsChain(trace, left.trace, Ask(o, left.trace, q).trace, left.error, Ask(o, left.trace, q).error);
      Appended(left.trace, Event(q, o(left.trace, q)));
      assert Continues(trace, left.trace) by { ContinuesAll(trace, trace, call.trace, left.trace); }
      assert Executors(left.trace) == Executors(trace) && Children(left.trace) == Children(trace) by { Same(trace, left.trace); }
    }
  }

  lemma Same(a: seq<Event>, b: seq<Event>)
    requires Continues(a, b)
    ensures Executors(b) == Executors(a) && Children(b) == Children(a)
  {
  }

  lemma ChildReaped(o: Answers, s: Server, trace: seq<Event>)
    ensures var c := ReapChild(o, s, trace);
            && Reports(trace, c.trace, c.error)
            && Executors(c.trace) == Executors(trace)
            && c.server == s.(process := c.server.process)
            && (c.server.process.None? || (c.server.process == s.process && c.error.Some?))
            && Children(c.trace) == Children(trace) - (if c.server.process.None? then AsSet(s.process) else {})
  {
    hide Reports;
    NothingAsked(trace);
    if s.process.Some? {
      var q := Reap(s.process.value);
      AskReports(o, trace, q);
      Appended(trace, Event(q, o(trace, q)));
    }
  }

  /**
   * One close attempt forgets exactly what it ended: a child or an executor that
   * could not be ended is kept for a retry, the error raised is the first
   * failure, and a normal return means that nothing is left.
   */
  lemma CloseEndsWhatItCan(o: Answers, s: Server, trace: seq<Event>)
    ensures var c := Close(o, s, trace);
            && !c.server.started && c.server.components == s.components && c.server.handles == s.handles
            && Reports(trace, c.trace, c.error)
            && (c.server.process.None? || c.server.process == s.process)
            && (c.server.executor.None? || c.server.executor == s.executor)
            && Children(c.trace) == Children(trace) - (if c.server.process.None? then AsSet(s.process) else {})
            && Executors(c.trace) == Executors(trace) - (if c.server.executor.None? then AsSet(s.executor) else {})
            && (c.error.None? ==> c.server.process.None? && c.server.executor.None?)
            && (Owns(s, trace) ==> Owns(c.server, c.trace))
  {
    hide Reports, StopCalls, ReapChild;
    var calls := StopCalls(o, s, trace);
    var child := ReapChild(o, calls.server, calls.trace);
    CallsStopped(o, s, trace);
    ChildReaped(o, calls.server, calls.trace);
    ReportsChain(trace, calls.trace, child.trace, calls.error, child.error);
  }

  /** What a disconnection asks for: the client, every adapter from last to first, the context. */
  function DisconnectRequests(s: Server): seq<Request> {
    (if s.client then [ShutdownClient, DisconnectClient] else [])
    + Disconnects(s.components)
    + (if s.context then [StopContext] else [])
  }

  lemma Stretches(a: seq<Event>, b: seq<Event>, c: seq<Event>)
    requires a <= b <= c
    ensures Requests(c[|a|..]) == Requests(b[|a|..]) + Requests(c[|b|..])
  {
    assert c[|a|..] == b[|a|..] + c[|b|..];
    RequestsAppend(b[|a|..], c[|b|..]);
  }

  lemma AskedOne(o: Answers, trace: seq<Event>, q: Request)
    ensures Requests(Ask(o, trace, q).trace[|trace|..]) == [q] && Requests(trace[|trace|..]) == []
  {
    assert Ask(o, trace, q).trace[|trace|..] == [Event(q, o(trace, q))];
    assert trace[|trace|..] == [];
  }

  /** Nothing is skipped, whatever fails. */
  lemma DisconnectAsks(o: Answers, s: Server, trace: seq<Event>)
    ensures trace <= Disconnect(o, s, trace).trace
    ensures Requests(Disconnect(o, s, trace).trace[|trace|..]) == DisconnectRequests(s)
  {
    hide Requests, Disconnects, DropAdapters, FirstFailure, Children, Executors;
    var client := DropClient(o, s, trace);
    var adapters := DropAdapters(o, client.trace, s.components);
    var context := DropContext(o, s, adapters.trace);
    DropsAll(o, client.trace, s.components);
    AskedOne(o, trace, ShutdownClient);
    if s.client {
      var shut := Ask(o, trace, ShutdownClient).trace;
      AskedOne(o, shut, DisconnectClient);
      Stretches(trace, shut, client.trace);
    }
    AskedOne(o, adapters.trace, StopContext);
    Stretches(client.trace, adapters.trace, context.trace);
    Stretches(trace, client.trace, context.trace);
  }

  /**
   * Everything that one close attempt asks for, in order. A failure of one request
   * never prevents a later one, except that nothing is disconnected when the
   * executor takes no calls.
   */
  lemma CloseAsks(o: Answers, s: Server, trace: seq<Event>)
    ensures trace <= Close(o, s, trace).trace
    ensures Requests(Close(o, s, trace).trace[|trace|..])
         == (if s.executor.None? then []
             else [CallExecutor] + (if o(trace, CallExecutor) then DisconnectRequests(s) else []) + [StopExecutor(s.executor.value)])
            + (if s.process.None? then [] else [Reap(s.process.value)])
  {
    hide Requests, Disconnect, DisconnectRequests;
    var calls := StopCalls(o, s, trace);
    var child := ReapChild(o, calls.server, calls.trace);
    CallsAsk(o, s, trace);
    AskedOne(o, calls.trace, Reap(if s.process.Some? then s.process.value else 0));
    CallsStopped(o, s, trace);
    Stretches(trace, calls.trace, child.trace);
  }

  lemma CallsAsk(o: Answers, s: Server, trace: seq<Event>)
    ensures trace <= StopCalls(o, s, trace).trace
    ensures Requests(StopCalls(o, s, trace).trace[|trace|..])
         == if s.executor.None? then []
            else [CallExecutor] + (if o(trace, CallExecutor) then DisconnectRequests(s) else []) + [StopExecutor(s.executor.value)]
  {
    hide Requests, Disconnect, DisconnectRequests;
    AskedOne(o, trace, CallExecutor);
    if s.executor.Some? {
      var call := Ask(o, trace, CallExecutor);
      var left := if call.error.Some? then Done(s, call.trace, call.error) else Disconnect(o, s, call.trace);
      var q := StopExecutor(s.executor.value);
      DisconnectAsks(o, s, call.trace);
      AskedOne(o, left.trace, q);
      var stop := Ask(o, left.trace, q);
      AskedOne(o, call.trace, q);
      Stretches(trace, call.trace, left.trace);
      Stretches(trace, left.trace, stop.trace);
    }
  }

  // -------------------------------------------------------------------- prepare

  lemma Connected(o: Answers, s: Server, trace: seq<Event>)
    ensures var d := Connect(o, s, trace);
            && Reports(trace, d.trace, d.error) && Continues(trace, d.trace)
            && d.server == s.(context := true, client := d.server.client)
            && (d.error.None? ==> Requests(d.trace[|trace|..]) == [StartContext] + Connects(s.components) + [ConnectClient])
            && (d.error.Some? ==> d.error == Some(|d.trace| - 1))
  {
    hide Continues, Reports, ConnectAdapters;
    var begun := Ask(o, trace, StartContext);
    AskReports(o, trace, StartContext);
    AskNeutral(o, trace, StartContext);
    if begun.error.None? {
      var adapters := ConnectAdapters(o, begun.trace, s.components);
      ConnectsUntilFailure(o, begun.trace, s.components);
      ReportsChain(trace, begun.trace, adapters.trace, None, adapters.error);
      ContinuesAll(trace, trace, begun.trace, adapters.trace) by { NothingAsked(trace); }
      if adapters.error.None? {
        var client := Ask(o, adapters.trace, ConnectClient);
        AskReports(o, adapters.trace, ConnectClient);
        AskNeutral(o, adapters.trace, ConnectClient);
        ReportsChain(trace, adapters.trace, client.trace, None, client.error);
        ContinuesAll(trace, begun.trace, adapters.trace, client.trace);
        assert begun.trace <= adapters.trace by { Prefixed(begun.trace, adapters.trace); }
        var e, f := begun.trace[|trace|], client.trace[|adapters.trace|];
        assert client.trace[|trace|..] == [e] + adapters.trace[|begun.trace|..] + [f];
        RequestsAppend([e], adapters.trace[|begun.trace|..]);
        RequestsAppend([e] + adapters.trace[|begun.trace|..], [f]);
      }
    }
  }

  lemma Prefixed(a: seq<Event>, b: seq<Event>)
    requires Continues(a, b)
    ensures a <= b
  {
  }

  /** A launch stops at its first failure; what it created is then in the server's fields. */
  lemma Launched(o: Answers, s: Server, trace: seq<Event>)
    ensures var l := Launch(o, s, trace);
            var spawned := o(trace, Spawn);
            && Reports(trace, l.trace, l.error)
            && (l.error.Some? ==> l.error == Some(|l.trace| - 1) && l.server.started == s.started)
            && l.server.components == s.components && l.server.handles == s.handles
            && (if spawned then l.server.process == Some(|trace|) && l.server.executor == Some(|trace| + 1)
                else l.error == Some(|trace|) && l.server == s)
            && Children(l.trace) == Children(trace) + (if spawned then {|trace|} else {})
            && Executors(l.trace) == Executors(trace) + (if spawned then {|trace| + 1} else {})
            && (l.error.None? ==> spawned && l.server.started)
  {
    hide Reports, Continues, Connect, Children, Executors;
    var spawn := Ask(o, trace, Spawn);
    AskReports(o, trace, Spawn);
    Appended(trace, Event(Spawn, o(trace, Spawn)));
    if spawn.error.None? {
      var s1 := s.(process := Some(|trace|), executor := Some(|spawn.trace|));
      var start := Ask(o, spawn.trace, StartExecutor);
      AskReports(o, spawn.trace, StartExecutor);
      Appended(spawn.trace, Event(StartExecutor, o(spawn.trace, StartExecutor)));
      ReportsChain(trace, spawn.trace, start.trace, None, start.error);
      if start.error.None? {
        CalledAndJoined(o, s1, start.trace);
        var joined := CallConnect(o, s1, start.trace);
        ReportsChain(trace, start.trace, joined.trace, None, joined.error);
      }
    }
  }

  /** Connect on the running executor. */
  function CallConnect(o: Answers, s: Server, trace: seq<Event>): Done {
    var call := Ask(o, trace, CallExecutor);
    if call.error.Some? then Done(s, call.trace, call.error) else Connect(o, s, call.trace)
  }

  lemma CalledAndJoined(o: Answers, s: Server, trace: seq<Event>)
    ensures var d := CallConnect(o, s, trace);
            && Reports(trace, d.trace, d.error)
            && Children(d.trace) == Children(trace) && Executors(d.trace) == Executors(trace)
            && d.server == s.(context := d.server.context, client := d.server.client)
            && (d.error.Some? ==> d.error == Some(|d.trace| - 1))
  {
    hide Reports, Continues, Connect, Children, Executors;
    var call := Ask(o, trace, CallExecutor);
    AskReports(o, trace, CallExecutor);
    AskNeutral(o, trace, CallExecutor);
    Same(trace, call.trace);
    if call.error.None? {
      var joined := Connect(o, s, call.trace);
      Connected(o, s, call.trace);
      ReportsChain(trace, call.trace, joined.trace, None, joined.error);
      Same(call.trace, joined.trace);
    }
  }

  /** Everything a successful launch asked for, in order. */
  lemma LaunchRequests(o: Answers, s: Server, trace: seq<Event>)
    requires Launch(o, s, trace).error.None?
    ensures trace <= Launch(o, s, trace).trace
    ensures Requests(Launch(o, s, trace).trace[|trace|..])
         == [Spawn, StartExecutor, CallExecutor, StartContext] + Connects(s.components) + [ConnectClient]
  {
    hide Connect, Connects, Requests;
    var spawn := Ask(o, trace, Spawn);
    var start := Ask(o, spawn.trace, StartExecutor);
    var call := Ask(o, start.trace, CallExecutor);
    var s1 := s.(process := Some(|trace|), executor := Some(|spawn.trace|));
    var joined := Connect(o, s1, call.trace);
    Connected(o, s1, call.trace);
    Prefixed(call.trace, joined.trace);
    FirstOfRest(trace, spawn.trace[|trace|], joined.trace);
    FirstOfRest(spawn.trace, start.trace[|spawn.trace|], joined.trace);
    FirstOfRest(start.trace, call.trace[|start.trace|], joined.trace);
  }

  /**
   * `prepare` on a server that is not started. Success: the child runs, every
   * adapter was connected in order, and nothing failed. Failure: the error is the
   * first failure of the attempt, never one of the rollback; the server is not
   * started; and if nothing failed in the rollback, it holds no child and no executor.
   */
  lemma PrepareStartsOrUndoes(o: Answers, s: Server, trace: seq<Event>)
    requires !s.started
    ensures var p := Prepare(o, s, trace);
            var l := Launch(o, s, trace);
            && trace <= p.trace && p.server.components == s.components && p.server.handles == s.handles
            && p.error == FirstFailure(p.trace, |trace|)
            && (p.error.None? ==>
                  && p.server.started && p.server.process == Some(|trace|) && p.server.executor.Some?
                  && Requests(p.trace[|trace|..])
                     == [Spawn, StartExecutor, CallExecutor, StartContext] + Connects(s.components) + [ConnectClient])
            && (p.error.Some? ==>
                  && !p.server.started && p.error.value < |p.trace| && !p.trace[p.error.value].ok
                  && p.error == Some(|l.trace| - 1)
                  && (FirstFailure(p.trace, |l.trace|).None? ==> p.server.process.None? && p.server.executor.None?))
  {
    hide Launch, Close, Requests, Connects;
    var l := Launch(o, s, trace);
    Launched(o, s, trace);
    if l.error.None? {
      LaunchRequests(o, s, trace);
    } else {
      var c := Close(o, l.server, l.trace);
      CloseEndsWhatItCan(o, l.server, l.trace);
      ReportsChain(trace, l.trace, c.trace, l.error, c.error);
      FailedThere(l.trace, |trace|);
      assert c.trace[..|l.trace|] == l.trace;
    }
  }

  /** Everything that a start asks for, in order, as long as nothing fails. */
  function StartRequests(adapters: seq<Adapter>): seq<Request> {
    [Spawn, StartExecutor, CallExecutor, StartContext] + Connects(adapters) + [ConnectClient]
  }

  /** What connecting has asked for says which marks it has set. */
  lemma ConnectMarks(o: Answers, s: Server, trace: seq<Event>)
    ensures var d := Connect(o, s, trace);
            var plan := [StartContext] + Connects(s.components) + [ConnectClient];
            && trace <= d.trace
            && var asked := Requests(d.trace[|trace|..]);
               && 1 <= |asked| && asked <= plan && (d.error.None? ==> asked == plan)
               && d.server == s.(context := true, client := s.client || asked == plan)
  {
    hide Requests, Connects, ConnectAdapters, Continues, Reports, FirstFailure;
    var begun := Ask(o, trace, StartContext);
    AskedOne(o, trace, StartContext);
    if begun.error.None? {
      var adapters := ConnectAdapters(o, begun.trace, s.components);
      ConnectsUntilFailure(o, begun.trace, s.components);
      Prefixed(begun.trace, adapters.trace);
      Stretches(trace, begun.trace, adapters.trace);
      if adapters.error.None? {
        AskedOne(o, adapters.trace, ConnectClient);
        Stretches(trace, adapters.trace, Ask(o, adapters.trace, ConnectClient).trace);
      } else {
        ConnectsLength(s.components);
      }
    }
  }

  lemma {:induction false} ConnectsLength(adapters: seq<Adapter>)
    ensures |Connects(adapters)| == |adapters|
  {
    if adapters != [] {
      ConnectsLength(adapters[1..]);
    }
  }

  /** The marks of a server that was launched, and what was asked for by then. */
  lemma LaunchMarks(o: Answers, s: Server, trace: seq<Event>)
    ensures var l := Launch(o, s, trace);
            && trace <= l.trace
            && var asked := Requests(l.trace[|trace|..]);
               && 1 <= |asked| && asked <= StartRequests(s.components)
               && (l.error.None? ==> asked == StartRequests(s.components))
               && l.server.client == (s.client || asked == StartRequests(s.components))
               && l.server.context == (s.context || |asked| >= 4)
               && (|asked| == 1 ==> l.server == s)
               && (|asked| > 1 ==> l.server.process == Some(|trace|) && l.server.executor == Some(|trace| + 1))
  {
    hide Requests, Connects, Connect;
    var spawn := Ask(o, trace, Spawn);
    AskedOne(o, trace, Spawn);
    if spawn.error.None? {
      var s1 := s.(process := Some(|trace|), executor := Some(|spawn.trace|));
      var start := Ask(o, spawn.trace, StartExecutor);
      AskedOne(o, spawn.trace, StartExecutor);
      Stretches(trace, spawn.trace, start.trace);
      if start.error.None? {
        var call := Ask(o, start.trace, CallExecutor);
        AskedOne(o, start.trace, CallExecutor);
        Stretches(trace, start.trace, call.trace);
        if call.error.None? {
          ConnectMarks(o, s1, call.trace);
          Stretches(trace, call.trace, Connect(o, s1, call.trace).trace);
        }
      }
    }
  }

  /**
   * The complete requests of a start. It asks for as much as succeeds, and for the
   * request that fails; after a failure it undoes exactly what it had come to: the
   * client if connecting it was asked for, every adapter, the event loop if it was
   * begun, and the executor and the child if a child was spawned.
   */
  lemma PrepareAsks(o: Answers, s: Server, trace: seq<Event>) returns (asked: seq<Request>, undone: seq<Request>)
    requires !s.started && s.process.None? && s.executor.None? && !s.client && !s.context
    ensures var p := Prepare(o, s, trace);
            && trace <= p.trace && Requests(p.trace[|trace|..]) == asked + undone
            && 1 <= |asked| && asked <= StartRequests(s.components)
            && (p.error.None? ==>
                  && asked == StartRequests(s.components) && undone == []
                  && p.server == s.(started := true, process := Some(|trace|), executor := Some(|trace| + 1), context := true, client := true))
            && (p.error.Some? ==>
                  && p.error == Some(|trace| + |asked| - 1)
                  && |p.trace| >= |trace| + |asked|
                  && undone ==
                       if |asked| == 1 then []
                       else
                         [CallExecutor]
                         + (if !o(p.trace[..|trace| + |asked|], CallExecutor) then []
                            else
                              (if asked == StartRequests(s.components) then [ShutdownClient, DisconnectClient] else [])
                              + Disconnects(s.components)
                              + (if |asked| >= 4 then [StopContext] else []))
                         + [StopExecutor(|trace| + 1), Reap(|trace|)])
  {
    hide Launch, Close, Requests, Connects, Disconnects;
    var l := Launch(o, s, trace);
    LaunchMarks(o, s, trace);
    Launched(o, s, trace);
    asked, undone := Requests(l.trace[|trace|..]), [];
    RequestsLength(l.trace[|trace|..]);
    if l.error.Some? {
      var c := Close(o, l.server, l.trace);
      CloseAsks(o, l.server, l.trace);
      undone := Requests(c.trace[|l.trace|..]);
      Stretches(trace, l.trace, c.trace);
      assert c.trace[..|l.trace|] == l.trace;
    }
  }

  lemma {:induction false} RequestsLength(events: seq<Event>)
    ensures |Requests(events)| == |events|
  {
    if events != [] {
      RequestsLength(events[1..]);
    }
  }

  /** A server is closed after a start: whatever else fails, everything that the start set up is taken down in reverse. */
  lemma CloseAfterStartAsks(o: Answers, s: Server, trace: seq<Event>, o2: Answers, more: seq<Event>)
    requires !s.started && s.process.None? && s.executor.None? && !s.client && !s.context
    requires Prepare(o, s, trace).error.None?
    ensures var p := Prepare(o, s, trace);
            var c := Close(o2, p.server, p.trace + more);
            && p.trace + more <= c.trace
            && (o2(p.trace + more, CallExecutor) ==>
                  Requests(c.trace[|p.trace + more|..])
                  == [CallExecutor, ShutdownClient, DisconnectClient] + Disconnects(s.components)
                     + [StopContext, StopExecutor(|trace| + 1), Reap(|trace|)])
  {
    hide Launch, Close, Requests, Disconnects;
    var p := Prepare(o, s, trace);
    var _, _ := PrepareAsks(o, s, trace);
    CloseAsks(o2, p.server, p.trace + more);
    var a, b := [ShutdownClient, DisconnectClient], Disconnects(s.components);
    assert [CallExecutor] + (a + b + [StopContext]) + [StopExecutor(|trace| + 1)] + [Reap(|trace|)]
        == [CallExecutor, ShutdownClient, DisconnectClient] + b + [StopContext, StopExecutor(|trace| + 1), Reap(|trace|)];
  }

  lemma {:induction false} FailedThere(trace: seq<Event>, from: nat)
    ensures var i := FirstFailure(trace, from);
            i.Some? ==> from <= i.value < |trace| && !trace[i.value].ok
  {
    if |trace| > from {
      FailedThere(trace[..|trace| - 1], from);
    }
  }

  /**
   * Whether the server still knows everything it started. `prepare` overwrites the
   * fields of a server that is not started: it loses a child or an executor exactly
   * when an earlier close had failed to end one and the new child could be spawned.
   */
  lemma PrepareOwnsIff(o: Answers, s: Server, trace: seq<Event>)
    requires Owns(s, trace)
    ensures var p := Prepare(o, s, trace);
            Owns(p.server, p.trace) <==> !(!s.started && o(trace, Spawn) && (s.process.Some? || s.executor.Some?))
  {
    hide Launch, Close, Requests, Connects, Reports;
    Bounded(trace);
    if !s.started {
      var l := Launch(o, s, trace);
      Launched(o, s, trace);
      if l.error.Some? {
        CloseEndsWhatItCan(o, l.server, l.trace);
      }
      if o(trace, Spawn) && s.process.Some? {
        assert s.process.value in Children(l.trace) && s.process.value != |trace|;
      }
      if o(trace, Spawn) && s.executor.Some? {
        assert s.executor.value in Executors(l.trace) && s.executor.value != |trace| + 1;
      }
    }
  }
}
