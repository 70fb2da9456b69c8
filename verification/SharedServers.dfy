/** The registry's shared servers and their handles, over any interleaving of calls. */
module SharedServers {
  import opened Lifecycle
  import opened Text
  import opened ServerProcess
  import opened ServerTheorems

  datatype Handle = Handle(server: nat, closed: bool)

  /**
   * Every server and handle ever created, the registry's table of the servers of
   * the current build, and the languages registered with a shared process.
   */
  datatype Group = Group(
    languages: set<string>,
    servers: seq<Server>,
    handles: seq<Handle>,
    shared: map<string, nat>,
    trace: seq<Event>)

  /** `built` says whether the factory of the language returned a process. */
  datatype Act =
    | BeginBuild
    | Create(language: string, adapter: Adapter, built: bool)
    | PrepareHandle(handle: nat)
    | CloseHandle(handle: nat)

  function NewServer(adapter: Adapter): Server {
    Server([adapter], None, false, false, None, false, 1)
  }

  /** `create` for a language with a shared process. */
  function Created(g: Group, language: string, adapter: Adapter, built: bool): Group {
    var name := Normalized(language);
    if name !in g.languages then g
    else if name !in g.shared then
      if !built then g
      else g.(servers := g.servers + [NewServer(adapter)], handles := g.handles + [Handle(|g.servers|, false)],
        shared := g.shared[name := |g.servers|])
    else
      var k := g.shared[name];
      if k >= |g.servers| || g.servers[k].started || g.servers[k].process.Some? then g
      else
        var s := g.servers[k];
        g.(servers := g.servers[k := s.(components := s.components + [adapter], handles := s.handles + 1)],
           handles := g.handles + [Handle(k, false)])
  }

  /** A server that nobody has used: it holds nothing and serves one component for one handle. */
  predicate Unused(s: Server, adapter: Adapter) {
    && s.components == [adapter] && s.handles == 1
    && s.process.None? && s.executor.None? && !s.context && !s.client && !s.started
  }

  /**
   * What creating a host does. A language without a factory, a factory that fails, and a group
   * whose server has a child or was started refuse it and change nothing. Otherwise there is
   * one more handle; the first host of a group gets a server of its own, which nobody has
   * used, and every later one is added to that server as its last component.
   */
  lemma CreatedMeans(g: Group, language: string, adapter: Adapter, built: bool)
    ensures var name, r := Lower(Strip(language)), Created(g, language, adapter, built);
            && r.languages == g.languages && r.trace == g.trace
            && (if name !in g.languages || (name !in g.shared && !built)
                  || (name in g.shared && (g.shared[name] >= |g.servers| || g.servers[g.shared[name]].started
                                           || g.servers[g.shared[name]].process.Some?))
                then r == g
                else if name !in g.shared then
                  && |r.servers| == |g.servers| + 1 && r.servers[..|g.servers|] == g.servers
                  && Unused(r.servers[|g.servers|], adapter)
                  && r.handles == g.handles + [Handle(|g.servers|, false)]
                  && r.shared == g.shared[name := |g.servers|]
                else
                  var k := g.shared[name];
                  && |r.servers| == |g.servers| && r.shared == g.shared
                  && (forall j | 0 <= j < |g.servers| && j != k :: r.servers[j] == g.servers[j])
                  && r.servers[k] == g.servers[k].(components := g.servers[k].components + [adapter], handles := g.servers[k].handles + 1)
                  && r.handles == g.handles + [Handle(k, false)])
  {
  }

  /** A new build groups its hosts anew. */
  lemma BuildsStartOver(o: Answers, g: Group)
    ensures Step(o, g, BeginBuild) == g.(shared := map[])
  {
  }

  function Step(o: Answers, g: Group, a: Act): Group {
    match a
    case BeginBuild => g.(shared := map[])
    case Create(language, adapter, built) => Created(g, language, adapter, built)
    case PrepareHandle(h) =>
      if h >= |g.handles| || g.handles[h].closed || g.handles[h].server >= |g.servers| then g
      else
        var k := g.handles[h].server;
        var d := Prepare(o, g.servers[k], g.trace);
        g.(servers := g.servers[k := d.server], trace := d.trace)
    case CloseHandle(h) =>
      if h >= |g.handles| || g.handles[h].closed || g.handles[h].server >= |g.servers| then g
      else
        var k := g.handles[h].server;
        var d := Release(o, g.servers[k], g.trace);
        g.(servers := g.servers[k := d.server], trace := d.trace,
           handles := g.handles[h := Handle(k, d.error.None?)])
  }

  function RunAll(o: Answers, g: Group, acts: seq<Act>): Group
    decreases |acts|
  {
    if acts == [] then g else RunAll(o, Step(o, g, acts[0]), acts[1..])
  }

  function Start(languages: set<string>): Group {
    Group(languages, [], [], map[], [])
  }

  /** The number of handles on server `k` that were not closed. */
  function OpenHandles(handles: seq<Handle>, k: nat): nat {
    if handles == [] then 0
    else
      var n := |handles| - 1;
      OpenHandles(handles[..n], k) + if handles[n].server == k && !handles[n].closed then 1 else 0
  }

  lemma {:induction false} AllClosed(handles: seq<Handle>, k: nat)
    requires forall h | 0 <= h < |handles| :: handles[h].server != k || handles[h].closed
    ensures OpenHandles(handles, k) == 0
  {
    if handles != [] {
      AllClosed(handles[..|handles| - 1], k);
    }
  }

  lemma OpenAppend(handles: seq<Handle>, h: Handle, k: nat)
    ensures OpenHandles(handles + [h], k) == OpenHandles(handles, k) + if h.server == k && !h.closed then 1 else 0
  {
    assert (handles + [h])[..|handles|] == handles;
  }

  lemma {:induction false} OpenUpdate(handles: seq<Handle>, i: nat, h: Handle, k: nat)
    requires i < |handles|
    ensures OpenHandles(handles[i := h], k)
         == OpenHandles(handles, k) - (if handles[i].server == k && !handles[i].closed then 1 else 0)
            + (if h.server == k && !h.closed then 1 else 0)
    decreases |handles|
  {
    var n := |handles| - 1;
    if i < n {
      OpenUpdate(handles[..n], i, h, k);
      assert handles[i := h][..n] == handles[..n][i := h];
    } else {
      assert handles[i := h][..n] == handles[..n];
    }
  }

  /** One open handle among others is not the only one counted. */
  lemma {:induction false} OpenOthers(handles: seq<Handle>, i: nat, j: nat, k: nat)
    requires i < |handles| && j < |handles| && i != j
    requires handles[i] == Handle(k, false) && handles[j] == Handle(k, false)
    ensures OpenHandles(handles, k) >= 2
  {
    OpenUpdate(handles, i, Handle(k, true), k);
    OpenUpdate(handles[i := Handle(k, true)], j, Handle(k, true), k);
  }

  lemma OpenCounted(handles: seq<Handle>, i: nat)
    requires i < |handles| && !handles[i].closed
    ensures OpenHandles(handles, handles[i].server) >= 1
  {
    OpenUpdate(handles, i, Handle(handles[i].server, true), handles[i].server);
  }

  /** The number of handles that were ever given out on server `k`. */
  function AllHandles(handles: seq<Handle>, k: nat): nat {
    if handles == [] then 0
    else AllHandles(handles[..|handles| - 1], k) + if handles[|handles| - 1].server == k then 1 else 0
  }

  lemma AllAppend(handles: seq<Handle>, h: Handle, k: nat)
    ensures AllHandles(handles + [h], k) == AllHandles(handles, k) + if h.server == k then 1 else 0
  {
    assert (handles + [h])[..|handles|] == handles;
  }

  lemma {:induction false} AllUpdate(handles: seq<Handle>, i: nat, closed: bool, k: nat)
    requires i < |handles|
    ensures AllHandles(handles[i := Handle(handles[i].server, closed)], k) == AllHandles(handles, k)
    decreases |handles|
  {
    var n := |handles| - 1;
    var h := Handle(handles[i].server, closed);
    if i < n {
      AllUpdate(handles[..n], i, closed, k);
      assert handles[i := h][..n] == handles[..n][i := h];
    } else {
      assert handles[i := h][..n] == handles[..n];
    }
  }

  predicate ServerOk(g: Group, k: nat)
    requires k < |g.servers|
  {
    var s := g.servers[k];
    && s.handles == OpenHandles(g.handles, k) && Sane(s)
    && |s.components| == AllHandles(g.handles, k)
    && (s.handles == 0 ==> s.process.None? && s.executor.None? && !s.started)
  }

  predicate GroupOk(g: Group) {
    && (forall k | 0 <= k < |g.servers| :: ServerOk(g, k))
    && (forall h | 0 <= h < |g.handles| :: g.handles[h].server < |g.servers|)
    && (forall n | n in g.shared :: g.shared[n] < |g.servers|)
  }

  lemma {:induction false} NoneOpen(handles: seq<Handle>, k: nat)
    requires forall h | 0 <= h < |handles| :: handles[h].server != k
    ensures OpenHandles(handles, k) == 0 && AllHandles(handles, k) == 0
  {
    if handles != [] {
      NoneOpen(handles[..|handles| - 1], k);
    }
  }

  lemma CreateOk(g: Group, language: string, adapter: Adapter, built: bool)
    requires GroupOk(g)
    ensures GroupOk(Created(g, language, adapter, built))
  {
    hide Normalized, OpenHandles, AllHandles;
    var g' := Created(g, language, adapter, built);
    if |g'.handles| > |g.handles| {
      var h := g'.handles[|g.handles|];
      NoneOpen(g.handles, |g.servers|);
      forall k | 0 <= k < |g'.servers| ensures ServerOk(g', k) {
        OpenAppend(g.handles, h, k);
        AllAppend(g.handles, h, k);
        if k < |g.servers| {
          assert ServerOk(g, k);
        }
      }
    }
  }

  lemma PrepareSane(o: Answers, s: Server, trace: seq<Event>)
    requires Sane(s)
    ensures var d := Prepare(o, s, trace);
            Sane(d.server) && d.server.handles == s.handles && d.server.components == s.components
  {
    hide Launch, Close, Requests, Connects;
    if !s.started {
      PrepareStartsOrUndoes(o, s, trace);
    }
  }

  lemma PrepareOk(o: Answers, g: Group, h: nat)
    requires GroupOk(g)
    ensures GroupOk(Step(o, g, PrepareHandle(h)))
  {
    hide Prepare, OpenHandles, AllHandles;
    var g' := Step(o, g, PrepareHandle(h));
    if h < |g.handles| && !g.handles[h].closed {
      var k := g.handles[h].server;
      OpenCounted(g.handles, h);
      assert ServerOk(g, k);
      PrepareSane(o, g.servers[k], g.trace);
      forall j | 0 <= j < |g'.servers| ensures ServerOk(g', j) {
        assert ServerOk(g, j);
      }
    }
  }

  /** What a release does to a server whose handle is open. */
  lemma Released(o: Answers, s: Server, trace: seq<Event>)
    requires s.handles > 0 && Sane(s)
    ensures var d := Release(o, s, trace);
            && Sane(d.server) && d.server.components == s.components
            && (s.handles > 1 ==> d == Done(s.(handles := s.handles - 1), trace, None))
            && (s.handles == 1 ==>
                  && !d.server.started
                  && d.error == FirstFailure(d.trace, |trace|)
                  && (d.error.Some? ==> d.server.handles == 1)
                  && (d.error.None? ==> d.server.handles == 0 && d.server.process.None? && d.server.executor.None?))
  {
    hide Close;
    if s.handles == 1 {
      CloseEndsWhatItCan(o, s, trace);
    }
  }

  lemma CloseOk(o: Answers, g: Group, h: nat)
    requires GroupOk(g)
    ensures GroupOk(Step(o, g, CloseHandle(h)))
  {
    hide Release, OpenHandles, AllHandles;
    var g' := Step(o, g, CloseHandle(h));
    if h < |g.handles| && !g.handles[h].closed {
      var k := g.handles[h].server;
      OpenCounted(g.handles, h);
      assert ServerOk(g, k);
      Released(o, g.servers[k], g.trace);
      forall j | 0 <= j < |g'.servers| ensures ServerOk(g', j) {
        assert ServerOk(g, j);
        OpenUpdate(g.handles, h, g'.handles[h], j);
        AllUpdate(g.handles, h, g'.handles[h].closed, j);
      }
    }
  }

  lemma StepOk(o: Answers, g: Group, a: Act)
    requires GroupOk(g)
    ensures GroupOk(Step(o, g, a))
  {
    hide Prepare, Release, OpenHandles, AllHandles, Created;
    match a {
      case BeginBuild =>
        forall k | 0 <= k < |g.servers| ensures ServerOk(Step(o, g, a), k) {
          assert ServerOk(g, k);
        }
      case Create(language, adapter, built) => CreateOk(g, language, adapter, built);
      case PrepareHandle(h) => PrepareOk(o, g, h);
      case CloseHandle(h) => CloseOk(o, g, h);
    }
  }

  lemma {:induction false} RunsOk(o: Answers, g: Group, acts: seq<Act>)
    requires GroupOk(g)
    ensures GroupOk(RunAll(o, g, acts))
    decreases |acts|
  {
    hide Step, GroupOk;
    if acts != [] {
      StepOk(o, g, acts[0]);
      RunsOk(o, Step(o, g, acts[0]), acts[1..]);
    }
  }

  /**
   * Over every interleaving of builds, creations, preparations and closes, the
   * count of a server is the number of its unclosed handles; when there is none,
   * its child is reaped, its executor stopped, and it is not started. A server
   * serves one component for every handle that was ever given out on it.
   */
  lemma HandlesAreCounted(o: Answers, languages: set<string>, acts: seq<Act>, k: nat)
    requires k < |RunAll(o, Start(languages), acts).servers|
    ensures var g := RunAll(o, Start(languages), acts);
            && g.servers[k].handles == OpenHandles(g.handles, k) && |g.servers[k].components| == AllHandles(g.handles, k)
            && (OpenHandles(g.handles, k) == 0 ==>
                  g.servers[k].process.None? && g.servers[k].executor.None? && !g.servers[k].started)
  {
    hide RunAll, Step, OpenHandles, AllHandles;
    RunsOk(o, Start(languages), acts);
    assert ServerOk(RunAll(o, Start(languages), acts), k);
  }

  /** The act is an attempt to close the only open handle of server `k`. */
  predicate LastClose(g: Group, a: Act, k: nat) {
    && a.CloseHandle? && a.handle < |g.handles| && g.handles[a.handle] == Handle(k, false)
    && forall h | 0 <= h < |g.handles| && h != a.handle :: g.handles[h].server != k || g.handles[h].closed
  }

  /**
   * A started server keeps its child, its executor and its started mark through
   * every act, unless the act is the attempt to close its last open handle.
   */
  lemma ServesUntilLastClose(o: Answers, languages: set<string>, acts: seq<Act>, a: Act, k: nat)
    requires k < |RunAll(o, Start(languages), acts).servers| && RunAll(o, Start(languages), acts).servers[k].started
    requires !LastClose(RunAll(o, Start(languages), acts), a, k)
    ensures var g := RunAll(o, Start(languages), acts);
            var s, s' := g.servers[k], Step(o, g, a).servers[k];
            s' == s.(handles := s'.handles) && s'.handles == OpenHandles(Step(o, g, a).handles, k) > 0
  {
    hide RunAll, OpenHandles, AllHandles, Normalized;
    RunsOk(o, Start(languages), acts);
    var g := RunAll(o, Start(languages), acts);
    var g' := Step(o, g, a);
    StepOk(o, g, a);
    assert ServerOk(g, k) && ServerOk(g', k);
    if a.CloseHandle? && a.handle < |g.handles| && g.handles[a.handle] == Handle(k, false) {
      var h :| 0 <= h < |g.handles| && h != a.handle && g.handles[h] == Handle(k, false);
      OpenOthers(g.handles, a.handle, h, k);
    }
  }

  /** A close that fails leaves its handle open and counted, so that it can be retried. */
  lemma FailedCloseKeepsOwner(o: Answers, languages: set<string>, acts: seq<Act>, h: nat)
    requires var g := RunAll(o, Start(languages), acts);
             h < |g.handles| && !g.handles[h].closed && g.handles[h].server < |g.servers|
    ensures var g := RunAll(o, Start(languages), acts);
            var k := g.handles[h].server;
            var d := Release(o, g.servers[k], g.trace);
            var g' := Step(o, g, CloseHandle(h));
            && g'.handles[h].closed == d.error.None?
            && (d.error.Some? ==>
                  && g'.handles == g.handles && g'.servers[k].handles == g.servers[k].handles == 1
                  && d.error == FirstFailure(g'.trace, |g.trace|))
  {
    hide RunAll, OpenHandles, AllHandles, Release;
    RunsOk(o, Start(languages), acts);
    var g := RunAll(o, Start(languages), acts);
    OpenCounted(g.handles, h);
    assert ServerOk(g, g.handles[h].server);
    Released(o, g.servers[g.handles[h].server], g.trace);
  }
}
