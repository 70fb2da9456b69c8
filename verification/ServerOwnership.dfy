/** Who knows the children and executors of servers that share one world, over any interleaving. */
module ServerOwnership {
  import opened Lifecycle
  import opened ServerProcess
  import opened ServerTheorems
  import opened SharedServers

  // ------------------------------------------------------ one server among others

  /** What an attempt to start a server adds to, or takes from, everything that is alive. */
  lemma PrepareAdds(o: Answers, s: Server, trace: seq<Event>)
    requires !s.started
    ensures var p := Prepare(o, s, trace);
            if o(trace, Spawn) then
              && Children(p.trace) == Children(trace) + AsSet(p.server.process)
              && Executors(p.trace) == Executors(trace) + AsSet(p.server.executor)
              && (p.server.process.None? || p.server.process == Some(|trace|))
              && (p.server.executor.None? || p.server.executor == Some(|trace| + 1))
            else
              Ended(s, trace, p.server, p.trace)
  {
    hide Launch, Close, Children, Executors, Reports;
    var l := Launch(o, s, trace);
    Bounded(trace);
    Launched(o, s, trace);
    if l.error.Some? {
      CloseEndsWhatItCan(o, l.server, l.trace);
    }
  }

  /** From `s` to `s'` a child or an executor was forgotten exactly if it ended, and nothing else did. */
  predicate Ended(s: Server, trace: seq<Event>, s': Server, trace': seq<Event>) {
    && (s'.process.None? || s'.process == s.process) && (s'.executor.None? || s'.executor == s.executor)
    && Children(trace') == Children(trace) - (if s'.process.None? then AsSet(s.process) else {})
    && Executors(trace') == Executors(trace) - (if s'.executor.None? then AsSet(s.executor) else {})
  }

  lemma ReleaseEnds(o: Answers, s: Server, trace: seq<Event>)
    requires s.handles > 0
    ensures var r := Release(o, s, trace); Ended(s, trace, r.server, r.trace)
  {
    hide Close, Children, Executors, Reports;
    if s.handles == 1 {
      CloseEndsWhatItCan(o, s, trace);
    }
  }

  // --------------------------------------------------------------- all servers

  predicate KnownChild(g: Group, c: nat) {
    exists k | 0 <= k < |g.servers| :: g.servers[k].process == Some(c)
  }

  predicate KnownExecutor(g: Group, x: nat) {
    exists k | 0 <= k < |g.servers| :: g.servers[k].executor == Some(x)
  }

  /** What server `k` holds is alive. */
  predicate HoldsLiving(g: Group, k: nat)
    requires k < |g.servers|
  {
    AsSet(g.servers[k].process) <= Children(g.trace) && AsSet(g.servers[k].executor) <= Executors(g.trace)
  }

  predicate Apart(s: Server, t: Server) {
    AsSet(s.process) !! AsSet(t.process) && AsSet(s.executor) !! AsSet(t.executor)
  }

  /** Every living child and executor is held by exactly one server, and servers hold nothing else. */
  predicate Accounted(g: Group) {
    && (forall k | 0 <= k < |g.servers| :: HoldsLiving(g, k))
    && (forall j, k | 0 <= j < |g.servers| && 0 <= k < |g.servers| && j != k :: Apart(g.servers[j], g.servers[k]))
    && (forall c | c in Children(g.trace) :: KnownChild(g, c))
    && (forall x | x in Executors(g.trace) :: KnownExecutor(g, x))
  }

  /** The act starts a server that still holds a child or an executor from an earlier, failed close. */
  predicate Overwrites(o: Answers, g: Group, a: Act) {
    && a.PrepareHandle? && a.handle < |g.handles| && !g.handles[a.handle].closed && g.handles[a.handle].server < |g.servers|
    && var s := g.servers[g.handles[a.handle].server];
    && !s.started && o(g.trace, Spawn) && (s.process.Some? || s.executor.Some?)
  }

  /** One server changed, to `s'`, and the world with it. */
  function With(g: Group, k: nat, s': Server, trace': seq<Event>): Group
    requires k < |g.servers|
  {
    g.(servers := g.servers[k := s'], trace := trace')
  }

  lemma EndedIsAccounted(g: Group, k: nat, s': Server, trace': seq<Event>)
    requires Accounted(g) && k < |g.servers| && Ended(g.servers[k], g.trace, s', trace')
    ensures Accounted(With(g, k, s', trace'))
  {
    hide Children, Executors;
    var g' := With(g, k, s', trace');
    assert HoldsLiving(g, k);
    forall j | 0 <= j < |g'.servers| ensures HoldsLiving(g', j) {
      assert HoldsLiving(g, j);
      assert j != k ==> Apart(g.servers[j], g.servers[k]);
    }
    forall c | c in Children(trace') ensures KnownChild(g', c) {
      var j :| 0 <= j < |g.servers| && g.servers[j].process == Some(c);
      assert g'.servers[j].process == Some(c);
    }
    forall x | x in Executors(trace') ensures KnownExecutor(g', x) {
      var j :| 0 <= j < |g.servers| && g.servers[j].executor == Some(x);
      assert g'.servers[j].executor == Some(x);
    }
    OthersApart(g, k, s', trace');
  }

  lemma OthersApart(g: Group, k: nat, s': Server, trace': seq<Event>)
    requires Accounted(g) && k < |g.servers|
    requires forall j | 0 <= j < |g.servers| && j != k :: Apart(g.servers[j], g.servers[k]) ==> Apart(g.servers[j], s')
    ensures var g' := With(g, k, s', trace');
            forall i, j | 0 <= i < |g'.servers| && 0 <= j < |g'.servers| && i != j :: Apart(g'.servers[i], g'.servers[j])
  {
    hide HoldsLiving, KnownChild, KnownExecutor;
    var g' := With(g, k, s', trace');
    forall i, j | 0 <= i < |g'.servers| && 0 <= j < |g'.servers| && i != j ensures Apart(g'.servers[i], g'.servers[j]) {
      assert Apart(g.servers[i], g.servers[j]);
      assert Apart(g.servers[j], g.servers[i]);
    }
  }

  /** A server that held nothing has started. */
  lemma StartedIsAccounted(g: Group, k: nat, s': Server, trace': seq<Event>)
    requires Accounted(g) && k < |g.servers| && g.servers[k].process.None? && g.servers[k].executor.None?
    requires Children(trace') == Children(g.trace) + AsSet(s'.process) && Executors(trace') == Executors(g.trace) + AsSet(s'.executor)
    requires AsSet(s'.process) !! Children(g.trace) && AsSet(s'.executor) !! Executors(g.trace)
    ensures Accounted(With(g, k, s', trace'))
  {
    hide Children, Executors;
    var g' := With(g, k, s', trace');
    forall j | 0 <= j < |g'.servers| ensures HoldsLiving(g', j) && (j != k ==> Apart(g.servers[j], s')) {
      assert HoldsLiving(g, j);
    }
    forall c | c in Children(trace') ensures KnownChild(g', c) {
      if c in Children(g.trace) {
        var j :| 0 <= j < |g.servers| && g.servers[j].process == Some(c);
        assert g'.servers[j].process == Some(c);
      } else {
        assert g'.servers[k].process == Some(c);
      }
    }
    forall x | x in Executors(trace') ensures KnownExecutor(g', x) {
      if x in Executors(g.trace) {
        var j :| 0 <= j < |g.servers| && g.servers[j].executor == Some(x);
        assert g'.servers[j].executor == Some(x);
      } else {
        assert g'.servers[k].executor == Some(x);
      }
    }
    OthersApart(g, k, s', trace');
  }

  /** A server that held something has started anew: nobody holds it any more. */
  lemma OverwrittenIsLost(g: Group, k: nat, s': Server, trace': seq<Event>)
    requires Accounted(g) && k < |g.servers| && (g.servers[k].process.Some? || g.servers[k].executor.Some?)
    requires Children(g.trace) <= Children(trace') && Executors(g.trace) <= Executors(trace')
    requires AsSet(s'.process) !! Children(g.trace) && AsSet(s'.executor) !! Executors(g.trace)
    ensures !Accounted(With(g, k, s', trace'))
  {
    hide Children, Executors;
    var g', s := With(g, k, s', trace'), g.servers[k];
    assert HoldsLiving(g, k);
    forall j | 0 <= j < |g'.servers| && j != k ensures Apart(g.servers[j], s) {
    }
    if s.process.Some? {
      assert s.process.value in Children(trace') && !KnownChild(g', s.process.value);
    } else {
      assert s.executor.value in Executors(trace') && !KnownExecutor(g', s.executor.value);
    }
  }

  lemma PrepareAccounts(o: Answers, g: Group, h: nat)
    requires GroupOk(g) && Accounted(g)
    ensures Accounted(Step(o, g, PrepareHandle(h))) <==> !Overwrites(o, g, PrepareHandle(h))
  {
    hide Prepare, Children, Executors, ServerOk, Accounted;
    if h < |g.handles| && !g.handles[h].closed {
      var k := g.handles[h].server;
      var s := g.servers[k];
      var p := Prepare(o, s, g.trace);
      assert Step(o, g, PrepareHandle(h)) == With(g, k, p.server, p.trace);
      Bounded(g.trace);
      if s.started {
        StartedStays(o, s, g.trace);
        assert With(g, k, s, g.trace) == g;
      } else {
        PrepareAdds(o, s, g.trace);
        if !o(g.trace, Spawn) {
          EndedIsAccounted(g, k, p.server, p.trace);
        } else if s.process.None? && s.executor.None? {
          StartedIsAccounted(g, k, p.server, p.trace);
        } else {
          OverwrittenIsLost(g, k, p.server, p.trace);
        }
      }
    }
  }

  lemma StartedStays(o: Answers, s: Server, trace: seq<Event>)
    requires s.started
    ensures Prepare(o, s, trace) == Done(s, trace, None)
  {
  }

  lemma CloseAccounts(o: Answers, g: Group, h: nat)
    requires GroupOk(g) && Accounted(g)
    ensures Accounted(Step(o, g, CloseHandle(h)))
  {
    hide Release, Children, Executors, OpenHandles, AllHandles, Accounted;
    if h < |g.handles| && !g.handles[h].closed {
      var k := g.handles[h].server;
      assert ServerOk(g, k);
      OpenCounted(g.handles, h);
      var r := Release(o, g.servers[k], g.trace);
      ReleaseEnds(o, g.servers[k], g.trace);
      EndedIsAccounted(g, k, r.server, r.trace);
      SameAccounts(With(g, k, r.server, r.trace), Step(o, g, CloseHandle(h)));
    }
  }

  lemma SameAccounts(g: Group, g': Group)
    requires Accounted(g) && g'.servers == g.servers && g'.trace == g.trace
    ensures Accounted(g')
  {
    hide Children, Executors;
    forall k | 0 <= k < |g'.servers| ensures HoldsLiving(g', k) {
      assert HoldsLiving(g, k);
    }
    forall c | c in Children(g'.trace) ensures KnownChild(g', c) {
      assert KnownChild(g, c);
    }
    forall x | x in Executors(g'.trace) ensures KnownExecutor(g', x) {
      assert KnownExecutor(g, x);
    }
  }

  lemma CreateAccounts(g: Group, language: string, adapter: Adapter, built: bool)
    requires GroupOk(g) && Accounted(g)
    ensures Accounted(Created(g, language, adapter, built))
  {
    hide Children, Executors, ServerOk;
    var g' := Created(g, language, adapter, built);
    assert g'.trace == g.trace && |g.servers| <= |g'.servers|;
    assert forall k | 0 <= k < |g.servers| :: g'.servers[k].process == g.servers[k].process && g'.servers[k].executor == g.servers[k].executor;
    assert forall k | |g.servers| <= k < |g'.servers| :: g'.servers[k] == NewServer(adapter);
    forall k | 0 <= k < |g'.servers| ensures HoldsLiving(g', k) {
      assert k < |g.servers| ==> HoldsLiving(g, k);
    }
    forall j, k | 0 <= j < |g'.servers| && 0 <= k < |g'.servers| && j != k ensures Apart(g'.servers[j], g'.servers[k]) {
      assert j < |g.servers| && k < |g.servers| ==> Apart(g.servers[j], g.servers[k]);
    }
    forall c | c in Children(g.trace) ensures KnownChild(g', c) {
      var j :| 0 <= j < |g.servers| && g.servers[j].process == Some(c);
      assert g'.servers[j].process == Some(c);
    }
    forall x | x in Executors(g.trace) ensures KnownExecutor(g', x) {
      var j :| 0 <= j < |g.servers| && g.servers[j].executor == Some(x);
      assert g'.servers[j].executor == Some(x);
    }
  }

  /**
   * Among servers that share one world, an act leaves every living child and executor
   * with exactly one server iff it does not start a server over what an earlier,
   * failed close had left in it.
   */
  lemma StepAccountsIff(o: Answers, g: Group, a: Act)
    requires GroupOk(g) && Accounted(g)
    ensures Accounted(Step(o, g, a)) <==> !Overwrites(o, g, a)
  {
    hide Accounted, Prepare, Release, Created, ServerOk;
    match a {
      case BeginBuild => SameAccounts(g, Step(o, g, a));
      case Create(language, adapter, built) => CreateAccounts(g, language, adapter, built);
      case PrepareHandle(h) => PrepareAccounts(o, g, h);
      case CloseHandle(h) => CloseAccounts(o, g, h);
    }
  }

  // ------------------------------------------------------------------------- runs

  predicate NeverOverwrites(o: Answers, g: Group, acts: seq<Act>)
    decreases |acts|
  {
    acts == [] || (!Overwrites(o, g, acts[0]) && NeverOverwrites(o, Step(o, g, acts[0]), acts[1..]))
  }

  /** Everything alive is accounted for at every moment. */
  predicate AlwaysAccounted(o: Answers, g: Group, acts: seq<Act>)
    decreases |acts|
  {
    Accounted(g) && (acts == [] || AlwaysAccounted(o, Step(o, g, acts[0]), acts[1..]))
  }

  lemma {:induction false} AlwaysAccountedIff(o: Answers, g: Group, acts: seq<Act>)
    requires GroupOk(g) && Accounted(g)
    ensures AlwaysAccounted(o, g, acts) <==> NeverOverwrites(o, g, acts)
    ensures NeverOverwrites(o, g, acts) ==> Accounted(RunAll(o, g, acts))
    decreases |acts|
  {
    hide GroupOk, Accounted, Overwrites, Step;
    if acts != [] {
      StepAccountsIff(o, g, acts[0]);
      StepOk(o, g, acts[0]);
      if Accounted(Step(o, g, acts[0])) {
        AlwaysAccountedIff(o, Step(o, g, acts[0]), acts[1..]);
      }
    }
  }

  /**
   * Over every interleaving of builds, creations, preparations and closes of any
   * servers: every living child and executor belongs to exactly one server all the
   * time iff no server is ever started over the remains of a failed close. Then, once
   * every handle is closed, no child and no executor is left.
   */
  lemma NothingIsLostIff(o: Answers, languages: set<string>, acts: seq<Act>)
    ensures AlwaysAccounted(o, Start(languages), acts) <==> NeverOverwrites(o, Start(languages), acts)
    ensures var g := RunAll(o, Start(languages), acts);
            NeverOverwrites(o, Start(languages), acts) && (forall h | 0 <= h < |g.handles| :: g.handles[h].closed) ==>
              Children(g.trace) == {} && Executors(g.trace) == {}
  {
    hide RunAll, NeverOverwrites, AlwaysAccounted, OpenHandles, AllHandles;
    AlwaysAccountedIff(o, Start(languages), acts);
    RunsOk(o, Start(languages), acts);
    var g := RunAll(o, Start(languages), acts);
    if NeverOverwrites(o, Start(languages), acts) && forall h | 0 <= h < |g.handles| :: g.handles[h].closed {
      forall k | 0 <= k < |g.servers| ensures g.servers[k].process.None? && g.servers[k].executor.None? {
        AllClosed(g.handles, k);
        assert ServerOk(g, k);
      }
      assert forall c | c in Children(g.trace) :: KnownChild(g, c);
      assert forall x | x in Executors(g.trace) :: KnownExecutor(g, x);
    }
  }
}
