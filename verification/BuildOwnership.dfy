/** Who owns the host handles that a build creates. */
module BuildOwnership {
  import opened Lifecycle
  import opened Text
  import opened TreeBuilding
  import opened TwoPasses
  import ServerProcess
  import ServerTheorems
  import opened SharedServers
  import opened HostedBuild

  // ------------------------------------------------------------ created handles

  /** No two components share a folder. */
  predicate Distinct(sites: seq<Site>) {
    forall i, j | 0 <= i < j < |sites| :: sites[i].folder != sites[j].folder
  }

  /** The i-th component is prepared with the i-th handle after `base`. */
  function Listed(sites: seq<Site>, base: nat): seq<Prepared> {
    seq(|sites|, i requires 0 <= i < |sites| => Prepared(sites[i].folder, base + i))
  }

  lemma {:induction false} PutFresh(ps: seq<Prepared>, folder: Path, handle: nat)
    requires forall i | 0 <= i < |ps| :: ps[i].folder != folder
    ensures Put(ps, folder, handle) == ps + [Prepared(folder, handle)]
  {
    if ps != [] {
      PutFresh(ps[1..], folder, handle);
      assert ps == [ps[0]] + ps[1..];
    }
  }

  lemma CreatedHandles(g: Group, language: string, adapter: nat, built: bool)
    ensures var g' := Created(g, language, adapter, built);
            && g.handles <= g'.handles && |g'.handles| <= |g.handles| + 1 && |g.servers| <= |g'.servers|
            && (|g'.handles| == |g.handles| + 1 ==> !g'.handles[|g.handles|].closed)
            && (|g'.handles| == |g.handles| ==> g' == g)
  {
    hide Normalized;
  }

  /** With distinct folders, the dictionary lists exactly the handles created so far, in order. */
  lemma {:induction false} CreatesListed(f: Foreign, g: Group, order: seq<Site>, i: nat, base: nat) returns (m: nat)
    requires Distinct(order) && i <= |order| && |g.handles| == base + i
    ensures var h := CreateHosts(f, g, Listed(order[..i], base), order[i..], i);
            && i <= m <= |order| && h.prepared == Listed(order[..m], base) && |h.group.handles| == base + m
            && g.handles <= h.group.handles && (forall j | base + i <= j < base + m :: !h.group.handles[j].closed)
            && (h.error.None? ==> m == |order|)
    decreases |order| - i
  {
    hide Put;
    m := i;
    if i < |order| && f.client(i) {
      var g' := Created(g, order[i].language, i, f.factory(i));
      CreatedHandles(g, order[i].language, i, f.factory(i));
      if |g'.handles| != |g.handles| {
        PutFresh(Listed(order[..i], base), order[i].folder, base + i);
        assert Put(Listed(order[..i], base), order[i].folder, base + i) == Listed(order[..i + 1], base);
        assert order[i..][1..] == order[i + 1..];
        m := CreatesListed(f, g', order, i + 1, base);
      }
    }
  }

  // ------------------------------------------------------------------- rollback

  /** One close attempt for each of `count` handles, from the last to the first. */
  function CloseEach(base: nat, count: nat): seq<Act> {
    if count == 0 then [] else [CloseHandle(base + count - 1)] + CloseEach(base, count - 1)
  }

  lemma {:induction false} ClosesEach(sites: seq<Site>, base: nat)
    ensures CloseActs(Listed(sites, base)) == CloseEach(base, |sites|)
    decreases |sites|
  {
    if sites != [] {
      var n := |sites| - 1;
      assert Listed(sites, base)[..n] == Listed(sites[..n], base);
      ClosesEach(sites[..n], base);
    }
  }

  lemma {:induction false} CreateHostsOk(f: Foreign, g: Group, prepared: seq<Prepared>, sites: seq<Site>, i: nat)
    requires GroupOk(g)
    ensures GroupOk(CreateHosts(f, g, prepared, sites, i).group)
    decreases |sites|
  {
    hide GroupOk, Put, Created;
    if sites != [] {
      CreateOk(g, sites[0].language, i, f.factory(i));
      var g' := Created(g, sites[0].language, i, f.factory(i));
      CreateHostsOk(f, g', Put(prepared, sites[0].folder, |g.handles|), sites[1..], i + 1);
    }
  }

  /** Preparing changes servers, but neither how many there are nor any handle. */
  lemma {:induction false} PreparingKeeps(o: ServerProcess.Answers, g: Group, prepared: seq<Prepared>)
    requires GroupOk(g)
    ensures var h := PrepareHosts(o, g, prepared);
            GroupOk(h.group) && h.group.handles == g.handles && |h.group.servers| == |g.servers|
    decreases |prepared|
  {
    hide GroupOk, ServerProcess.Prepare;
    if prepared != [] {
      StepOk(o, g, PrepareHandle(prepared[0].handle));
      PreparingKeeps(o, Step(o, g, PrepareHandle(prepared[0].handle)), prepared[1..]);
    }
  }

  /** Closing changes neither the number of servers or handles nor which server a handle is on. */
  lemma {:induction false} ClosingKeeps(o: ServerProcess.Answers, g: Group, prepared: seq<Prepared>)
    requires GroupOk(g)
    ensures var g' := RollBack(o, g, prepared);
            && GroupOk(g') && |g'.servers| == |g.servers| && |g'.handles| == |g.handles|
            && (forall h | 0 <= h < |g.handles| :: g'.handles[h].server == g.handles[h].server)
            && (forall h | 0 <= h < |g.handles| && (forall i | 0 <= i < |prepared| :: prepared[i].handle != h) ::
                  g'.handles[h] == g.handles[h])
    decreases |prepared|
  {
    hide GroupOk, ServerProcess.Release, RollBack;
    if prepared == [] {
      assert RollBack(o, g, prepared) == g by { NothingToClose(o, g); }
    } else {
      var n := |prepared| - 1;
      var a := CloseHandle(prepared[n].handle);
      StepOk(o, g, a);
      RollBackNext(o, g, prepared);
      ClosingKeeps(o, Step(o, g, a), prepared[..n]);
    }
  }

  lemma NothingToClose(o: ServerProcess.Answers, g: Group)
    ensures RollBack(o, g, []) == g
  {
  }

  /** A server whose handles are all closed has nothing left. */
  lemma NothingLeft(g: Group, k: nat)
    requires GroupOk(g) && k < |g.servers|
    requires forall h | 0 <= h < |g.handles| :: g.handles[h].server != k || g.handles[h].closed
    ensures g.servers[k].handles == 0 && g.servers[k].process.None? && g.servers[k].executor.None? && !g.servers[k].started
  {
    AllClosed(g.handles, k);
    assert ServerOk(g, k);
  }

  /** The handles and servers that exist before a rollback. */
  lemma CreationFacts(f: Foreign, g: Group, order: seq<Site>) returns (m: nat)
    requires GroupOk(g) && Distinct(order)
    ensures var h := CreateHosts(f, g, [], order, 0);
            && m <= |order| && h.prepared == Listed(order[..m], |g.handles|) && |h.group.handles| == |g.handles| + m
            && g.handles <= h.group.handles && GroupOk(h.group) && (h.error.None? ==> m == |order|)
  {
    hide GroupOk;
    assert Listed(order[..0], |g.handles|) == [] && order[0..] == order;
    m := CreatesListed(f, g, order, 0, |g.handles|);
    CreateHostsOk(f, g, [], order, 0);
  }

  /** The registry just before the rollback of a failed build. */
  function BeforeRollBack(o: ServerProcess.Answers, f: Foreign, g: Group, order: seq<Site>): Group {
    var hosts := CreateHosts(f, g, [], order, 0);
    if hosts.error.Some? then hosts.group else PrepareHosts(o, hosts.group, hosts.prepared).group
  }

  /** The first error of the stages of a build. */
  function FirstError(o: ServerProcess.Answers, f: Foreign, g: Group, order: seq<Site>, build: SecondPass): Option<BuildError> {
    var hosts := CreateHosts(f, g, [], order, 0);
    var ready := PrepareHosts(o, hosts.group, hosts.prepared);
    var trees := build(PreparedFolders(hosts.prepared));
    First(hosts.error, First(ready.error, if trees.Err? then Some(trees.error) else None))
  }

  /**
   * A build that fails after its collection, with pairwise distinct component
   * folders: the error is that of the first stage that failed; every handle that
   * was created gets exactly one close attempt, in reverse order of creation; and
   * if all these attempts succeed, no server of this build has a handle, a child
   * process or an executor left.
   */
  lemma FailureGivesEverythingBack(
      o: ServerProcess.Answers, f: Foreign, g: Group, sites: seq<Site>, build: SecondPass)
    returns (m: nat)
    requires GroupOk(g) && Distinct(Flatten(GroupAll([], sites)))
    requires BuildPrepared(o, f, g, Ok(sites), build).result.Err?
    ensures var order := Flatten(GroupAll([], sites));
            var g0 := Step(o, g, BeginBuild);
            var out := BuildPrepared(o, f, g, Ok(sites), build);
            && FirstError(o, f, g0, order, build) == Some(out.result.error)
            && out.owned == []
            && out.group == RunAll(o, BeforeRollBack(o, f, g0, order), CloseEach(|g.handles|, m))
            && |out.group.handles| == |g.handles| + m
            && ((forall h | |g.handles| <= h < |out.group.handles| :: out.group.handles[h].closed) ==>
                  forall k | |g.servers| <= k < |out.group.servers| ::
                    && out.group.servers[k].handles == 0 && !out.group.servers[k].started
                    && out.group.servers[k].process.None? && out.group.servers[k].executor.None?)
  {
    hide GroupOk, CreateHosts, PrepareHosts, Flatten, GroupAll;
    var order := Flatten(GroupAll([], sites));
    var g0 := Step(o, g, BeginBuild);
    StepOk(o, g, BeginBuild);
    m := CreationFacts(f, g0, order);
    var hosts := CreateHosts(f, g0, [], order, 0);
    PreparingKeeps(o, hosts.group, hosts.prepared);
    ClosesEach(order[..m], |g.handles|);
    var before := BeforeRollBack(o, f, g0, order);
    ClosingKeeps(o, before, hosts.prepared);
    var out := BuildPrepared(o, f, g, Ok(sites), build);
    OldServers(g);
    if forall h | |g.handles| <= h < |out.group.handles| :: out.group.handles[h].closed {
      forall k | |g.servers| <= k < |out.group.servers|
        ensures out.group.servers[k].handles == 0 && !out.group.servers[k].started
        ensures out.group.servers[k].process.None? && out.group.servers[k].executor.None?
      {
        NothingLeft(out.group, k);
      }
    }
  }

  lemma OldServers(g: Group)
    requires GroupOk(g)
    ensures forall h | 0 <= h < |g.handles| :: g.handles[h].server < |g.servers|
  {
  }

  // ------------------------------------------------------------- shared folders

  predicate UniqueKeys(ps: seq<Prepared>) {
    forall i, j | 0 <= i < j < |ps| :: ps[i].folder != ps[j].folder
  }

  /** Assignment replaces the entry of its key and keeps all others. */
  lemma {:induction false} PutMembers(ps: seq<Prepared>, folder: Path, handle: nat)
    requires UniqueKeys(ps)
    ensures var qs := Put(ps, folder, handle);
            && UniqueKeys(qs)
            && forall p :: p in qs <==> p == Prepared(folder, handle) || (p in ps && p.folder != folder)
  {
    if ps != [] {
      var rest := Put(ps[1..], folder, handle);
      assert UniqueKeys(ps[1..]);
      PutMembers(ps[1..], folder, handle);
      var qs := Put(ps, folder, handle);
      if ps[0].folder == folder {
        assert qs == [Prepared(folder, handle)] + ps[1..];
        forall p | p in ps[1..] ensures p.folder != folder {
        }
      } else {
        assert qs == [ps[0]] + rest;
        forall p | p in rest ensures p.folder != ps[0].folder {
        }
      }
      assert forall p :: p in ps <==> p == ps[0] || p in ps[1..];
    }
  }

  /** No later component up to `n` has the folder of component `j`. */
  predicate Latest(order: seq<Site>, j: nat, n: nat)
    requires j < n <= |order|
  {
    forall l | j < l < n :: order[l].folder != order[j].folder
  }

  /** The dictionary holds the handle of a component iff no later component has its folder. */
  predicate HoldsLatest(prepared: seq<Prepared>, order: seq<Site>, n: nat, base: nat)
    requires n <= |order|
  {
    && UniqueKeys(prepared)
    && forall j | 0 <= j < n :: Prepared(order[j].folder, base + j) in prepared <==> Latest(order, j, n)
  }

  lemma LatestNext(order: seq<Site>, j: nat, n: nat)
    requires j < n < |order|
    ensures Latest(order, j, n + 1) <==> Latest(order, j, n) && order[n].folder != order[j].folder
  {
  }

  lemma HoldsNext(prepared: seq<Prepared>, order: seq<Site>, n: nat, base: nat)
    requires n < |order| && HoldsLatest(prepared, order, n, base)
    requires forall p | p in prepared :: p.handle < base + n
    ensures HoldsLatest(Put(prepared, order[n].folder, base + n), order, n + 1, base)
    ensures forall p | p in Put(prepared, order[n].folder, base + n) :: p.handle < base + n + 1
  {
    hide Put, Latest, UniqueKeys;
    PutMembers(prepared, order[n].folder, base + n);
    var next := Put(prepared, order[n].folder, base + n);
    forall j | 0 <= j < n + 1 ensures Prepared(order[j].folder, base + j) in next <==> Latest(order, j, n + 1) {
      if j < n {
        LatestNext(order, j, n);
      } else {
        NothingLater(order, n);
      }
    }
  }

  lemma NothingLater(order: seq<Site>, n: nat)
    requires n < |order|
    ensures Latest(order, n, n + 1)
  {
  }

  lemma {:induction false} CreatesLatest(f: Foreign, g: Group, prepared: seq<Prepared>, order: seq<Site>, i: nat, base: nat)
    requires i <= |order| && |g.handles| == base + i && HoldsLatest(prepared, order, i, base)
    requires forall p | p in prepared :: p.handle < base + i
    ensures var h := CreateHosts(f, g, prepared, order[i..], i);
            h.error.None? ==> HoldsLatest(h.prepared, order, |order|, base) && |h.group.handles| == base + |order|
    decreases |order| - i
  {
    hide Put, HoldsLatest;
    if i < |order| && f.client(i) {
      var g' := Created(g, order[i].language, i, f.factory(i));
      CreatedHandles(g, order[i].language, i, f.factory(i));
      if |g'.handles| != |g.handles| {
        HoldsNext(prepared, order, i, base);
        assert order[i..][1..] == order[i + 1..];
        CreatesLatest(f, g', Put(prepared, order[i].folder, base + i), order, i + 1, base);
      }
    }
  }

  /**
   * Exactly when no handle is lost: once all hosts are created, the builder still
   * knows every handle iff the component folders are pairwise distinct. Two
   * links to one component make the second host overwrite the first.
   */
  lemma NoHandleLostIffDistinct(f: Foreign, g: Group, order: seq<Site>)
    requires CreateHosts(f, g, [], order, 0).error.None?
    ensures var h := CreateHosts(f, g, [], order, 0);
            && |h.group.handles| == |g.handles| + |order|
            && ((forall j | 0 <= j < |order| :: Prepared(order[j].folder, |g.handles| + j) in h.prepared) <==> Distinct(order))
  {
    hide CreateHosts;
    assert order[0..] == order;
    assert HoldsLatest([], order, 0, |g.handles|);
    CreatesLatest(f, g, [], order, 0, |g.handles|);
    var h := CreateHosts(f, g, [], order, 0);
    if forall j | 0 <= j < |order| :: Prepared(order[j].folder, |g.handles| + j) in h.prepared {
      forall i, j | 0 <= i < j < |order| ensures order[i].folder != order[j].folder {
        assert Prepared(order[i].folder, |g.handles| + i) in h.prepared;
        assert Latest(order, i, |order|);
      }
    }
  }

  // ------------------------------------------------------------------- success

  lemma {:induction false} FoldersAt(sites: seq<Site>)
    ensures |Folders(sites)| == |sites| && forall i | 0 <= i < |sites| :: Folders(sites)[i] == sites[i].folder
  {
    if sites != [] {
      FoldersAt(sites[1..]);
    }
  }

  /** Reordering components reorders their folders. */
  lemma {:induction false} FoldersPermute(a: seq<Site>, b: seq<Site>)
    requires multiset(a) == multiset(b)
    ensures multiset(Folders(a)) == multiset(Folders(b))
    decreases |a|
  {
    if a != [] {
      assert a[0] in multiset(b);
      var i :| 0 <= i < |b| && b[i] == a[0];
      var rest := b[..i] + b[i + 1..];
      WithoutOne(a, b, i);
      assert b == b[..i] + ([b[i]] + b[i + 1..]);
      FoldersPermute(a[1..], rest);
      assert Folders(a) == [a[0].folder] + Folders(a[1..]) && Folders([b[i]]) == [b[i].folder];
      FoldersAppend(b[..i], [b[i]] + b[i + 1..]);
      FoldersAppend([b[i]], b[i + 1..]);
      FoldersAppend(b[..i], b[i + 1..]);
    } else {
      assert |multiset(b)| == 0;
    }
  }

  lemma WithoutOne<T>(a: seq<T>, b: seq<T>, i: nat)
    requires a != [] && i < |b| && b[i] == a[0] && multiset(a) == multiset(b)
    ensures multiset(a[1..]) == multiset(b[..i] + b[i + 1..])
  {
    assert a == [a[0]] + a[1..] && b == b[..i] + [b[i]] + b[i + 1..];
    assert multiset(a) == multiset{a[0]} + multiset(a[1..]);
    assert multiset(b) == multiset(b[..i]) + multiset{b[i]} + multiset(b[i + 1..]);
    assert multiset(b[..i] + b[i + 1..]) == multiset(b[..i]) + multiset(b[i + 1..]);
    assert multiset(a[1..]) == multiset(a) - multiset{a[0]};
  }

  function OwnedFolders(owned: seq<Prepared>): seq<Path> {
    seq(|owned|, i requires 0 <= i < |owned| => owned[i].folder)
  }

  /**
   * A successful build from component roots with pairwise distinct folders and no
   * misread language: the handles handed over are exactly those created, and the
   * adapted contexts of the returned trees are exactly their components, so that
   * every handle has one owner.
   */
  lemma EveryHandleHasOneOwner(
      o: ServerProcess.Answers, f: Foreign, g: Group, lib: Library, local: Local, c: nat, b: nat, roots: seq<Root>)
    requires GroupOk(g) && LocateRoots(lib, roots).Ok? && CollectRoots(lib, c, LocateRoots(lib, roots).value).Ok?
    requires var sites := CollectRoots(lib, c, LocateRoots(lib, roots).value).value;
             && CleanRoots(lib, c, LocateRoots(lib, roots).value) && Distinct(Flatten(GroupAll([], sites)))
    requires var sites := CollectRoots(lib, c, LocateRoots(lib, roots).value).value;
             BuildPrepared(o, f, g, Ok(sites), prepared => BuildRoots(lib, local, prepared, b, roots)).result.Ok?
    ensures var sites := CollectRoots(lib, c, LocateRoots(lib, roots).value).value;
            var out := BuildPrepared(o, f, g, Ok(sites), prepared => BuildRoots(lib, local, prepared, b, roots));
            && out.owned == Listed(Flatten(GroupAll([], sites)), |g.handles|)
            && |out.group.handles| == |g.handles| + |out.owned|
            && multiset(OwnersAll(out.result.value)) == multiset(OwnedFolders(out.owned))
            && (forall i, j | 0 <= i < j < |out.owned| :: out.owned[i].folder != out.owned[j].folder)
  {
    hide GroupOk, CreateHosts, PrepareHosts, Flatten, GroupAll, CollectRoots, LocateRoots, BuildRoots, CleanRoots, AllPrepared;
    var sites := CollectRoots(lib, c, LocateRoots(lib, roots).value).value;
    var order := Flatten(GroupAll([], sites));
    var g0 := Step(o, g, BeginBuild);
    StepOk(o, g, BeginBuild);
    var m := CreationFacts(f, g0, order);
    var hosts := CreateHosts(f, g0, [], order, 0);
    PreparingKeeps(o, hosts.group, hosts.prepared);
    assert order[..m] == order;
    GroupingPermutes([], sites);
    assert multiset(order) == multiset(sites) by { EmptyGroups(); }
    FoldersPermute(order, sites);
    SitesPrepared(sites, order, |g.handles|);
    RootsAgree(lib, local, PreparedFolders(hosts.prepared), c, b, roots);
    FoldersAt(order);
    assert OwnedFolders(hosts.prepared) == Folders(order);
  }

  lemma EmptyGroups()
    ensures Flatten([]) == []
  {
  }

  lemma SitesPrepared(sites: seq<Site>, order: seq<Site>, base: nat)
    requires multiset(order) == multiset(sites)
    ensures AllPrepared(sites, PreparedFolders(Listed(order, base)))
  {
    var prepared := Listed(order, base);
    forall i | 0 <= i < |sites| ensures sites[i].folder in PreparedFolders(prepared) {
      assert sites[i] in multiset(order);
      var j :| 0 <= j < |order| && order[j] == sites[i];
      assert prepared[j].folder == sites[i].folder;
    }
  }

  // ------------------------------------------------------------- started hosts

  /** The host behind a handle is running. */
  predicate Runs(g: Group, h: nat) {
    h < |g.handles| && g.handles[h].server < |g.servers| && g.servers[g.handles[h].server].started
  }

  lemma PrepareKeepsRunning(o: ServerProcess.Answers, g: Group, h: nat, other: nat)
    requires GroupOk(g) && Runs(g, other)
    ensures Runs(Step(o, g, PrepareHandle(h)), other)
  {
    hide ServerProcess.Launch, ServerProcess.Close, OpenHandles;
  }

  lemma PrepareStarts(o: ServerProcess.Answers, g: Group, h: nat)
    requires GroupOk(g) && h < |g.handles| && !g.handles[h].closed && PrepareError(o, g, h).None?
    ensures Runs(Step(o, g, PrepareHandle(h)), h)
  {
    hide ServerProcess.Launch, ServerProcess.Close, OpenHandles, AllHandles, ServerTheorems.Requests, ServerTheorems.Connects;
    var s := g.servers[g.handles[h].server];
    if !s.started {
      ServerTheorems.PrepareStartsOrUndoes(o, s, g.trace);
    }
  }

  lemma {:induction false} StillRuns(o: ServerProcess.Answers, g: Group, prepared: seq<Prepared>, h: nat)
    requires GroupOk(g) && Runs(g, h)
    ensures Runs(PrepareHosts(o, g, prepared).group, h)
    decreases |prepared|
  {
    hide GroupOk, Runs, Step;
    if prepared != [] {
      StepOk(o, g, PrepareHandle(prepared[0].handle));
      PrepareKeepsRunning(o, g, prepared[0].handle, h);
      StillRuns(o, Step(o, g, PrepareHandle(prepared[0].handle)), prepared[1..], h);
    }
  }

  /** If no host failed to start, all of them run. */
  lemma {:induction false} AllStart(o: ServerProcess.Answers, g: Group, prepared: seq<Prepared>)
    requires GroupOk(g) && PrepareHosts(o, g, prepared).error.None?
    requires forall i | 0 <= i < |prepared| :: prepared[i].handle < |g.handles| && !g.handles[prepared[i].handle].closed
    ensures forall i | 0 <= i < |prepared| :: Runs(PrepareHosts(o, g, prepared).group, prepared[i].handle)
    decreases |prepared|
  {
    hide GroupOk, Runs, ServerProcess.Prepare;
    if prepared != [] {
      var g' := Step(o, g, PrepareHandle(prepared[0].handle));
      StepOk(o, g, PrepareHandle(prepared[0].handle));
      PrepareStarts(o, g, prepared[0].handle);
      StillRuns(o, g', prepared[1..], prepared[0].handle);
      AllStart(o, g', prepared[1..]);
      forall i | 0 <= i < |prepared| ensures Runs(PrepareHosts(o, g, prepared).group, prepared[i].handle) {
        if i > 0 {
          assert prepared[i] == prepared[1..][i - 1];
        }
      }
    }
  }

  /** After a successful build every handle it handed over is open, and the host behind it runs. */
  lemma SuccessStartsHosts(o: ServerProcess.Answers, f: Foreign, g: Group, sites: seq<Site>, build: SecondPass)
    requires GroupOk(g) && Distinct(Flatten(GroupAll([], sites)))
    requires BuildPrepared(o, f, g, Ok(sites), build).result.Ok?
    ensures var out := BuildPrepared(o, f, g, Ok(sites), build);
            forall i | 0 <= i < |out.owned| ::
              Runs(out.group, out.owned[i].handle) && !out.group.handles[out.owned[i].handle].closed
  {
    hide GroupOk, PrepareHosts, Flatten, GroupAll, Runs;
    var order := Flatten(GroupAll([], sites));
    var g0 := Step(o, g, BeginBuild);
    StepOk(o, g, BeginBuild);
    var hosts := CreateHosts(f, g0, [], order, 0);
    OpenCreated(f, g0, order);
    PreparingKeeps(o, hosts.group, hosts.prepared);
    AllStart(o, hosts.group, hosts.prepared);
    RunsInRange(PrepareHosts(o, hosts.group, hosts.prepared).group);
  }

  lemma RunsInRange(g: Group)
    ensures forall h: nat :: Runs(g, h) ==> h < |g.handles|
  {
  }

  lemma OpenCreated(f: Foreign, g: Group, order: seq<Site>)
    requires GroupOk(g) && Distinct(order)
    ensures var h := CreateHosts(f, g, [], order, 0);
            GroupOk(h.group) && forall i | 0 <= i < |h.prepared| ::
              h.prepared[i].handle < |h.group.handles| && !h.group.handles[h.prepared[i].handle].closed
  {
    hide GroupOk, CreateHosts;
    assert Listed(order[..0], |g.handles|) == [] && order[0..] == order;
    var _ := CreatesListed(f, g, order, 0, |g.handles|);
    CreateHostsOk(f, g, [], order, 0);
  }
}
