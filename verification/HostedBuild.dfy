/** A build as a whole: create the hosts, prepare them, build the trees, or give everything back. */
module HostedBuild {
  import opened Lifecycle
  import opened Text
  import opened TreeBuilding
  import ServerProcess
  import opened SharedServers

  /** An entry of `_prepared_components`. */
  datatype Prepared = Prepared(folder: Path, handle: nat)

  /** Assignment to a dictionary key: a key that is there keeps its place. */
  function Put(ps: seq<Prepared>, folder: Path, handle: nat): seq<Prepared> {
    if ps == [] then [Prepared(folder, handle)]
    else if ps[0].folder == folder then [Prepared(folder, handle)] + ps[1..]
    else [ps[0]] + Put(ps[1..], folder, handle)
  }

  // ----------------------------------------------------------------- grouping

  /** The components of one language, in the order they were collected. */
  datatype Batch = Batch(language: string, sites: seq<Site>)

  /** `groups.setdefault(language, []).append(node)` */
  function AddTo(groups: seq<Batch>, site: Site): seq<Batch> {
    if groups == [] then [Batch(Normalized(site.language), [site])]
    else if groups[0].language == Normalized(site.language) then [groups[0].(sites := groups[0].sites + [site])] + groups[1..]
    else [groups[0]] + AddTo(groups[1..], site)
  }

  function GroupAll(groups: seq<Batch>, sites: seq<Site>): seq<Batch>
    decreases |sites|
  {
    if sites == [] then groups else GroupAll(AddTo(groups, sites[0]), sites[1..])
  }

  /** The order in which hosts are created. */
  function Flatten(groups: seq<Batch>): seq<Site> {
    if groups == [] then [] else groups[0].sites + Flatten(groups[1..])
  }

  lemma {:induction false} AddToFlatten(groups: seq<Batch>, site: Site)
    ensures multiset(Flatten(AddTo(groups, site))) == multiset(Flatten(groups)) + multiset{site}
  {
    hide Normalized;
    if groups != [] {
      var rest := groups[1..];
      if groups[0].language == Normalized(site.language) {
        assert AddTo(groups, site)[1..] == rest;
      } else {
        assert AddTo(groups, site)[1..] == AddTo(rest, site);
        AddToFlatten(rest, site);
      }
    }
  }

  /** Grouping by language reorders the collected components and loses none. */
  lemma {:induction false} GroupingPermutes(groups: seq<Batch>, sites: seq<Site>)
    ensures multiset(Flatten(GroupAll(groups, sites))) == multiset(Flatten(groups)) + multiset(sites)
    decreases |sites|
  {
    hide AddTo, Flatten;
    if sites == [] {
      assert multiset(sites) == multiset{};
    } else {
      AddToFlatten(groups, sites[0]);
      GroupingPermutes(AddTo(groups, sites[0]), sites[1..]);
      assert sites == [sites[0]] + sites[1..];
      assert multiset(sites) == multiset{sites[0]} + multiset(sites[1..]);
    }
  }

  // ------------------------------------------------------------------- hosts

  /** Whether the adapter client, and the process of a new group, can be constructed for the i-th host. */
  datatype Foreign = Foreign(client: nat -> bool, factory: nat -> bool)

  datatype Hosts = Hosts(group: Group, prepared: seq<Prepared>, error: Option<BuildError>)

  /** The nested loops over groups and nodes; `i` counts the hosts tried so far. */
  function CreateHosts(f: Foreign, g: Group, prepared: seq<Prepared>, sites: seq<Site>, i: nat): Hosts
    decreases |sites|
  {
    if sites == [] then Hosts(g, prepared, None)
    else if !f.client(i) then Hosts(g, prepared, Some(ClientFailed(sites[0].folder)))
    else
      var g' := Created(g, sites[0].language, i, f.factory(i));
      if |g'.handles| == |g.handles| then Hosts(g, prepared, Some(HostRefused(sites[0].folder)))
      else CreateHosts(f, g', Put(prepared, sites[0].folder, |g.handles|), sites[1..], i + 1)
  }

  /** Why `handle.prepare()` raises, if it does. */
  function PrepareError(o: ServerProcess.Answers, g: Group, h: nat): Option<nat> {
    if h >= |g.handles| || g.handles[h].closed || g.handles[h].server >= |g.servers| then None
    else ServerProcess.Prepare(o, g.servers[g.handles[h].server], g.trace).error
  }

  /** `prepared.process.prepare()` for every entry, until one fails. */
  function PrepareHosts(o: ServerProcess.Answers, g: Group, prepared: seq<Prepared>): Hosts
    decreases |prepared|
  {
    if prepared == [] then Hosts(g, [], None)
    else
      var error := PrepareError(o, g, prepared[0].handle);
      var g' := Step(o, g, PrepareHandle(prepared[0].handle));
      if error.Some? then Hosts(g', [], Some(HostFailed(error.value)))
      else PrepareHosts(o, g', prepared[1..])
  }

  /** The rollback closes every entry once, from the last to the first. */
  function CloseActs(prepared: seq<Prepared>): seq<Act>
    decreases |prepared|
  {
    if prepared == [] then []
    else [CloseHandle(prepared[|prepared| - 1].handle)] + CloseActs(prepared[..|prepared| - 1])
  }

  function RollBack(o: ServerProcess.Answers, g: Group, prepared: seq<Prepared>): Group {
    RunAll(o, g, CloseActs(prepared))
  }

  lemma RollBackNext(o: ServerProcess.Answers, g: Group, prepared: seq<Prepared>)
    requires prepared != []
    ensures var n := |prepared| - 1;
            RollBack(o, g, prepared) == RollBack(o, Step(o, g, CloseHandle(prepared[n].handle)), prepared[..n])
  {
    hide Step;
    assert CloseActs(prepared)[1..] == CloseActs(prepared[..|prepared| - 1]);
  }

  /** What a build leaves: the registry, what the returned trees own, and its result. */
  datatype Outcome = Outcome(group: Group, owned: seq<Prepared>, result: Result<seq<Built>>)

  function PreparedFolders(prepared: seq<Prepared>): set<Path> {
    set i | 0 <= i < |prepared| :: prepared[i].folder
  }

  type SecondPass = set<Path> -> Result<seq<Built>>

  /** `_build_prepared_contexts` once the first pass has given `sites`. */
  function BuildPrepared(o: ServerProcess.Answers, f: Foreign, g: Group, collected: Result<seq<Site>>, build: SecondPass): Outcome {
    var g0 := Step(o, g, BeginBuild);
    if collected.Err? then Outcome(g0, [], Err(collected.error))
    else
      var hosts := CreateHosts(f, g0, [], Flatten(GroupAll([], collected.value)), 0);
      if hosts.error.Some? then Outcome(RollBack(o, hosts.group, hosts.prepared), [], Err(hosts.error.value))
      else
        var ready := PrepareHosts(o, hosts.group, hosts.prepared);
        if ready.error.Some? then Outcome(RollBack(o, ready.group, hosts.prepared), [], Err(ready.error.value))
        else
          var trees := build(PreparedFolders(hosts.prepared));
          if trees.Err? then Outcome(RollBack(o, ready.group, hosts.prepared), [], trees)
          else Outcome(ready.group, hosts.prepared, trees)
  }
}
