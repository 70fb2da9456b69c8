/** The builder: its dictionary and its registry change in place. */
module ContextBuilder {
  import opened Lifecycle
  import opened Text
  import opened TreeBuilding
  import ServerProcess
  import opened SharedServers
  import H = HostedBuild

  class ComponentContextBuilder {
    const answers: ServerProcess.Answers
    const foreign: H.Foreign
    var group: Group
    var prepared: seq<H.Prepared>

    constructor (answers: ServerProcess.Answers, foreign: H.Foreign, languages: set<string>)
      ensures this.answers == answers && this.foreign == foreign
      ensures group == SharedServers.Start(languages) && prepared == []
    {
      this.answers, this.foreign := answers, foreign;
      group, prepared := SharedServers.Start(languages), [];
    }

    /** The groups of `_prepare_component_processes`, in the order hosts are created. */
    method Arrange(sites: seq<Site>) returns (order: seq<Site>)
      ensures order == H.Flatten(H.GroupAll([], sites))
    {
      var groups := [];
      assert sites[0..] == sites;
      for i := 0 to |sites|
        invariant H.GroupAll([], sites) == H.GroupAll(groups, sites[i..])
      {
        assert sites[i..][0] == sites[i] && sites[i..][1..] == sites[i + 1..];
        groups := H.AddTo(groups, sites[i]);
      }
      assert sites[|sites|..] == [];
      order := [];
      assert groups[0..] == groups;
      for i := 0 to |groups|
        invariant H.Flatten(groups) == order + H.Flatten(groups[i..])
      {
        assert groups[i..][0] == groups[i] && groups[i..][1..] == groups[i + 1..];
        order := order + groups[i].sites;
      }
      assert groups[|groups|..] == [];
    }

    /** Create a host for every component; stops at the first failure. */
    method CreateHosts(sites: seq<Site>) returns (error: Option<BuildError>)
      modifies this`group, this`prepared
      ensures var h := H.CreateHosts(foreign, old(group), old(prepared), sites, 0);
              group == h.group && prepared == h.prepared && error == h.error
    {
      ghost var goal := H.CreateHosts(foreign, group, prepared, sites, 0);
      assert sites[0..] == sites;
      for i := 0 to |sites|
        invariant goal == H.CreateHosts(foreign, group, prepared, sites[i..], i)
      {
        assert sites[i..][0] == sites[i] && sites[i..][1..] == sites[i + 1..];
        if !foreign.client(i) {
          return Some(ClientFailed(sites[i].folder));
        }
        var before := |group.handles|;
        var created := Created(group, sites[i].language, i, foreign.factory(i));
        if |created.handles| == before {
          return Some(HostRefused(sites[i].folder));
        }
        group := created;
        prepared := H.Put(prepared, sites[i].folder, before);
      }
      assert sites[|sites|..] == [];
      error := None;
    }

    method PrepareHosts() returns (error: Option<BuildError>)
      modifies this`group
      ensures var h := H.PrepareHosts(answers, old(group), prepared);
              group == h.group && error == h.error
    {
      ghost var goal := H.PrepareHosts(answers, group, prepared);
      assert prepared[0..] == prepared;
      for i := 0 to |prepared|
        invariant var rest := H.PrepareHosts(answers, group, prepared[i..]);
          goal.group == rest.group && goal.error == rest.error
      {
        assert prepared[i..][0] == prepared[i] && prepared[i..][1..] == prepared[i + 1..];
        var failed := H.PrepareError(answers, group, prepared[i].handle);
        group := Step(answers, group, PrepareHandle(prepared[i].handle));
        if failed.Some? {
          return Some(HostFailed(failed.value));
        }
      }
      assert prepared[|prepared|..] == [];
      error := None;
    }

    /** Close every handle, last to first; failures are only logged. */
    method RollBack()
      modifies this`group
      ensures group == H.RollBack(answers, old(group), prepared)
    {
      ghost var goal := H.RollBack(answers, group, prepared);
      var k := |prepared|;
      assert prepared[..k] == prepared;
      while k > 0
        invariant 0 <= k <= |prepared|
        invariant goal == H.RollBack(answers, group, prepared[..k])
      {
        assert prepared[..k][..k - 1] == prepared[..k - 1];
        k := k - 1;
        H.RollBackNext(answers, group, prepared[..k + 1]);
        group := Step(answers, group, CloseHandle(prepared[k].handle));
      }
    }

    /**
     * `_build_prepared_contexts`: whatever the outcome, the builder holds nothing
     * afterwards; on success the handles belong to the returned trees.
     */
    method BuildPreparedContexts(collected: Result<seq<Site>>, build: H.SecondPass)
      returns (result: Result<seq<Built>>, ghost owned: seq<H.Prepared>)
      modifies this`group, this`prepared
      ensures prepared == []
      ensures H.Outcome(group, owned, result) == H.BuildPrepared(answers, foreign, old(group), collected, build)
    {
      prepared := [];
      group := Step(answers, group, BeginBuild);
      owned := [];
      if collected.Err? {
        return Err(collected.error), [];
      }
      var order := Arrange(collected.value);
      var error := CreateHosts(order);
      if error.None? {
        error := PrepareHosts();
      }
      if error.Some? {
        result := Err(error.value);
      } else {
        result := build(H.PreparedFolders(prepared));
      }
      if result.Err? {
        RollBack();
      } else {
        owned := prepared;
      }
      prepared := [];
    }
  }
}
