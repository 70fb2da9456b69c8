/** States that runs lead to. */
module Runs {
  import opened Protocol

  /** Some run leads from one state to the other. */
  ghost predicate Leads(s: State, s': State) {
    exists run: seq<Action> :: Protocol.Legal(s, run) && After(s, run) == s'
  }

  lemma {:induction false} RunsCompose(s: State, run: seq<Action>, more: seq<Action>)
    requires Protocol.Legal(s, run) && Protocol.Legal(After(s, run), more)
    ensures Protocol.Legal(s, run + more) && After(s, run + more) == After(After(s, run), more)
    decreases |run|
  {
    hide Next, Enabled;
    if run == [] {
      assert run + more == more;
    } else {
      assert (run + more)[1..] == run[1..] + more;
      RunsCompose(Next(s, run[0]), run[1..], more);
    }
  }

  lemma LeadsOn(a: State, b: State, c: State)
    requires Leads(a, b) && Leads(b, c)
    ensures Leads(a, c)
  {
    var run: seq<Action> :| Protocol.Legal(a, run) && After(a, run) == b;
    var more: seq<Action> :| Protocol.Legal(b, more) && After(b, more) == c;
    RunsCompose(a, run, more);
  }

  lemma OneStep(s: State, a: Action)
    requires Enabled(s, a)
    ensures Leads(s, Next(s, a))
  {
    hide Next, Enabled;
    assert [a][1..] == [];
    assert Protocol.Legal(s, [a]) && After(s, [a]) == Next(s, a);
  }
}
