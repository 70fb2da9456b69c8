/** Reading event traces: which calls were made, which failed, which error came first. */
module Traces {
  import opened Lifecycle
  import opened ContextTree

  /** The events added to `before` to get `after`. */
  function Since(before: seq<Event>, after: seq<Event>): seq<Event>
    requires before <= after
  {
    after[|before|..]
  }

  function Calls(es: seq<Event>): (cs: seq<Call>) {
    if es == [] then [] else [es[0].call] + Calls(es[1..])
  }

  /** The node (or runtime handle) a call is made on. */
  function Target(c: Call): nat {
    match c
    case OnConfigure(n) => n
    case OnCleanup(n) => n
    case OnActivate(n, _) => n
    case OnDeactivate(n) => n
    case CloseRuntime(h) => h
  }

  /** The callbacks a traversal runs on nodes. */
  datatype Phase = Configuring | CleaningUp | Deactivating | Closing

  function CallOn(phase: Phase, node: nat): Call {
    match phase
    case Configuring => OnConfigure(node)
    case CleaningUp => OnCleanup(node)
    case Deactivating => OnDeactivate(node)
    case Closing => CloseRuntime(node)
  }

  function CallsOn(phase: Phase, nodes: seq<nat>): seq<Call> {
    if nodes == [] then [] else [CallOn(phase, nodes[0])] + CallsOn(phase, nodes[1..])
  }

  lemma {:induction false} CallsOnAppend(phase: Phase, a: seq<nat>, b: seq<nat>)
    ensures CallsOn(phase, a + b) == CallsOn(phase, a) + CallsOn(phase, b)
  {
    if a == [] {
      assert a + b == b;
    } else {
      assert (a + b)[1..] == a[1..] + b;
      CallsOnAppend(phase, a[1..], b);
    }
  }

  function Targets(es: seq<Event>): (ts: seq<nat>) {
    if es == [] then [] else [Target(es[0].call)] + Targets(es[1..])
  }

  /** The targets of the failed calls, in the order they failed. */
  function Bad(es: seq<Event>): seq<nat> {
    if es == [] then []
    else (if es[0].fault.Some? then [Target(es[0].call)] else []) + Bad(es[1..])
  }

  /** The targets of the successful calls, in order. */
  function Good(es: seq<Event>): seq<nat> {
    if es == [] then []
    else (if es[0].fault.None? then [Target(es[0].call)] else []) + Good(es[1..])
  }

  function FirstError(es: seq<Event>): Option<Error> {
    if es == [] then None else First(ErrorOf(es[0]), FirstError(es[1..]))
  }

  lemma {:induction false} CallsAppend(a: seq<Event>, b: seq<Event>)
    ensures Calls(a + b) == Calls(a) + Calls(b)
  {
    if a == [] {
      assert a + b == b;
    } else {
      assert (a + b)[1..] == a[1..] + b;
      CallsAppend(a[1..], b);
    }
  }

  lemma {:induction false} TargetsAppend(a: seq<Event>, b: seq<Event>)
    ensures Targets(a + b) == Targets(a) + Targets(b)
  {
    if a == [] {
      assert a + b == b;
    } else {
      assert (a + b)[1..] == a[1..] + b;
      TargetsAppend(a[1..], b);
    }
  }

  lemma {:induction false} BadAppend(a: seq<Event>, b: seq<Event>)
    ensures Bad(a + b) == Bad(a) + Bad(b)
  {
    if a == [] {
      assert a + b == b;
    } else {
      var first := if a[0].fault.Some? then [Target(a[0].call)] else [];
      assert (a + b)[0] == a[0] && (a + b)[1..] == a[1..] + b;
      BadAppend(a[1..], b);
      assert Bad(a + b) == first + (Bad(a[1..]) + Bad(b)) == (first + Bad(a[1..])) + Bad(b);
    }
  }

  lemma {:induction false} GoodAppend(a: seq<Event>, b: seq<Event>)
    ensures Good(a + b) == Good(a) + Good(b)
  {
    if a == [] {
      assert a + b == b;
    } else {
      var first := if a[0].fault.None? then [Target(a[0].call)] else [];
      assert (a + b)[0] == a[0] && (a + b)[1..] == a[1..] + b;
      GoodAppend(a[1..], b);
      assert Good(a + b) == first + (Good(a[1..]) + Good(b)) == (first + Good(a[1..])) + Good(b);
    }
  }

  lemma {:induction false} ErrorAppend(a: seq<Event>, b: seq<Event>)
    ensures FirstError(a + b) == First(FirstError(a), FirstError(b))
  {
    if a == [] {
      assert a + b == b;
    } else {
      assert (a + b)[1..] == a[1..] + b;
      ErrorAppend(a[1..], b);
    }
  }

  lemma ReverseTargets(a: seq<Event>, b: seq<Event>)
    ensures Reverse(Targets(a + b)) == Reverse(Targets(b)) + Reverse(Targets(a))
  {
    TargetsAppend(a, b);
    ReverseAppend(Targets(a), Targets(b));
  }

  /** Two consecutive stretches of a trace. */
  lemma Between(x: seq<Event>, y: seq<Event>, z: seq<Event>)
    requires x <= y <= z
    ensures x <= z
    ensures Since(x, z) == Since(x, y) + Since(y, z)
    ensures Calls(Since(x, z)) == Calls(Since(x, y)) + Calls(Since(y, z))
    ensures Bad(Since(x, z)) == Bad(Since(x, y)) + Bad(Since(y, z))
    ensures FirstError(Since(x, z)) == First(FirstError(Since(x, y)), FirstError(Since(y, z)))
    ensures Reverse(Targets(Since(x, z))) == Reverse(Targets(Since(y, z))) + Reverse(Targets(Since(x, y)))
  {
    assert Since(x, z) == Since(x, y) + Since(y, z);
    ReverseTargets(Since(x, y), Since(y, z));
    CallsAppend(Since(x, y), Since(y, z));
    BadAppend(Since(x, y), Since(y, z));
    ErrorAppend(Since(x, y), Since(y, z));
  }

  lemma Nothing(x: seq<Event>)
    ensures Since(x, x) == []
  {
  }

  lemma One(x: seq<Event>, e: Event)
    ensures x <= x + [e] && Since(x, x + [e]) == [e]
    ensures Calls([e]) == [e.call] && Targets([e]) == [Target(e.call)]
    ensures Bad([e]) == if e.fault.Some? then [Target(e.call)] else []
    ensures Good([e]) == if e.fault.None? then [Target(e.call)] else []
    ensures FirstError([e]) == ErrorOf(e)
  {
  }

  /** One more event at the end of a stretch. */
  lemma Then(x: seq<Event>, y: seq<Event>, e: Event)
    requires x <= y
    ensures x <= y + [e]
    ensures Since(x, y + [e]) == Since(x, y) + [e]
    ensures Calls(Since(x, y + [e])) == Calls(Since(x, y)) + [e.call]
    ensures Bad(Since(x, y + [e])) == Bad(Since(x, y)) + (if e.fault.Some? then [Target(e.call)] else [])
    ensures FirstError(Since(x, y + [e])) == First(FirstError(Since(x, y)), ErrorOf(e))
    ensures Reverse(Targets(Since(x, y + [e]))) == [Target(e.call)] + Reverse(Targets(Since(x, y)))
  {
    One(y, e);
    CallsAppend(Since(x, y), [e]);
    BadAppend(Since(x, y), [e]);
    ErrorAppend(Since(x, y), [e]);
    ReverseTargets(Since(x, y), [e]);
  }

  lemma BadIffError(es: seq<Event>)
    ensures Bad(es) == [] <==> FirstError(es).None?
  {
  }

  /** Every call is either good or bad, exactly once. */
  lemma GoodAndBad(es: seq<Event>)
    ensures multiset(Targets(es)) == multiset(Good(es)) + multiset(Bad(es))
  {
    if es != [] {
      GoodAndBad(es[1..]);
      assert Targets(es) == [Target(es[0].call)] + Targets(es[1..]);
    }
  }

  lemma {:induction false} TargetsOfCalls(phase: Phase, es: seq<Event>, nodes: seq<nat>)
    requires Calls(es) == CallsOn(phase, nodes)
    ensures Targets(es) == nodes
  {
    CallsOnLength(phase, nodes);
    CallsLength(es);
    if es != [] {
      assert Calls(es)[1..] == Calls(es[1..]);
      assert CallsOn(phase, nodes)[1..] == CallsOn(phase, nodes[1..]);
      TargetsOfCalls(phase, es[1..], nodes[1..]);
      assert Calls(es)[0] == CallOn(phase, nodes[0]);
    }
  }

  lemma CallsOnLength(phase: Phase, nodes: seq<nat>)
    ensures |CallsOn(phase, nodes)| == |nodes|
  {
  }

  lemma CallsLength(es: seq<Event>)
    ensures |Calls(es)| == |es|
  {
  }
}
