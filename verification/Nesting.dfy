/**
 * When operations that a switch's or a reload's own callbacks start do not meddle
 * with it: they name other entries, which can be checked where they are started.
 */
module Nesting {
  import opened Lifecycle
  import opened Names
  import opened Entries
  import opened Protocol
  import opened Invariant
  import opened Calls
  import opened PrimSteps
  import opened AllSteps
  import opened Effects
  import opened Turns
  import opened Discipline
  import opened Handover

  /** Operation `g` asks for no entry of the switch or reload `f`. */
  predicate Spares(f: Frame, g: Frame) {
    match f
    case SwitchFrame(a, b, _, _, _) => !Asks(g, a) && !Asks(g, b)
    case ReloadFrame(n, _, _, _, _, _, _, _) => !Asks(g, n)
    case _ => true
  }

  /** `g` may be started above `below`: it spares activation `i`, and a `close` is refused at once. */
  predicate StandsAside(below: seq<Frame>, i: nat, g: Frame) {
    && (i < |below| ==> Spares(below[i], g))
    && (g.CloseFrame? && i < |below| ==> g.cl.CStart? && InCallback(below))
  }

  /** Every operation that `t` starts above activation `i` names other entries. */
  predicate StartsElsewhere(s: State, run: seq<Action>, t: Tid, i: nat)
    requires Protocol.Legal(s, run)
    decreases |run|
  {
    run == [] ||
      ((run[0].StartOp? && run[0].t == t ==> StandsAside(Stack(s, t), i, run[0].f)) && StartsElsewhere(Next(s, run[0]), run[1..], t, i))
  }

  /** The first activation above `i` that is not one it awaits. */
  function FirstNested(stack: seq<Frame>, i: nat): nat
    requires i < |stack|
  {
    if Awaits(stack[i]).Some? then i + 2 else i + 1
  }

  /** All activations nested in `i` stand aside. */
  predicate Aloof(stack: seq<Frame>, i: nat) {
    i < |stack| && (stack[i].SwitchFrame? || stack[i].ReloadFrame?) ==>
      forall j | FirstNested(stack, i) <= j < |stack| :: StandsAside(stack[..j], i, stack[j])
  }

  lemma AloofKeepsOut(s: State, t: Tid, i: nat, strict: bool)
    requires Aloof(Stack(s, t), i)
    ensures !Meddles(s, t, i, strict)
  {
    var stack := Stack(s, t);
    if Nested(stack, i) && (stack[i].SwitchFrame? || stack[i].ReloadFrame?) {
      var k := |stack| - 1;
      assert StandsAside(stack[..k], i, stack[k]);
      assert stack[..k][i] == stack[i];
    }
  }

  /** What stands aside may go on, call what it asks for, and resume. */
  lemma SameAside(below: seq<Frame>, i: nat, g: Frame, g': Frame)
    requires StandsAside(below, i, g) && (forall n :: Asks(g', n) ==> Asks(g, n))
    requires g'.CloseFrame? ==> g.CloseFrame? && (g.cl.CStart? ==> g'.cl.CStart?)
    ensures StandsAside(below, i, g')
  {
  }

  lemma ChildAside(below: seq<Frame>, i: nat, g: Frame)
    requires StandsAside(below, i, g) && Awaits(g).Some? && i < |below|
    ensures StandsAside(below + [g], i, Child(g))
  {
    hide Before;
    assert (below + [g])[i] == below[i];
    ChildAsks(g);
  }

  lemma ChildAsks(g: Frame)
    requires Awaits(g).Some? && !g.CloseFrame?
    ensures forall n :: Asks(Child(g), n) ==> Asks(g, n)
  {
  }

  /** A turn of the innermost activation keeps everything nested in `i` aside. */
  lemma TurnAloof(stack: seq<Frame>, turn: Turn, i: nat)
    requires stack != [] && Aloof(stack, i) && MayTurn(stack[|stack| - 1], turn)
    requires i < |stack| - 1 ==> Awaits(stack[i]).Some? || CallsOut(stack[i])
    requires stack[|stack| - 1].CloseFrame? && i < |stack| - 1 ==> turn.GoBack?
    requires i + 1 < |stack| && Awaits(stack[i]).Some? ==> stack[i + 1].PrimFrame?
    ensures Aloof(Turned(stack, turn), i)
  {
    hide StandsAside, Unwind, Resume, Returning;
    var k := |stack| - 1;
    var after := Turned(stack, turn);
    TurnLength(stack, turn);
    if i < |after| && (after[i].SwitchFrame? || after[i].ReloadFrame?) {
      TurnKinds(stack, turn, i);
      forall j | FirstNested(after, i) <= j < |after| ensures StandsAside(after[..j], i, after[j]) {
        AsideAfter(stack, turn, i, j);
      }
    }
  }

  lemma TurnLength(stack: seq<Frame>, turn: Turn)
    requires stack != [] && MayTurn(stack[|stack| - 1], turn)
    ensures |Turned(stack, turn)| == |stack| + (if turn.Call? then 1 else if turn.GoBack? then -1 else 0)
  {
    hide Resume;
  }

  lemma TurnKinds(stack: seq<Frame>, turn: Turn, i: nat)
    requires stack != [] && MayTurn(stack[|stack| - 1], turn) && i < |Turned(stack, turn)|
    requires Turned(stack, turn)[i].SwitchFrame? || Turned(stack, turn)[i].ReloadFrame?
    ensures i < |stack| && (stack[i].SwitchFrame? || stack[i].ReloadFrame?)
  {
    hide Unwind, Resume, Returning, Awaits;
    TurnShapes(stack, turn, i);
  }

  lemma AsideAfter(stack: seq<Frame>, turn: Turn, i: nat, j: nat)
    requires stack != [] && Aloof(stack, i) && MayTurn(stack[|stack| - 1], turn)
    requires i < |stack| && (stack[i].SwitchFrame? || stack[i].ReloadFrame?)
    requires i < |stack| - 1 ==> Awaits(stack[i]).Some? || CallsOut(stack[i])
    requires stack[|stack| - 1].CloseFrame? && i < |stack| - 1 ==> turn.GoBack?
    requires i + 1 < |stack| && Awaits(stack[i]).Some? ==> stack[i + 1].PrimFrame?
    requires i < |Turned(stack, turn)| && FirstNested(Turned(stack, turn), i) <= j < |Turned(stack, turn)|
    ensures StandsAside(Turned(stack, turn)[..j], i, Turned(stack, turn)[j])
  {
    hide StandsAside, Resume, Returning, Unwind;
    var k := |stack| - 1;
    match turn {
      case GoOn(g) =>
        if k != i {
          assert stack[k := g][..j] == stack[..j];
          assert StandsAside(stack[..j], i, stack[j]);
          if j == k {
            SiteAlike(stack[k], g);
            SameAside(stack[..k], i, stack[k], g);
          }
        }
      case Call(g) =>
        if k != i {
          assert StandsAside(stack[..k], i, stack[k]);
          SiteAlike(stack[k], g);
          SameAside(stack[..k], i, stack[k], g);
          assert (stack[k := g] + [Child(g)])[..k] == stack[..k];
          assert (stack[k := g] + [Child(g)])[..k + 1] == stack[..k] + [g];
          if j == k + 1 {
            ChildAside(stack[..k], i, g);
          } else {
            assert (stack[k := g] + [Child(g)])[..j] == stack[..j];
            assert j < k ==> StandsAside(stack[..j], i, stack[j]);
          }
        }
      case GoBack(r) => BackAside(stack, r, i, j);
    }
  }

  lemma BackAside(stack: seq<Frame>, r: Ret, i: nat, j: nat)
    requires stack != [] && Aloof(stack, i) && i < |stack| && (stack[i].SwitchFrame? || stack[i].ReloadFrame?)
    requires i < |stack| - 1 ==> Awaits(stack[i]).Some? || CallsOut(stack[i])
    requires i < |Unwind(stack, r)| && FirstNested(Unwind(stack, r), i) <= j < |Unwind(stack, r)|
    ensures StandsAside(Unwind(stack, r)[..j], i, Unwind(stack, r)[j])
  {
    hide StandsAside, Resume, Awaits;
    UnwindLength(stack, r);
    assert i < |stack| - 2;
    UnwindAt(stack, r, i);
    UnwindAt(stack, r, j);
    assert StandsAside(stack[..j], i, stack[j]);
    forall m | 0 <= m < j ensures Unwind(stack, r)[m] == stack[m] {
      UnwindAt(stack, r, m);
    }
    assert Unwind(stack, r)[..j] == stack[..j];
    ResumeAlike(stack[j], r);
    SameAside(stack[..j], i, stack[j], Resume(stack[j], r));
  }

  // --------------------------------------------------------------------- runs

  lemma RunAloof(s: State, a: Action, i: nat)
    requires Inv(s) && Enabled(s, a) && a.Run? && Aloof(Stack(s, a.t), i)
    ensures Aloof(Stack(Next(s, a), a.t), i)
  {
    hide Inv, CanRun, RunPrim, RunSwitch, RunReload, RunClose, Calm, Turned, MayTurn, Aloof, Awaits, Return, Unwind;
    var stack := Stack(s, a.t);
    assert stack != [] by { HasTop(s, a); }
    if i < |stack| - 1 {
      AboveFacts(s, a.t, i);
    }
    var nested := stack[|stack| - 1].CloseFrame? && i < |stack| - 1 && (stack[i].SwitchFrame? || stack[i].ReloadFrame?);
    if nested {
      NestedCloseAside(s, a.t, i);
      NestedCloseReturns(s, a.t, a.choice);
      TopOk(s, a.t);
      ReturnCalm(s, a.t, Ret(false, None));
      BackTurned(stack, Ret(false, None));
      assert MayTurn(stack[|stack| - 1], GoBack(Ret(false, None))) by { CloseGoesBack(stack[|stack| - 1]); }
      TurnAloof(stack, GoBack(Ret(false, None)), i);
    } else {
      var turn := RunTurns(s, a.t, a.choice);
      if stack[|stack| - 1].CloseFrame? && i < |stack| - 1 {
        PlainAloof(stack, turn, i);
      } else {
        TurnAloof(stack, turn, i);
      }
    }
  }

  lemma CloseGoesBack(f: Frame)
    requires f.CloseFrame? && Awaits(f).None?
    ensures MayTurn(f, GoBack(Ret(false, None)))
  {
  }

  /** Nothing is claimed about activations that are neither a switch nor a reload. */
  lemma PlainAloof(stack: seq<Frame>, turn: Turn, i: nat)
    requires stack != [] && MayTurn(stack[|stack| - 1], turn) && i < |stack| && !stack[i].SwitchFrame? && !stack[i].ReloadFrame?
    ensures Aloof(Turned(stack, turn), i)
  {
    hide Awaits, Returning, Unwind, Resume;
    if i < |Turned(stack, turn)| {
      TurnShapes(stack, turn, i);
    }
  }

  lemma AboveFacts(s: State, t: Tid, i: nat)
    requires Inv(s) && i < |Stack(s, t)| - 1
    ensures var stack := Stack(s, t);
            && (Awaits(stack[i]).Some? || CallsOut(stack[i]))
            && (Awaits(stack[i]).Some? ==> stack[i + 1].PrimFrame?)
  {
    hide CellOk, Locked, Underway, Awaits;
    assert FrameOk(s, t, i);
  }

  /** A `close` above activation `i` was started from inside a callback. */
  lemma NestedCloseAside(s: State, t: Tid, i: nat)
    requires i < |Stack(s, t)| - 1 && Top(s, t).CloseFrame? && Aloof(Stack(s, t), i)
    requires Stack(s, t)[i].SwitchFrame? || Stack(s, t)[i].ReloadFrame?
    requires Awaits(Stack(s, t)[i]).Some? ==> Stack(s, t)[i + 1].PrimFrame?
    ensures Top(s, t).cl.CStart? && InCallback(Stack(s, t)[..|Stack(s, t)| - 1])
  {
    hide Awaits;
    var k := |Stack(s, t)| - 1;
    assert StandsAside(Stack(s, t)[..k], i, Stack(s, t)[k]);
  }

  lemma NextAloof(s: State, a: Action, t: Tid, i: nat)
    requires Inv(s) && Enabled(s, a) && Aloof(Stack(s, t), i)
    requires a.StartOp? && a.t == t ==> StandsAside(Stack(s, t), i, a.f)
    ensures Aloof(Stack(Next(s, a), t), i)
  {
    hide Inv, RunPrim, RunSwitch, RunReload, RunClose, Lendable, Aloof, Starting;
    if a.Run? && a.t == t {
      RunAloof(s, a, i);
    } else if a.StartOp? && a.t == t {
      assert Stack(Next(s, a), t) == Stack(s, t) + [a.f];
      MoreAloof(Stack(s, t), i, a.f);
    } else {
      OtherStacks(s, a, t);
    }
  }

  lemma MoreAloof(stack: seq<Frame>, i: nat, f: Frame)
    requires Aloof(stack, i) && StandsAside(stack, i, f)
    ensures Aloof(stack + [f], i)
  {
    hide StandsAside;
    var more := stack + [f];
    if i < |stack| && (stack[i].SwitchFrame? || stack[i].ReloadFrame?) {
      forall j | FirstNested(more, i) <= j < |more| ensures StandsAside(more[..j], i, more[j]) {
        assert more[..j] == stack[..j];
        assert |stack| == j ==> stack[..j] == stack;
        assert j < |stack| ==> StandsAside(stack[..j], i, stack[j]);
      }
    }
  }

  lemma {:induction false} ElsewhereRuns(s: State, run: seq<Action>, t: Tid, i: nat, strict: bool)
    requires Inv(s) && Protocol.Legal(s, run) && StartsElsewhere(s, run, t, i) && Aloof(Stack(s, t), i)
    ensures Unmeddled(s, run, t, i, strict)
    decreases |run|
  {
    hide Inv, Next, Enabled, Aloof, Meddles, StandsAside;
    if run != [] {
      AloofKeepsOut(s, t, i, strict);
      NextAloof(s, run[0], t, i);
      NextKeeps(s, run[0]);
      ElsewhereRuns(Next(s, run[0]), run[1..], t, i, strict);
    }
  }

  /**
   * A condition a caller can check: if every operation that is started from inside
   * activation `i` names other entries than it does, and `close` is called from there
   * only inside a callback, where it is refused, then nothing meddles with it.
   */
  lemma ElsewhereIsUndisputed(run: seq<Action>, since: seq<Action>, t: Tid, i: nat, strict: bool)
    requires Protocol.Legal(Init, run) && |Stack(After(Init, run), t)| <= i
    requires Protocol.Legal(After(Init, run), since)
    requires StartsElsewhere(After(Init, run), since, t, i)
    ensures Undisputed(run, since, t, i, strict)
  {
    hide Inv, After, Protocol.Legal, Unmeddled, StartsElsewhere;
    Reachable(run);
    ElsewhereRuns(After(Init, run), since, t, i, strict);
  }
}
