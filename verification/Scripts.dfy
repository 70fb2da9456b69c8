/**
 * What a switch, a reload and a close do in any run: which operations they begin, in which
 * order, and what their result has to do with the results of these.
 */
module Scripts {
  import opened Lifecycle
  import opened Plugins
  import opened Names
  import opened Entries
  import opened Protocol
  import opened Invariant
  import opened Calls
  import opened PrimSteps
  import opened AllSteps
  import opened Effects
  import opened Turns
  import opened Handover
  import opened CloseOrder

  // ------------------------------------------------------------------------ logs

  /** The operations that an activation has begun, in order, and the results of those that have returned. */
  datatype Log = Log(begun: seq<(Prim, Name)>, results: seq<Ret>)

  const Blankly: Log := Log([], [])

  /** The activation has not taken any step. */
  predicate Opening(f: Frame) {
    match f
    case PrimFrame(_, _, _) => false
    case SwitchFrame(_, _, _, _, sw) => sw.SLookup?
    case ReloadFrame(_, _, _, _, _, _, _, rl) => rl.RLookup?
    case CloseFrame(_, _, _, cl) => cl.CStart?
  }

  /** What the innermost operation returns when it returns. */
  function ResultOf(f: Frame): Ret
    requires f.PrimFrame?
  {
    if f.stage.Leaving? then f.stage.ret else if f.op.Load? then Ret(false, None) else Raised
  }

  /** What a step adds to the log of activation `i`: it starts, begins an operation, or gets its result. */
  function Logged(s: State, a: Action, t: Tid, i: nat, was: Log): Log
    requires Enabled(s, a)
  {
    var above, above' := |Stack(s, t)|, |Stack(Next(s, a), t)|;
    if !(a.Run? && a.t == t && i < above) then was
    else if above == i + 1 && Opening(Stack(s, t)[i]) then Blankly
    else if above == i + 1 && above' == i + 2 && Top(Next(s, a), t).PrimFrame? then
      was.(begun := was.begun + [(Top(Next(s, a), t).op, Top(Next(s, a), t).name)])
    else if above == i + 2 && above' == i + 1 && Awaits(Stack(s, t)[i]).Some? && Top(s, t).PrimFrame? then
      was.(results := was.results + [ResultOf(Top(s, t))])
    else was
  }

  function LogOf(s: State, run: seq<Action>, t: Tid, i: nat, was: Log): Log
    requires Protocol.Legal(s, run)
    decreases |run|
  {
    if run == [] then was else LogOf(Next(s, run[0]), run[1..], t, i, Logged(s, run[0], t, i, was))
  }

  predicate AllSucceeded(results: seq<Ret>) {
    forall k | 0 <= k < |results| :: Succeeded(results[k])
  }

  /** Everything succeeded but the last, which is `r`. */
  predicate FailedWith(results: seq<Ret>, r: Ret) {
    results != [] && AllSucceeded(results[..|results| - 1]) && results[|results| - 1] == r && !Succeeded(r)
  }

  lemma AllNext(results: seq<Ret>, r: Ret)
    ensures AllSucceeded(results + [r]) <==> AllSucceeded(results) && Succeeded(r)
    ensures (results + [r])[..|results|] == results
  {
    assert forall k | 0 <= k < |results| :: (results + [r])[k] == results[k];
    assert (results + [r])[|results|] == r;
  }

  // ---------------------------------------------------------------------- switch

  /** How a target is made ready: loaded or not, then configured or not. */
  predicate Readies(begun: seq<(Prim, Name)>, b: Name) {
    || begun == []
    || begun == [(Load(None), b)]
    || begun == [(Configure, b)]
    || begun == [(Load(None), b), (Configure, b)]
  }

  /** The whole script of a switch that activates its target with `x`. */
  function Exchange(f: Frame, x: Option<Value>): seq<(Prim, Name)>
    requires f.SwitchFrame?
  {
    [(Deactivate(f.timed), f.source), (Activate(x), f.target)]
  }

  /** The log of a switch, stage by stage; `p` is how its target was made ready. */
  predicate SwitchScript(f: Frame, log: Log, p: seq<(Prim, Name)>)
    requires f.SwitchFrame?
  {
    var done := |log.results| == |log.begun| && AllSucceeded(log.results);
    var one := |log.results| + 1 == |log.begun| && AllSucceeded(log.results);
    Readies(p, f.target) &&
    match f.sw
    case SLookup => true
    case SFirst => log == Blankly
    case SSecond => log == Blankly
    case SGuard => log == Blankly
    case SLoading => log.begun == p == [(Load(None), f.target)] && one
    case SConfigure => log.begun == p && (p == [] || p == [(Load(None), f.target)]) && done
    case SConfiguring => log.begun == p && p != [] && p[|p| - 1] == (Configure, f.target) && one
    case SCompare => log.begun == p && done
    case SStopping => log.begun == p + Exchange(f, None)[..1] && one
    case SStart(x) => log.begun == p + Exchange(f, None)[..1] && done && x == log.results[|p|].state
    case SStarting(x) =>
      log.begun == p + Exchange(f, if f.transfer then x else None) && one && x == log.results[|p|].state
    case SLeaving(r, reach) => (
      match reach
      case Early => log.begun == p && !Succeeded(r)
      case Compared => log.begun == p + Exchange(f, None)[..1] && FailedWith(log.results, r)
      case Stopped =>
        && |log.results| == |p| + 2 && AllSucceeded(log.results[..|p| + 1])
        && log.begun == p + Exchange(f, if f.transfer then log.results[|p|].state else None)
        && log.results[|p| + 1] == r)
  }

  ghost predicate SwitchTells(f: Frame, log: Log)
    requires f.SwitchFrame?
  {
    exists p :: SwitchScript(f, log, p)
  }

  /** What a switch may decide without waiting for anything. */
  predicate MayDecide(sw: SwitchStage, sw': SwitchStage) {
    match sw
    case SGuard => sw'.SLoading? || sw'.SConfigure? || (sw'.SLeaving? && sw'.reach.Early? && !Succeeded(sw'.ret))
    case SConfigure => sw'.SConfiguring? || sw'.SCompare?
    case SCompare => sw'.SStopping? || (sw'.SLeaving? && sw'.reach.Early? && !Succeeded(sw'.ret))
    case SStart(x) => sw' == SStarting(x)
    case _ => false
  }

  lemma DecidedMay(s: State, t: Tid, f: Frame)
    requires f.SwitchFrame? && Decides(f.sw) && f.source in s.cells && f.target in s.cells
    ensures MayDecide(f.sw, Decided(s, t, f))
  {
    hide SameType, Mismatch;
  }

  /** The log after such a decision, which begins what the switch then awaits. */
  function Begins(log: Log, g: Frame): Log {
    if Awaits(g).Some? then log.(begun := log.begun + [Awaits(g).value]) else log
  }

  /** A switch before its stop has only made its target ready. */
  lemma SwitchPrepares(f: Frame, g: Frame, log: Log)
    requires f.SwitchFrame? && g.SwitchFrame? && g == f.(sw := g.sw) && MayDecide(f.sw, g.sw) && SwitchTells(f, log)
    requires !f.sw.SStart?
    ensures SwitchTells(g, Begins(log, g))
  {
    hide AllSucceeded, Succeeded;
    var p :| SwitchScript(f, log, p);
    assert AllSucceeded([]) by { NoneFailed(); }
    if g.sw.SStopping? {
      assert Exchange(g, None)[..1] == [Awaits(g).value];
      assert SwitchScript(g, Begins(log, g), log.begun);
    } else {
      assert SwitchScript(g, Begins(log, g), Begins(log, g).begun);
    }
  }

  lemma SwitchStarts(f: Frame, g: Frame, log: Log)
    requires f.SwitchFrame? && g.SwitchFrame? && g == f.(sw := g.sw) && f.sw.SStart? && MayDecide(f.sw, g.sw) && SwitchTells(f, log)
    ensures SwitchTells(g, Begins(log, g))
  {
    hide AllSucceeded, Succeeded;
    var p :| SwitchScript(f, log, p);
    var x := f.sw.exported;
    assert p + Exchange(f, None)[..1] + [Awaits(g).value] == p + Exchange(g, if f.transfer then x else None);
    assert SwitchScript(g, Begins(log, g), p);
  }

  lemma SwitchAdvances(f: Frame, g: Frame, log: Log)
    requires f.SwitchFrame? && g.SwitchFrame? && g == f.(sw := g.sw) && MayDecide(f.sw, g.sw) && SwitchTells(f, log)
    ensures SwitchTells(g, Begins(log, g))
  {
    hide SwitchTells;
    if f.sw.SStart? {
      SwitchStarts(f, g, log);
    } else {
      SwitchPrepares(f, g, log);
    }
  }

  lemma NoneFailed()
    ensures AllSucceeded([])
  {
  }

  lemma SwitchGetsResult(f: Frame, log: Log, r: Ret)
    requires f.SwitchFrame? && Awaits(f).Some? && SwitchTells(f, log)
    ensures Resume(f, r).SwitchFrame? && SwitchTells(Resume(f, r), log.(results := log.results + [r]))
  {
    var p :| SwitchScript(f, log, p);
    hide AllSucceeded, Succeeded, SwitchScript;
    if f.sw.SLoading? || f.sw.SConfiguring? {
      ReadyingGets(f, log, r, p);
    } else if f.sw.SStopping? {
      StoppingGets(f, log, r, p);
    } else {
      StartingGets(f, log, r, p);
    }
    assert SwitchScript(Resume(f, r), log.(results := log.results + [r]), p);
  }

  lemma ReadyingGets(f: Frame, log: Log, r: Ret, p: seq<(Prim, Name)>)
    requires f.SwitchFrame? && (f.sw.SLoading? || f.sw.SConfiguring?) && SwitchScript(f, log, p)
    ensures Resume(f, r).SwitchFrame? && SwitchScript(Resume(f, r), log.(results := log.results + [r]), p)
  {
    hide AllSucceeded, Succeeded;
    AllNext(log.results, r);
  }

  lemma StoppingGets(f: Frame, log: Log, r: Ret, p: seq<(Prim, Name)>)
    requires f.SwitchFrame? && f.sw.SStopping? && SwitchScript(f, log, p)
    ensures Resume(f, r).SwitchFrame? && SwitchScript(Resume(f, r), log.(results := log.results + [r]), p)
  {
    hide AllSucceeded, Succeeded;
    AllNext(log.results, r);
  }

  lemma StartingGets(f: Frame, log: Log, r: Ret, p: seq<(Prim, Name)>)
    requires f.SwitchFrame? && f.sw.SStarting? && SwitchScript(f, log, p)
    ensures Resume(f, r).SwitchFrame? && SwitchScript(Resume(f, r), log.(results := log.results + [r]), p)
  {
    hide AllSucceeded, Succeeded;
    AllNext(log.results, r);
    assert (log.results + [r])[|p|] == log.results[|p|] && (log.results + [r])[|p| + 1] == r;
    assert (log.results + [r])[..|p| + 1] == log.results;
  }

  // ---------------------------------------------------------------------- reload

  /** The whole script of a reload; an entry that was active is stopped first and activated last. */
  function ReloadPlan(f: Frame): seq<(Prim, Name)>
    requires f.ReloadFrame?
  {
    (if f.wasActive then [(Deactivate(f.timed), f.name)] else [])
    + [(Unload(f.timed), f.name), (Load(None), f.name), (Configure, f.name)]
    + (if f.wasActive then [(Activate(f.snapshot), f.name)] else [])
  }

  /** How many operations the reload has begun in a stage in which it does not leave. */
  function BegunBy(f: Frame): nat
    requires f.ReloadFrame?
  {
    var d := if f.wasActive then 1 else 0;
    match f.rl
    case RStopping => 1
    case RUnload => d
    case RUnloading => d + 1
    case RRefreshing => d + 1
    case RLoad => d + 1
    case RLoading => d + 2
    case RConfigure => d + 2
    case RConfiguring => d + 3
    case RActivate => d + 3
    case RActivating => d + 4
    case _ => 0
  }

  /** The snapshot is what the stop returned iff the reload transfers state. */
  predicate Snapped(f: Frame, log: Log)
    requires f.ReloadFrame?
  {
    f.snapshot == if f.wasActive && f.transfer && log.results != [] && log.results[0].Ret? then log.results[0].state else None
  }

  predicate ReloadTells(f: Frame, log: Log)
    requires f.ReloadFrame?
  {
    match f.rl
    case RLookup => true
    case RAcquire => log == Blankly
    case RStart => log == Blankly
    case RLeaving(r) =>
      && |log.begun| == |log.results| && log.begun <= ReloadPlan(f)
      && (f.wasActive && |log.results| > 1 ==> Snapped(f, log))
      && (if Succeeded(r) then log.begun == ReloadPlan(f) && AllSucceeded(log.results) && Snapped(f, log)
          else
            || FailedWith(log.results, r)
            || (f.refresh && AllSucceeded(log.results) && |log.begun| == (if f.wasActive then 2 else 1)))
    case _ =>
      && (f.rl.RStopping? || f.rl.RActivate? || f.rl.RActivating? ==> f.wasActive)
      && (f.rl.RRefreshing? ==> f.refresh)
      && |log.begun| == BegunBy(f) && log.begun <= ReloadPlan(f)
      && |log.results| == BegunBy(f) - (if Awaits(f).Some? then 1 else 0)
      && AllSucceeded(log.results) && Snapped(f, log)
  }

  lemma PlanLength(f: Frame)
    requires f.ReloadFrame?
    ensures |ReloadPlan(f)| == if f.wasActive then 5 else 3
  {
  }

  /** What a reload decides by itself, once it has started. */
  lemma ReloadAdvances(f: Frame, e: Entry, log: Log)
    requires f.ReloadFrame? && Continues(f.rl) && ReloadTells(f, log)
    ensures var g := Continued(f, e);
            g.ReloadFrame? && ReloadTells(g, Begins(log, g))
  {
    hide AllSucceeded, ReloadTells;
    if f.rl.RStart? {
      ReloadStarts(f, e, log);
    } else {
      ReloadBegins(f, e, log);
    }
  }

  lemma ReloadStarts(f: Frame, e: Entry, log: Log)
    requires f.ReloadFrame? && f.rl.RStart? && ReloadTells(f, log)
    ensures var g := Continued(f, e);
            g.ReloadFrame? && ReloadTells(g, Begins(log, g))
  {
    hide AllSucceeded;
    assert AllSucceeded([]) by { NoneFailed(); }
  }

  lemma ReloadBegins(f: Frame, e: Entry, log: Log)
    requires f.ReloadFrame? && Continues(f.rl) && !f.rl.RStart? && ReloadTells(f, log)
    ensures var g := Continued(f, e);
            g.ReloadFrame? && ReloadTells(g, Begins(log, g))
  {
    hide AllSucceeded, ReloadPlan;
    var g := Continued(f, e);
    PlanLength(f);
    PlanNext(f, e, |log.begun|);
  }

  lemma PlanNext(f: Frame, e: Entry, k: nat)
    requires f.ReloadFrame? && Continues(f.rl) && !f.rl.RStart? && k == BegunBy(f) && (f.rl.RActivate? ==> f.wasActive)
    ensures var g := Continued(f, e);
            && ReloadPlan(g) == ReloadPlan(f) && k < |ReloadPlan(f)| && Awaits(g) == Some(ReloadPlan(f)[k])
  {
  }

  lemma ReloadGetsResult(f: Frame, log: Log, r: Ret)
    requires f.ReloadFrame? && Awaits(f).Some? && ReloadTells(f, log)
    ensures Resume(f, r).ReloadFrame? && ReloadTells(Resume(f, r), log.(results := log.results + [r]))
  {
    hide ReloadTells, AllSucceeded, Succeeded;
    if Succeeded(r) {
      ReloadGetsSuccess(f, log, r);
    } else {
      ReloadGetsFailure(f, log, r);
    }
  }

  lemma ReloadGetsSuccess(f: Frame, log: Log, r: Ret)
    requires f.ReloadFrame? && Awaits(f).Some? && ReloadTells(f, log) && Succeeded(r)
    ensures Resume(f, r).ReloadFrame? && ReloadTells(Resume(f, r), log.(results := log.results + [r]))
  {
    hide AllSucceeded, ReloadPlan;
    AllNext(log.results, r);
    PlanLength(f);
    ResumeKeepsPlan(f, r);
    assert f.rl.RStopping? ==> (log.results + [r])[0] == r;
    assert !f.rl.RStopping? && log.results != [] ==> (log.results + [r])[0] == log.results[0];
  }

  lemma ReloadGetsFailure(f: Frame, log: Log, r: Ret)
    requires f.ReloadFrame? && Awaits(f).Some? && ReloadTells(f, log) && !Succeeded(r)
    ensures Resume(f, r).ReloadFrame? && ReloadTells(Resume(f, r), log.(results := log.results + [r]))
  {
    hide AllSucceeded, ReloadPlan, Resume, Succeeded;
    AllNext(log.results, r);
    PlanLength(f);
    StoppedShape(f, r);
    SamePlan(f, RLeaving(r));
    assert !f.rl.RStopping? && log.results != [] ==> (log.results + [r])[0] == log.results[0];
  }

  lemma SamePlan(f: Frame, rl: ReloadStage)
    requires f.ReloadFrame?
    ensures ReloadPlan(f.(rl := rl)) == ReloadPlan(f)
  {
  }

  /** Only the stop sets the snapshot, and nothing but the last operation depends on it. */
  lemma ResumeKeepsPlan(f: Frame, r: Ret)
    requires f.ReloadFrame? && Awaits(f).Some?
    ensures Resume(f, r).ReloadFrame?
    ensures |ReloadPlan(Resume(f, r))| == |ReloadPlan(f)|
    ensures forall k | 0 <= k < |ReloadPlan(f)| && (k < 4 || !f.rl.RStopping?) :: ReloadPlan(Resume(f, r))[k] == ReloadPlan(f)[k]
  {
  }

  // ----------------------------------------------------------------------- close

  function Unloads(timed: bool, names: seq<Name>): seq<(Prim, Name)> {
    seq(|names|, k requires 0 <= k < |names| => (Unload(timed), names[k]))
  }

  /** What the close has begun and what it still has to do are all entries, the newest first. */
  predicate CloseTells(f: Frame, log: Log, order: seq<Name>)
    requires f.CloseFrame?
  {
    match f.cl
    case CStart => true
    case CNext =>
      && log.begun + Unloads(f.timed, f.todo) == Unloads(f.timed, Reverse(order))
      && |log.results| == |log.begun| && (f.ok <==> AllSucceeded(log.results))
    case CUnloading =>
      && f.todo != [] && log.begun + Unloads(f.timed, f.todo[1..]) == Unloads(f.timed, Reverse(order))
      && log.begun != [] && log.begun[|log.begun| - 1] == (Unload(f.timed), f.todo[0])
      && |log.results| + 1 == |log.begun| && (f.ok <==> AllSucceeded(log.results))
  }

  // ------------------------------------------------------------------- every step

  ghost predicate Tells(s: State, t: Tid, i: nat, log: Log) {
    i < |Stack(s, t)| ==>
      match Stack(s, t)[i]
      case PrimFrame(_, _, _) => true
      case SwitchFrame(_, _, _, _, _) => SwitchTells(Stack(s, t)[i], log)
      case ReloadFrame(_, _, _, _, _, _, _, _) => ReloadTells(Stack(s, t)[i], log)
      case CloseFrame(_, _, _, _) => CloseTells(Stack(s, t)[i], log, s.order) && (!Stack(s, t)[i].cl.CStart? ==> s.closing)
  }

  /** Only one activation, and nothing that the log is about, has changed. */
  lemma TellsAnyway(s: State, s': State, t: Tid, i: nat, log: Log)
    requires Tells(s, t, i, log) && i < |Stack(s, t)| && i < |Stack(s', t)| && Stack(s', t)[i] == Stack(s, t)[i]
    requires s.closing ==> s'.closing && s'.order == s.order
    ensures Tells(s', t, i, log)
  {
  }

  /** Where activation `i` appears, or is an operation, nothing is told. */
  lemma OpeningTells(s: State, t: Tid, i: nat, log: Log)
    requires i < |Stack(s, t)| ==> Stack(s, t)[i].PrimFrame? || Opening(Stack(s, t)[i])
    ensures Tells(s, t, i, log)
  {
    if i < |Stack(s, t)| && Stack(s, t)[i].SwitchFrame? {
      assert SwitchScript(Stack(s, t)[i], log, []);
    }
  }

  /** An activation appears only as one that has not taken any step, or as an operation. */
  lemma Appears(s: State, a: Action, t: Tid, i: nat)
    requires Inv(s) && Enabled(s, a) && (i < |Stack(s, t)| ==> Stack(s, t)[i].PrimFrame?)
    ensures i < |Stack(Next(s, a), t)| ==>
              Stack(Next(s, a), t)[i].PrimFrame? || Opening(Stack(Next(s, a), t)[i])
  {
    hide Inv, RunPrim, RunSwitch, RunReload, RunClose, Calm, Lendable, Awaits, Returning;
    if a.Run? && a.t == t {
      HasTop(s, a);
      var turn := RunTurns(s, t, a.choice);
      if i < |Stack(Next(s, a), t)| {
        PrimTurnsOnly(Stack(s, t), turn, i);
      }
    } else if a.StartOp? && a.t == t {
      assert Stack(Next(s, a), t) == Stack(s, t) + [a.f];
    } else {
      OtherStacks(s, a, t);
    }
  }

  lemma PrimTurnsOnly(stack: seq<Frame>, turn: Turn, i: nat)
    requires stack != [] && MayTurn(stack[|stack| - 1], turn) && i < |Turned(stack, turn)|
    requires i < |stack| ==> stack[i].PrimFrame?
    ensures Turned(stack, turn)[i].PrimFrame?
  {
    hide Unwind, Resume, Awaits, Returning;
    if turn.GoBack? {
      UnwindLength(stack, turn.r);
      UnwindAt(stack, turn.r, i);
      ResumeHolds(stack[i], turn.r, "");
    }
  }

  // ---- the activation's own steps

  lemma ReturnsTell(s: State, s': State, t: Tid, i: nat, r: Ret, log: Log)
    requires |Stack(s, t)| == i + 1 && s'.stacks == Return(s, t, r).stacks
    ensures Tells(s', t, i, log)
  {
    hide Return, Unwind;
    ReturnStacks(s, t, r, t);
    UnwindLength(Stack(s, t), r);
    assert Stack(s', t) == Stack(Return(s, t, r), t);
  }

  /** The innermost activation has become `g`, and what it then awaits has begun. */
  lemma GoneOn(s: State, t: Tid, i: nat, c: Choice, g: Frame, was: Log)
    requires CanRun(s, t, c) && |Stack(s, t)| == i + 1 && !Opening(Stack(s, t)[i])
    requires Next(s, Run(t, c)).stacks == (if Awaits(g).Some? then Await(s, t, g) else SetTop(s, t, g)).stacks
    ensures var s' := Next(s, Run(t, c));
            && i < |Stack(s', t)| && Stack(s', t)[i] == g
            && Logged(s, Run(t, c), t, i, was) == Begins(was, g)
  {
    hide Next, CanRun, Await, SetTop;
    LoneTop(s, t);
    var s' := Next(s, Run(t, c));
    assert Stack(s', t) == Stack(if Awaits(g).Some? then Await(s, t, g) else SetTop(s, t, g), t);
  }

  lemma SwitchOwnStep(s: State, t: Tid, i: nat, c: Choice, was: Log)
    requires Inv(s) && CanRun(s, t, c) && Tells(s, t, i, was) && |Stack(s, t)| == i + 1 && Top(s, t).SwitchFrame?
    ensures Tells(Next(s, Run(t, c)), t, i, Logged(s, Run(t, c), t, i, was))
  {
    hide Inv, RunSwitch, Decided, SwitchTells, Logged, CanRun, Begins;
    var f := Top(s, t);
    TopOk(s, t);
    TopLocked(s, t);
    if Decides(f.sw) {
      SwitchForm(s, t);
      DecidedMay(s, t, f);
      var g := f.(sw := Decided(s, t, f));
      GoneOn(s, t, i, c, g, was);
      SwitchAdvances(f, g, was);
    } else {
      SwitchEntersLog(s, t, i, c, was);
    }
  }

  lemma SwitchEntersLog(s: State, t: Tid, i: nat, c: Choice, was: Log)
    requires CanRun(s, t, c) && Tells(s, t, i, was) && |Stack(s, t)| == i + 1 && Top(s, t).SwitchFrame?
    requires !Decides(Top(s, t).sw) && Awaits(Top(s, t)).None? && Locked(s.cells, t, Top(s, t))
    ensures Tells(Next(s, Run(t, c)), t, i, Logged(s, Run(t, c), t, i, was))
  {
    hide Next, CanRun, Tells, Logged, Before;
    match Top(s, t).sw {
      case SLookup => SwitchFound(s, t, i, c, was);
      case SFirst => SwitchLocked(s, t, i, c, was);
      case SSecond => SwitchLocked(s, t, i, c, was);
      case SLeaving(r, _) => SwitchLeaves(s, t, i, c, was);
      case _ =>
    }
  }

  lemma SwitchFound(s: State, t: Tid, i: nat, c: Choice, was: Log)
    requires CanRun(s, t, c) && |Stack(s, t)| == i + 1 && Top(s, t).SwitchFrame? && Top(s, t).sw.SLookup?
    ensures Tells(Next(s, Run(t, c)), t, i, Logged(s, Run(t, c), t, i, was))
  {
    hide Return, Tells, SetTop, Logged;
    var f, s' := Top(s, t), Next(s, Run(t, c));
    var log := Logged(s, Run(t, c), t, i, was);
    if f.source == f.target {
      ReturnsTell(s, s', t, i, Ret(false, None), log);
    } else if f.source !in s.cells || f.target !in s.cells {
      ReturnsTell(s, s', t, i, Raised, log);
    } else {
      MovedSwitch(s, s, t, i, f.(sw := SFirst));
      StillEmpty(s, t, i, c, was);
    }
  }

  lemma SwitchLocked(s: State, t: Tid, i: nat, c: Choice, was: Log)
    requires CanRun(s, t, c) && Tells(s, t, i, was) && |Stack(s, t)| == i + 1 && Top(s, t).SwitchFrame?
    requires (Top(s, t).sw.SFirst? || Top(s, t).sw.SSecond?) && Locked(s.cells, t, Top(s, t))
    ensures Tells(Next(s, Run(t, c)), t, i, Logged(s, Run(t, c), t, i, was))
  {
    hide Before, Lock, Tells, SetTop, Logged;
    var f := Top(s, t);
    var n := if f.sw.SFirst? then FirstLock(f.source, f.target) else SecondLock(f.source, f.target);
    LockCalm(s, t, n);
    EmptyLog(s, t, i, was);
    MovedSwitch(s, Lock(s, t, n), t, i, f.(sw := if f.sw.SFirst? then SSecond else SGuard));
    StillEmpty(s, t, i, c, was);
  }

  lemma SwitchLeaves(s: State, t: Tid, i: nat, c: Choice, was: Log)
    requires CanRun(s, t, c) && |Stack(s, t)| == i + 1 && Top(s, t).SwitchFrame? && Top(s, t).sw.SLeaving?
    requires Top(s, t).source in s.cells && Top(s, t).target in s.cells
    ensures Tells(Next(s, Run(t, c)), t, i, Logged(s, Run(t, c), t, i, was))
  {
    hide Return, Tells, Logged;
    ReturnsTell(s, Next(s, Run(t, c)), t, i, Top(s, t).sw.ret, Logged(s, Run(t, c), t, i, was));
  }

  lemma EmptyLog(s: State, t: Tid, i: nat, was: Log)
    requires Tells(s, t, i, was) && |Stack(s, t)| == i + 1 && Top(s, t).SwitchFrame? && (Top(s, t).sw.SFirst? || Top(s, t).sw.SSecond?)
    ensures was == Blankly
  {
  }

  lemma StillEmpty(s: State, t: Tid, i: nat, c: Choice, was: Log)
    requires CanRun(s, t, c) && |Stack(s, t)| == i + 1 && |Stack(Next(s, Run(t, c)), t)| == i + 1
    ensures Logged(s, Run(t, c), t, i, was) == if Opening(Top(s, t)) then Blankly else was
  {
    hide Next, CanRun;
  }

  lemma MovedSwitch(s: State, mid: State, t: Tid, i: nat, g: Frame)
    requires |Stack(s, t)| == i + 1 && Stack(mid, t) == Stack(s, t)
    requires g.SwitchFrame? && (g.sw.SFirst? || g.sw.SSecond? || g.sw.SGuard?)
    ensures Tells(SetTop(mid, t, g), t, i, Blankly) && |Stack(SetTop(mid, t, g), t)| == i + 1
  {
    hide SetTop;
    LoneTop(mid, t);
    assert SwitchScript(g, Blankly, []);
  }

  lemma ReloadOwnStep(s: State, t: Tid, i: nat, c: Choice, was: Log)
    requires Inv(s) && CanRun(s, t, c) && Tells(s, t, i, was) && |Stack(s, t)| == i + 1 && Top(s, t).ReloadFrame?
    ensures Tells(Next(s, Run(t, c)), t, i, Logged(s, Run(t, c), t, i, was))
  {
    hide Inv, RunReload, Continued, ReloadTells, Logged, CanRun, Begins;
    var f := Top(s, t);
    TopOk(s, t);
    TopLocked(s, t);
    if Continues(f.rl) {
      var e := s.cells[f.name].e;
      ReloadForm(s, t, c);
      GoneOn(s, t, i, c, Continued(f, e), was);
      ReloadAdvances(f, e, was);
    } else {
      ReloadEntersLog(s, t, i, c, was);
    }
  }

  lemma ReloadEntersLog(s: State, t: Tid, i: nat, c: Choice, was: Log)
    requires CanRun(s, t, c) && Tells(s, t, i, was) && |Stack(s, t)| == i + 1 && Top(s, t).ReloadFrame?
    requires !Continues(Top(s, t).rl) && Awaits(Top(s, t)).None? && Locked(s.cells, t, Top(s, t))
    ensures Tells(Next(s, Run(t, c)), t, i, Logged(s, Run(t, c), t, i, was))
  {
    hide Next, CanRun, Tells, Logged;
    ReloadTold(s, t, i, was);
    match Top(s, t).rl {
      case RLookup => ReloadFound(s, t, i, c, was);
      case RAcquire => ReloadLocked(s, t, i, c, was);
      case RRefreshing => ReloadRefreshed(s, t, i, c, was);
      case RLeaving(r) => ReloadLeaves(s, t, i, c, was);
      case _ =>
    }
  }

  lemma ReloadFound(s: State, t: Tid, i: nat, c: Choice, was: Log)
    requires CanRun(s, t, c) && |Stack(s, t)| == i + 1 && Top(s, t).ReloadFrame? && Top(s, t).rl.RLookup?
    ensures Tells(Next(s, Run(t, c)), t, i, Logged(s, Run(t, c), t, i, was))
  {
    hide Return, SetTop, Tells, Logged;
    var f := Top(s, t);
    if f.name !in s.cells {
      ReturnsTell(s, Next(s, Run(t, c)), t, i, Raised, Logged(s, Run(t, c), t, i, was));
    } else {
      MovedReload(s, s, t, i, f.(rl := RAcquire), Blankly);
      StillEmpty(s, t, i, c, was);
    }
  }

  lemma ReloadLocked(s: State, t: Tid, i: nat, c: Choice, was: Log)
    requires CanRun(s, t, c) && |Stack(s, t)| == i + 1 && Top(s, t).ReloadFrame? && Top(s, t).rl.RAcquire?
    requires Top(s, t).name in s.cells && ReloadTells(Top(s, t), was)
    ensures Tells(Next(s, Run(t, c)), t, i, Logged(s, Run(t, c), t, i, was))
  {
    hide Lock, SetTop, Tells, Logged;
    var f := Top(s, t);
    LockCalm(s, t, f.name);
    MovedReload(s, Lock(s, t, f.name), t, i, f.(rl := RStart), was);
    StillEmpty(s, t, i, c, was);
  }

  lemma ReloadRefreshed(s: State, t: Tid, i: nat, c: Choice, was: Log)
    requires CanRun(s, t, c) && |Stack(s, t)| == i + 1 && Top(s, t).ReloadFrame? && Top(s, t).rl.RRefreshing?
    requires Top(s, t).name in s.cells && ReloadTells(Top(s, t), was)
    ensures Tells(Next(s, Run(t, c)), t, i, Logged(s, Run(t, c), t, i, was))
  {
    hide SetTop, RefreshFailed, Tells, Logged, ReloadTells;
    var f := Top(s, t);
    RefreshCalm(s, t, f.name);
    RefreshedTells(f, was);
    var g := f.(rl := if c.refreshed then RLoad else RLeaving(Ret(false, None)));
    MovedReload(s, if c.refreshed then s else RefreshFailed(s, f.name), t, i, g, was);
    StillEmpty(s, t, i, c, was);
  }

  lemma ReloadLeaves(s: State, t: Tid, i: nat, c: Choice, was: Log)
    requires CanRun(s, t, c) && |Stack(s, t)| == i + 1 && Top(s, t).ReloadFrame? && Top(s, t).rl.RLeaving?
    requires Top(s, t).name in s.cells
    ensures Tells(Next(s, Run(t, c)), t, i, Logged(s, Run(t, c), t, i, was))
  {
    hide Return, Tells, Logged;
    ReturnsTell(s, Next(s, Run(t, c)), t, i, Top(s, t).rl.ret, Logged(s, Run(t, c), t, i, was));
  }

  lemma ReloadTold(s: State, t: Tid, i: nat, was: Log)
    requires Tells(s, t, i, was) && |Stack(s, t)| == i + 1 && Top(s, t).ReloadFrame?
    ensures ReloadTells(Top(s, t), was)
  {
  }

  lemma RefreshedTells(f: Frame, log: Log)
    requires f.ReloadFrame? && f.rl.RRefreshing? && ReloadTells(f, log)
    ensures ReloadTells(f.(rl := RLoad), log) && ReloadTells(f.(rl := RLeaving(Ret(false, None))), log)
  {
  }

  lemma MovedReload(s: State, mid: State, t: Tid, i: nat, g: Frame, log: Log)
    requires |Stack(s, t)| == i + 1 && Stack(mid, t) == Stack(s, t) && g.ReloadFrame? && ReloadTells(g, log)
    ensures Tells(SetTop(mid, t, g), t, i, log) && |Stack(SetTop(mid, t, g), t)| == i + 1
  {
    hide SetTop, ReloadTells;
    LoneTop(mid, t);
  }

  lemma CloseOwnStep(s: State, t: Tid, i: nat, c: Choice, was: Log)
    requires Inv(s) && CanRun(s, t, c) && Tells(s, t, i, was) && |Stack(s, t)| == i + 1 && Top(s, t).CloseFrame?
    ensures Tells(Next(s, Run(t, c)), t, i, Logged(s, Run(t, c), t, i, was))
  {
    hide Inv, RunClose, CloseTells, Logged, CanRun, Begins, Tells;
    var f := Top(s, t);
    TopOk(s, t);
    match f.cl {
      case CStart => CloseStarts(s, t, i, c, was);
      case CNext =>
        if f.todo != [] {
          CloseGoesOn(s, t, i, c, was);
        } else {
          CloseEnds(s, t, i, c, was);
        }
      case CUnloading =>
    }
  }

  lemma CloseStarts(s: State, t: Tid, i: nat, c: Choice, was: Log)
    requires CanRun(s, t, c) && |Stack(s, t)| == i + 1 && Top(s, t).CloseFrame? && Top(s, t).cl.CStart?
    ensures Tells(Next(s, Run(t, c)), t, i, Logged(s, Run(t, c), t, i, was))
  {
    hide Return, InsideManagedCode, Reverse, AllSucceeded;
    if InsideManagedCode(s, t) {
      ReturnsTell(s, Next(s, Run(t, c)), t, i, Ret(false, None), Logged(s, Run(t, c), t, i, was));
    } else {
      var g := Top(s, t).(todo := Reverse(s.order), ok := true, cl := CNext);
      assert AllSucceeded([]) by { NoneFailed(); }
      LoneTop(s.(closing := true), t);
      CloseKeepsOrder(s, t);
      assert Next(s, Run(t, c)) == SetTop(s.(closing := true), t, g);
      assert Stack(Next(s, Run(t, c)), t)[i] == g;
      assert [] + Unloads(g.timed, Reverse(s.order)) == Unloads(g.timed, Reverse(s.order));
      StillEmpty(s, t, i, c, was);
    }
  }

  lemma CloseGoesOn(s: State, t: Tid, i: nat, c: Choice, was: Log)
    requires CanRun(s, t, c) && Tells(s, t, i, was) && |Stack(s, t)| == i + 1
    requires Top(s, t).CloseFrame? && Top(s, t).cl.CNext? && Top(s, t).todo != []
    ensures Tells(Next(s, Run(t, c)), t, i, Logged(s, Run(t, c), t, i, was))
  {
    hide Return, Reverse, SetTop, Await, Logged, AllSucceeded;
    var f := Top(s, t);
    var g := f.(cl := CUnloading);
    GoneOn(s, t, i, c, g, was);
    CloseKeepsOrder(s, t);
    FirstUnload(f.timed, f.todo);
    assert (was.begun + [(Unload(f.timed), f.todo[0])]) + Unloads(f.timed, f.todo[1..]) == was.begun + Unloads(f.timed, f.todo);
  }

  lemma FirstUnload(timed: bool, names: seq<Name>)
    requires names != []
    ensures Unloads(timed, names) == [(Unload(timed), names[0])] + Unloads(timed, names[1..])
  {
  }

  lemma CloseEnds(s: State, t: Tid, i: nat, c: Choice, was: Log)
    requires CanRun(s, t, c) && |Stack(s, t)| == i + 1 && Top(s, t).CloseFrame? && Top(s, t).cl.CNext? && Top(s, t).todo == []
    ensures Tells(Next(s, Run(t, c)), t, i, Logged(s, Run(t, c), t, i, was))
  {
    hide Return, Tells, Logged;
    ReturnsTell(s, Next(s, Run(t, c)), t, i, Ret(Top(s, t).ok, None), Logged(s, Run(t, c), t, i, was));
  }

  // ---- steps of the operation that the activation awaits

  /** What awaits an operation that returns gets exactly its result. */
  lemma AwaitedReturns(s: State, t: Tid, i: nat, c: Choice) returns (back: bool)
    requires Inv(s) && CanRun(s, t, c) && |Stack(s, t)| == i + 2 && Top(s, t).PrimFrame?
    ensures var s' := Next(s, Run(t, c));
            && i < |Stack(s', t)|
            && (!back ==> |Stack(s', t)| == i + 2 && Stack(s', t)[i] == Stack(s, t)[i])
            && (back ==> |Stack(s', t)| == i + 1 && Stack(s', t)[i] == Resume(Stack(s, t)[i], ResultOf(Top(s, t))))
  {
    hide Inv, CanRun, Next, Returning, Resume;
    if Top(s, t).stage.Lookup? {
      back := LookupReturns(s, t, i, c);
    } else {
      var r := AwaitedMoves(s, t, i, c);
      back := r.Some?;
      if back {
        ReturningLeaves(Top(s, t), r.value);
      }
    }
  }

  lemma ReturningLeaves(f: Frame, r: Ret)
    requires f.PrimFrame? && !f.stage.Lookup? && Returning(f, r)
    ensures f.stage.Leaving? && r == ResultOf(f)
  {
  }

  lemma LookupReturns(s: State, t: Tid, i: nat, c: Choice) returns (back: bool)
    requires CanRun(s, t, c) && |Stack(s, t)| == i + 2 && Top(s, t).PrimFrame? && Top(s, t).stage.Lookup?
    ensures var s' := Next(s, Run(t, c));
            && i < |Stack(s', t)|
            && (!back ==> |Stack(s', t)| == i + 2 && Stack(s', t)[i] == Stack(s, t)[i])
            && (back ==> |Stack(s', t)| == i + 1 && Stack(s', t)[i] == Resume(Stack(s, t)[i], ResultOf(Top(s, t))))
  {
    hide Return, Unwind, Resume, Blank;
    var f := Top(s, t);
    var r := ResultOf(f);
    ReturnStacks(s, t, r, t);
    UnwindLength(Stack(s, t), r);
    UnwindAt(Stack(s, t), r, i);
    back := if f.op.Load? then Blank(f.name) || s.closing else f.name !in s.cells;
  }

  lemma AwaitedStep(s: State, t: Tid, i: nat, c: Choice, was: Log)
    requires Inv(s) && CanRun(s, t, c) && Tells(s, t, i, was) && |Stack(s, t)| == i + 2 && Awaits(Stack(s, t)[i]).Some?
    ensures Tells(Next(s, Run(t, c)), t, i, Logged(s, Run(t, c), t, i, was))
  {
    hide Inv, Next, CanRun, Tells, Logged, Resume;
    AwaitedShape(s, t, i);
    var back := AwaitedReturns(s, t, i, c);
    AwaitedLog(s, t, i, c, was);
    if s.closing {
      ClosingStays(s, Run(t, c));
    }
    if back {
      ResultTells(s, Next(s, Run(t, c)), t, i, ResultOf(Top(s, t)), was);
    } else {
      TellsAnyway(s, Next(s, Run(t, c)), t, i, was);
    }
  }

  lemma AwaitedLog(s: State, t: Tid, i: nat, c: Choice, was: Log)
    requires CanRun(s, t, c) && |Stack(s, t)| == i + 2 && Top(s, t).PrimFrame? && Awaits(Stack(s, t)[i]).Some?
    ensures Logged(s, Run(t, c), t, i, was)
         == if |Stack(Next(s, Run(t, c)), t)| == i + 1 then was.(results := was.results + [ResultOf(Top(s, t))]) else was
  {
    hide Next, CanRun;
  }

  lemma ResultTells(s: State, s': State, t: Tid, i: nat, r: Ret, was: Log)
    requires Tells(s, t, i, was) && i < |Stack(s, t)| && Awaits(Stack(s, t)[i]).Some?
    requires i < |Stack(s', t)| && Stack(s', t)[i] == Resume(Stack(s, t)[i], r)
    requires s.closing ==> s'.closing && s'.order == s.order
    ensures Tells(s', t, i, was.(results := was.results + [r]))
  {
    hide SwitchTells, ReloadTells, AllSucceeded;
    var f := Stack(s, t)[i];
    match f {
      case PrimFrame(_, _, _) =>
      case SwitchFrame(_, _, _, _, _) => SwitchGetsResult(f, was, r);
      case ReloadFrame(_, _, _, _, _, _, _, _) => ReloadGetsResult(f, was, r);
      case CloseFrame(_, _, _, _) => AllNext(was.results, r);
    }
  }

  // ---- all other steps

  lemma AsideStep(s: State, a: Action, t: Tid, i: nat, was: Log)
    requires Inv(s) && Enabled(s, a) && Tells(s, t, i, was) && i < |Stack(s, t)| && !Stack(s, t)[i].PrimFrame?
    requires a.Run? && a.t == t ==> Nested(Stack(s, t), i)
    ensures Tells(Next(s, a), t, i, Logged(s, a, t, i, was))
  {
    hide Inv, Next, CanRun, Lendable, Starting, Tells, Logged;
    if a.Run? && a.t == t {
      StepsAbove(s, t, a.choice, i);
    } else {
      AwaitedHere(s, t, i);
      ActionsAside(s, a, t, i);
    }
    AsideLog(s, a, t, i, was);
    if s.closing {
      ClosingStays(s, a);
    }
    TellsAnyway(s, Next(s, a), t, i, was);
  }

  lemma AsideLog(s: State, a: Action, t: Tid, i: nat, was: Log)
    requires Inv(s) && Enabled(s, a) && i < |Stack(s, t)| && !Stack(s, t)[i].PrimFrame?
    requires a.Run? && a.t == t ==> Nested(Stack(s, t), i)
    ensures Logged(s, a, t, i, was) == was
  {
    hide CellOk, Locked, Underway, Next, Enabled;
    assert FrameOk(s, t, i);
  }

  lemma StepTells(s: State, a: Action, t: Tid, i: nat, was: Log)
    requires Inv(s) && Enabled(s, a) && Tells(s, t, i, was)
    ensures Tells(Next(s, a), t, i, Logged(s, a, t, i, was))
  {
    hide Inv, Next, CanRun, Tells, Logged, Awaits, Lendable;
    if i >= |Stack(s, t)| || Stack(s, t)[i].PrimFrame? {
      Appears(s, a, t, i);
      OpeningTells(Next(s, a), t, i, Logged(s, a, t, i, was));
    } else if a.Run? && a.t == t && !Nested(Stack(s, t), i) {
      if |Stack(s, t)| == i + 1 {
        match Stack(s, t)[i] {
          case SwitchFrame(_, _, _, _, _) => SwitchOwnStep(s, t, i, a.choice, was);
          case ReloadFrame(_, _, _, _, _, _, _, _) => ReloadOwnStep(s, t, i, a.choice, was);
          case CloseFrame(_, _, _, _) => CloseOwnStep(s, t, i, a.choice, was);
        }
      } else {
        NotNestedAwaits(Stack(s, t), i);
        AwaitedStep(s, t, i, a.choice, was);
      }
    } else {
      AsideStep(s, a, t, i, was);
    }
  }

  lemma NotNestedAwaits(stack: seq<Frame>, i: nat)
    requires i + 1 < |stack| && !Nested(stack, i)
    ensures |stack| == i + 2 && Awaits(stack[i]).Some?
  {
  }

  lemma {:induction false} RunTellsAll(s: State, run: seq<Action>, t: Tid, i: nat, was: Log)
    requires Inv(s) && Protocol.Legal(s, run) && Tells(s, t, i, was)
    ensures Tells(After(s, run), t, i, LogOf(s, run, t, i, was))
    decreases |run|
  {
    hide Inv, Next, Enabled, Tells, Logged;
    if run != [] {
      StepTells(s, run[0], t, i, was);
      NextKeeps(s, run[0]);
      RunTellsAll(Next(s, run[0]), run[1..], t, i, Logged(s, run[0], t, i, was));
    }
  }

  // ------------------------------------------------------------------- theorems

  lemma ReachableTells(run: seq<Action>, t: Tid, i: nat)
    requires Protocol.Legal(Init, run)
    ensures Tells(After(Init, run), t, i, LogOf(Init, run, t, i, Blankly))
  {
    hide After, Protocol.Legal, LogOf, Inv;
    InitInv();
    OpeningTells(Init, t, i, Blankly);
    RunTellsAll(Init, run, t, i, Blankly);
  }

  /**
   * In every run, a switch that is about to return has made its target ready, loading it,
   * configuring it, both or neither. A success means that it then stopped its source and
   * activated its target with what the stop returned if it transfers state, and with nothing
   * otherwise, that all of this succeeded, and that the result is that of the activation. A
   * failure means that it did nothing after the first operation that failed, whose result it
   * returns if that is the stop or the activation.
   */
  lemma SwitchPerforms(run: seq<Action>, t: Tid, i: nat) returns (p: seq<(Prim, Name)>)
    requires Protocol.Legal(Init, run)
    requires var f := Activation(After(Init, run), t, i); f.Some? && f.value.SwitchFrame? && f.value.sw.SLeaving?
    ensures var f, log := Activation(After(Init, run), t, i).value, LogOf(Init, run, t, i, Blankly);
            var a, b, r, n := f.source, f.target, f.sw.ret, |p|;
            && (p == [] || p == [(Load(None), b)] || p == [(Configure, b)] || p == [(Load(None), b), (Configure, b)])
            && (Succeeded(r) ==>
                  && |log.results| == n + 2 && AllSucceeded(log.results) && r == log.results[n + 1]
                  && log.begun == p + [(Deactivate(f.timed), a), (Activate(if f.transfer then log.results[n].state else None), b)])
            && (!Succeeded(r) ==>
                  || log.begun == p
                  || (log.begun == p + [(Deactivate(f.timed), a)] && FailedWith(log.results, r))
                  || (&& |log.results| == n + 2 && FailedWith(log.results, r)
                      && log.begun == p + [(Deactivate(f.timed), a), (Activate(if f.transfer then log.results[n].state else None), b)]))
  {
    hide After, Protocol.Legal, LogOf, Inv;
    ReachableTells(run, t, i);
    var f, log := Activation(After(Init, run), t, i).value, LogOf(Init, run, t, i, Blankly);
    p :| SwitchScript(f, log, p);
    if f.sw.reach.Stopped? {
      assert log.results[..|p| + 1][|p|] == log.results[|p|];
    }
  }

  /**
   * In every run, a reload that is about to return has stopped its entry if that was active,
   * unloaded it, loaded it again, configured it, and activated it if it had been active, with
   * what the stop returned iff it transfers state. It has done so up to the first operation
   * that failed, whose result it returns; only a refresh that fails ends it after the unload.
   */
  lemma ReloadPerforms(run: seq<Action>, t: Tid, i: nat)
    requires Protocol.Legal(Init, run)
    requires var f := Activation(After(Init, run), t, i); f.Some? && f.value.ReloadFrame? && f.value.rl.RLeaving?
    ensures var f, log := Activation(After(Init, run), t, i).value, LogOf(Init, run, t, i, Blankly);
            var n, r := f.name, f.rl.ret;
            var middle := [(Unload(f.timed), n), (Load(None), n), (Configure, n)];
            && |log.results| == |log.begun|
            && (Succeeded(r) ==>
                  && AllSucceeded(log.results)
                  && (!f.wasActive ==> log.begun == middle)
                  && (f.wasActive ==>
                        && |log.results| == 5
                        && log.begun == [(Deactivate(f.timed), n)] + middle
                          + [(Activate(if f.transfer then log.results[0].state else None), n)]))
            && (!f.wasActive ==> log.begun <= middle)
            && (f.wasActive ==>
                  log.begun <= [(Deactivate(f.timed), n)] + middle
                    + [(Activate(if f.transfer && |log.results| > 1 && log.results[0].Ret? then log.results[0].state else None), n)])
            && (!Succeeded(r) ==>
                  || FailedWith(log.results, r)
                  || (f.refresh && AllSucceeded(log.results) && log.begun != [] && log.begun[|log.begun| - 1] == (Unload(f.timed), n)))
  {
    hide After, Protocol.Legal, LogOf, Inv;
    ReachableTells(run, t, i);
  }

  /**
   * In every run, a close that is about to return has unloaded every entry that there is, each
   * once, from the newest to the oldest, whatever failed, and it succeeds iff every unload did.
   */
  lemma ClosePerforms(run: seq<Action>, t: Tid, i: nat)
    requires Protocol.Legal(Init, run)
    requires var f := Activation(After(Init, run), t, i);
             f.Some? && f.value.CloseFrame? && f.value.cl.CNext? && f.value.todo == []
    ensures var s := After(Init, run);
            var f, log := Activation(s, t, i).value, LogOf(Init, run, t, i, Blankly);
            && Distinct(s.order) && (forall n :: n in s.order <==> n in s.cells)
            && |log.begun| == |log.results| == |s.order|
            && (forall k | 0 <= k < |s.order| :: log.begun[k] == (Unload(f.timed), s.order[|s.order| - 1 - k]))
            && (f.ok <==> forall k | 0 <= k < |log.results| :: Succeeded(log.results[k]))
  {
    hide After, Protocol.Legal, LogOf, CellOk, FrameOk, Reverse;
    ReachableTells(run, t, i);
    InitInv();
    Reachable(run);
    OrderIsDistinct(Init, run);
    var s, f := After(Init, run), Activation(After(Init, run), t, i).value;
    var log := LogOf(Init, run, t, i, Blankly);
    assert log.begun + Unloads(f.timed, []) == log.begun;
    forall k | 0 <= k < |s.order| ensures log.begun[k] == (Unload(f.timed), s.order[|s.order| - 1 - k]) {
      ReverseAt(s.order, k);
    }
  }

  lemma {:induction false} ReverseAt<T>(xs: seq<T>, k: nat)
    requires k < |xs|
    ensures Reverse(xs)[k] == xs[|xs| - 1 - k]
  {
    if k < |xs| - 1 {
      ReverseAt(xs[1..], k);
    }
  }

  // -------------------------------------------------------------- what decides

  /** The innermost activation of `t` has gone on to `g`, and has begun this operation, if any. */
  predicate WentOn(s: State, s': State, t: Tid, g: Frame, op: Option<(Prim, Name)>)
    requires Stack(s, t) != []
  {
    var below := Stack(s, t)[..|Stack(s, t)| - 1];
    && Idle(s, s')
    && Stack(s', t) == below + [g] + (if op.Some? then [PrimFrame(op.value.0, op.value.1, Lookup)] else [])
  }

  /**
   * What makes a switch decide as it does once it holds both locks. It refuses a thread that is
   * inside a call of one of the two entries, a source that is not active, and a target that is
   * not inactive once it was made ready; it loads an unloaded target and configures an
   * unconfigured one. If it transfers state, a missing root raises and different handover
   * types are refused, before anything is stopped.
   */
  lemma SwitchChooses(s: State, t: Tid, c: Choice)
    requires Inv(s) && CanRun(s, t, c) && Stack(s, t) != [] && Top(s, t).SwitchFrame?
    ensures var f, s' := Top(s, t), Next(s, Run(t, c));
            var a, b := f.source, f.target;
            var refused := f.(sw := SLeaving(Ret(false, None), Early));
            (f.sw.SGuard? || f.sw.SConfigure? || f.sw.SCompare? ==>
               && a in s.cells && b in s.cells
               && var e, g := s.cells[a].e, s.cells[b].e;
               match f.sw
               case SGuard =>
                 if (t in e.callers && e.callers[t] > 0) || (t in g.callers && g.callers[t] > 0) || e.state != ACTIVE then
                   WentOn(s, s', t, refused, None)
                 else if g.state == UNLOADED then WentOn(s, s', t, f.(sw := SLoading), Some((Load(None), b)))
                 else WentOn(s, s', t, f.(sw := SConfigure), None)
               case SConfigure =>
                 if g.state == UNCONFIGURED then WentOn(s, s', t, f.(sw := SConfiguring), Some((Configure, b)))
                 else WentOn(s, s', t, f.(sw := SCompare), None)
               case SCompare =>
                 var p, q := RootClass(s, a), RootClass(s, b);
                 if g.state != INACTIVE then WentOn(s, s', t, refused, None)
                 else if f.transfer && (p.None? || q.None?) then WentOn(s, s', t, f.(sw := SLeaving(Raised, Early)), None)
                 else if f.transfer && p.value.handover != q.value.handover then WentOn(s, s', t, refused, None)
                 else WentOn(s, s', t, f.(sw := SStopping), Some((Deactivate(f.timed), a)))
               case _ => true)
  {
    hide Inv, Next, CanRun, RootClass, WentOn, Before;
    var f := Top(s, t);
    TopLocked(s, t);
    if Decides(f.sw) {
      DecidesWentOn(s, t, c);
      if f.sw.SCompare? {
        SameRoots(s, f.source, f.target);
      }
    }
  }

  lemma DecidesWentOn(s: State, t: Tid, c: Choice)
    requires CanRun(s, t, c) && Top(s, t).SwitchFrame? && Decides(Top(s, t).sw)
    requires Top(s, t).source in s.cells && Top(s, t).target in s.cells
    ensures var g := Top(s, t).(sw := Decided(s, t, Top(s, t))); WentOn(s, Next(s, Run(t, c)), t, g, Awaits(g))
  {
    hide RunSwitch, SetTop, Await, Idle, Decided, Awaits;
    SwitchForm(s, t);
    SwitchIdle(s, t);
    LoneTop(s, t);
  }

  lemma SameRoots(s: State, a: Name, b: Name)
    requires a in s.cells && b in s.cells
    ensures var p, q := RootClass(s, a), RootClass(s, b);
            && (SameType(s, a, b) <==> p.Some? && q.Some? && p.value.handover == q.value.handover)
            && (Mismatch(s, a, b) <==> p.Some? && q.Some? && p.value.handover != q.value.handover)
  {
  }

  /** The thread is in a call of some entry, or in a callback or build that the manager runs. */
  predicate Within(s: State, t: Tid) {
    exists n | n in s.cells ::
      (t in s.cells[n].e.callers && s.cells[n].e.callers[t] > 0) || s.cells[n].e.operationThread == Some(t)
  }

  /**
   * A close is refused iff its thread is inside managed code, and then nothing has changed.
   * Otherwise the manager is closing from then on, and every entry is to be unloaded.
   */
  lemma CloseRefusedIff(s: State, t: Tid, c: Choice)
    requires CanRun(s, t, c) && Stack(s, t) != [] && Top(s, t).CloseFrame? && Top(s, t).cl.CStart?
    ensures var s' := Next(s, Run(t, c));
            if Within(s, t) then s' == Return(s, t, Ret(false, None))
            else s' == SetTop(s.(closing := true), t, Top(s, t).(todo := Reverse(s.order), ok := true, cl := CNext))
  {
    hide Return, SetTop, Reverse;
    if n :| n in s.cells && (Calling(s.cells[n].e, t) > 0 || s.cells[n].e.operationThread == Some(t)) {
      assert InsideManagedCode(s, t) && Within(s, t);
    }
  }
}
