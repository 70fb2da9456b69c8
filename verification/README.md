# Managed plugin lifecycle, verified

A Dafny model of the managed plugin lifecycle of `rpp_py`, and proofs about it. Four layers are
modelled, and their guarantees build on each other:

1. **Plugin manager** (`rpp_py/plugin_manager.py`). Named entries with a state, a transition mark, a
   call gate, calls in flight, two debt flags, a generation and a re-entrant operation lock. Any
   number of threads interleave borrows with load, configure, activate, deactivate, cleanup, unload,
   switch, reload and close. Callbacks, builders and drain timeouts are adversarial, and callbacks may
   call the manager again.
2. **Component contexts** (`rpp_py/context.py`, `rpp_py/plugin.py`). Trees of any shape: activation
   with rollback, deactivation and cleanup that continue after errors, retryable close.
3. **External servers** (`rpp_py/external_component_process.py`). Reference-counted handles on shared
   processes, start-up rollback, retryable teardown.
4. **Tree building** (`rpp_py/context_builder.py`, `rpp_py/plugin_loader.py`). Two passes over a
   workspace, ownership of host handles, rollback of failed imports.

`dafny verify dfyconfig.toml` checks everything.

## How the model is built

Foreign code is an oracle: a function of everything that was asked before and of the present request.
A statement about all oracles covers every mix of failures.

| files | content |
|---|---|
| `Lifecycle`, `Plugins`, `Traces`, `Names`, `Text` | states, callback dispatch, event traces, name order, language names |
| `ContextTree` | the traversals as functions on trees and traces |
| `ComponentContexts` | the class whose methods update a context tree in place, each equal to its function |
| `StopTheorems`, `StartTheorems`, `ConfigureTheorems`, `CloseTheorems` | what whole traversals do |
| `CallbackTheorems` | what plugin code is called with, and when its answer is a failure |
| `Entries`, `Protocol` | an entry's condition-protected sections, and the step relation over threads |
| `Invariant`, `Preservation`, `Calls`, `PrimSteps`, `AllSteps` | one inductive invariant and why every step keeps it |
| `Effects`, `Turns`, `Safety`, `OpenGates`, `SwitchGates` | who can change what, and the guarantees for every run |
| `CloseOrder`, `Scripts` | which operations a switch, a reload and a close perform in any run, in which order and with which values |
| `PrimEffects`, `Handover`, `Nesting` | switch and reload under any interleaving, as long as their own callbacks leave their entries alone |
| `Discipline`, `Progress` | ordered runs and deadlock freedom |
| `Operations`, `Compounds`, `ManagedEntries`, `PluginManagers` | the sequential operations as functions, and the classes that perform them in place |
| `OperationTheorems`, `OperationMeanings`, `CompoundTheorems` | what each of these operations does, when it succeeds, and which value a switch or a reload hands over |
| `Undisturbed` | the sequential operations are what the protocol does when nothing interferes |
| `Runs`, `Staging`, `Witnesses`, `CrossBorrows`, `Deadlocks`, `Reentrancy`, `SwitchRuns`, `ReloadRuns`, `LostRuns` | runs from the initial state that show where each guarantee ends |
| `ServerProcess`, `ServerTheorems`, `SharedServers`, `ServerOwnership`, `ExternalProcess` | external servers as functions, over all interleavings, and as classes |
| `TreeBuilding`, `TwoPasses`, `BuiltTrees`, `HostedBuild`, `BuildOwnership`, `ContextBuilder` | the two passes, their agreement, the tree they build, handle ownership, the builder class |
| `ModuleTable`, `PluginImports` | failed imports and the module table |

A thread in `Protocol` is a stack of activations. One step runs an activation to the end of its next
condition-protected section or foreign call. `built`, `frame`, `lost`, `loans`, `visits`, `closedOk`, `since`
and `reach` only record history: no step reads them to decide anything. Callbacks, builders and refreshes may
start operations of their own, which stand above the activation they run in.

Each guarantee is stated for every run it holds of:

- *Every run* (`Safety`, `OpenGates`, `SwitchGates`, `CloseOrder`, `Scripts`). The invariant and all guarantees of these files hold after
  every run. Two lines of the table of states and one of `NoBorrowDuringCallback` are claimed of an entry only
  while no refresh has raised over a context that it held (`lost`). A refresh that does not operate on its own
  entry never does that (`Safety.SparedKeepsContext`), and the runs `ReloadRuns.RelapseIsReached` and
  `LostRuns.LentDuringCallbackIsReached` show that these lines do fail after one that does.
- *Both gates of a switch* (`SwitchGates.BothOpenIff`). Every run, with the exact condition.
- *Results of switch and reload* (`Handover`). Any interleaving; other threads are free. Only operations nested
  in the switch's or reload's own callbacks must not act on its entries: for the states from the comparison to
  the return, for the handed-over value from the moment both locks are held. It is enough that those operations
  name other entries (`Nesting.ElsewhereIsUndisputed`).
- *Deadlock freedom* (`Progress`). No operation is started from a borrow or a builder, and an operation
  started from a callback or a refresh names entries that its thread has locked already or that come after
  those in name order (`Discipline.Disciplined`). The class docstring asks only that borrow bodies leave their
  own entry alone (`rpp_py/plugin_manager.py:35-37`), and the code refuses only that. Each of the three
  clauses is needed, as the list below shows.

## What is false of the code, and exactly when

For the plugin manager, the run named beside each failing state reaches it from the initial state.

- Borrow bodies that manage other entries can deadlock: two borrowers that stop each other's entry wait
  for ever (`CrossBorrows.CrossBorrowersDeadlock`, `Deadlocks.BorrowDeadlockIsReached`). So can two callbacks
  that ask for each other's entry (`Deadlocks.CrossCallbacksDeadlock`, `CallbackDeadlockIsReached`), and a
  builder that asks for an entry whose thread waits for the builder (`Deadlocks.BuilderDeadlock`,
  `BuilderDeadlockIsReached`). Without these three there is no deadlock (`Progress.NoDeadlock`).
- A target callback that activates the source again during a switch leaves both gates open
  (`Reentrancy.SwitchMayLeaveBothOpen`, `SwitchRuns.BothOpenIsReached`). From the comparison to the return both
  are open exactly if the target is and an operation nested in the switch has opened the source again after its
  stop, with nothing begun on it since (`SwitchGates.BothOpenIff`).
- An open gate does not mean that the last result was a success (`Witnesses.OpenFailureIsReached`): it carries
  a failure exactly if some operation was refused since the gate was opened
  (`OpenGates.FailureBehindOpenGateIff`), and `OperationTheorems.AskedOfOpenEntry` says which ones are.
- A refresh that loads its own entry and then raises leaves it UNLOADED with a context
  (`ReloadRuns.RelapseIsReached`); a refresh that raises keeps the table iff its entry has no context then
  (`Safety.RefreshMayRaiseIff`). If that context was borrowed, a later configure callback of the same entry runs
  while the borrow is in flight (`LostRuns.LentDuringCallbackIsReached`).
- `cleanup` of an entry whose load failed raises with its transition mark still set, and only then
  (`Safety.CleanupSticksIff`, `Witnesses.StuckIsReached`). From then on the entry refuses everything, unload
  included, and `close` never succeeds, unless a refresh of its own reload was already running and raises
  (`Safety.StuckForever`).
- Once an activation was attempted on a tree with an adapted component, the entry can never be
  unloaded again, because deactivation of such a tree always fails (`Safety.AdaptedActivationIsTerminal`,
  `Witnesses.TrappedIsReached`), unless a refresh of its own reload loses the tree by raising.
- `prepare` after a failed close loses the old child or executor (`ServerTheorems.PrepareOwnsIff`); among
  servers that share a world nothing is ever lost iff no server is prepared in that state
  (`ServerOwnership.NothingIsLostIff`).
- A language that is "python" only after stripping white space is collected as Python but built as
  adapted; that is the only way the passes disagree (`TwoPasses.BuildSucceedsIffClean`).
- A script build drops plugin names in its second pass, so it fails exactly when a component is linked
  (`TwoPasses.ScriptBuildSucceedsIffUnlinked`).
- Two links to one component make the second host overwrite the first
  (`BuildOwnership.NoHandleLostIffDistinct`).
- A failed import over a stale module of the same name leaves the failed module in the table
  (`ModuleTable.SliceRestoredIff`).
- An attribute under another name than the module's own, set by a module body that then raises, still points at
  the removed module (`ModuleTable.AliasDangles`). After a failed import nothing points at an added module
  exactly if every attribute that did was its parent's own name for it (`ModuleTable.NothingDanglesIff`).

## Model

| member | source | states |
|---|---|---|
| Plugins.ExportActivatesSameType | rpp_py/plugin.py:40-77 | a snapshot that `deactivate_state` returns is accepted by every plugin of the same handover type; plugins without one export nothing |
| CallbackTheorems.CallbackSucceedsIff | rpp_py/plugin.py:48-59 | a callback succeeds iff it returns a successful `CallbackResult`; an exception, a failure and a result of another type are told apart |
| CallbackTheorems.StopSucceedsIff | rpp_py/plugin.py:68-77 | a stop of a class that hands over state succeeds iff it returns a successful `DeactivationResult` whose state the class accepts, and then exports that state; any other class answers like every callback and exports nothing |
| CallbackTheorems.EveryAnswerIsJudged | rpp_py/context.py:49-170 | each traversal asks foreign code with everything that happened before, and each answer counts as a failure exactly as it must |
| CallbackTheorems.ActivationGives | rpp_py/plugin.py:61-66 | a successful activation starts every instance once, children first: the root with the given state if its class hands over state, every other such instance with None, and all the rest without arguments |
| CallbackTheorems.FailedActivationGives | rpp_py/plugin.py:61-66 | a failed activation gives the same values up to the call that failed, and only stops after it |
| CallbackTheorems.StartSucceedsIff | rpp_py/context.py:114-144 | an activation of a quiet tree succeeds iff the tree is native, its root takes the state, and no call failed |
| CallbackTheorems.RefusedState | rpp_py/context.py:122-125 | a state that the root does not take is refused before anything is called |
| CallbackTheorems.StopGives | rpp_py/context.py:146-170 | a stop returns what the root answered in this pass if its class hands over state, and nothing otherwise |
| StopTheorems.DeactivatePass | rpp_py/context.py:146-170 | one pass calls every outstanding node once, parent first in reverse slot order, whatever fails; afterwards exactly the failed nodes are outstanding; normal return iff none failed and the tree is native; otherwise the first error in visit order |
| StopTheorems.ExportOnlyFromThisPass | rpp_py/context.py:146-170 | state is exported only if the root's own callback ran in this pass and nothing failed, and then it is an accepted state |
| StopTheorems.RetryCallsTheFailures | rpp_py/context.py:146-170 | a second pass calls exactly the nodes that failed in the first |
| StartTheorems.ActivateSucceeds | rpp_py/context.py:114-144 | a successful activation makes the planned calls, children first in slot order, and leaves every called node outstanding |
| StartTheorems.ActivateStartsAll | rpp_py/context.py:114-144 | after a successful activation every instance of the tree is started |
| StartTheorems.ActivateFails | rpp_py/context.py:114-144 | a failed activation of a quiet tree unwinds at any depth: completed nodes are stopped in reverse, the error is the original one, and exactly the failed node and the nodes whose own rollback failed are outstanding |
| ConfigureTheorems.ConfigurePass | rpp_py/context.py:83-91 | configure calls a prefix of the children-first order and stops at the first failure |
| ConfigureTheorems.CleanupPass | rpp_py/context.py:93-112 | cleanup calls every local instance parent first, and raises the first failure |
| ConfigureTheorems.MirroredOrders | rpp_py/context.py:83-112 | parent first in reversed slots is the exact reverse of children first in slot order, for trees of any shape |
| ConfigureTheorems.CleanupMirrorsConfigure | rpp_py/context.py:83-112 | the cleanup trace is the reverse of a successful configure trace |
| ConfigureTheorems.DeactivateMirrorsActivate | rpp_py/context.py:114-170 | the deactivate trace is the reverse of a successful activate trace |
| CloseTheorems.ClosePass | rpp_py/context.py:49-71 | one close attempts every open runtime once; exactly the failed ones stay open; normal return iff none failed |
| CloseTheorems.CloseForgets | rpp_py/context.py:49-71 | a close that succeeds lets go of instance and children, and one that fails keeps both |
| CloseTheorems.RuntimesAreConserved | rpp_py/context.py:49-71 | over any sequence of close calls each runtime of the original tree is closed successfully exactly once or still open, although closed subtrees drop their children |
| CloseTheorems.NormalCloseIsFinal | rpp_py/context.py:49-71 | a normal return means that every runtime of the original tree is closed, and no later call touches one |
| ComponentContexts.ReversedSlots | rpp_py/context.py:100-103 | the nested reversed loops meet the contexts in the reverse of the forward order |
| ComponentContexts.ComponentContext.constructor | rpp_py/context.py:32-46 | a new context over disjoint children owes nothing and has an open runtime |
| ComponentContexts.ComponentContext.Configure | rpp_py/context.py:83-91 | in place, exactly the configure traversal |
| ComponentContexts.ComponentContext.Cleanup | rpp_py/context.py:93-112 | in place, exactly the cleanup traversal |
| ComponentContexts.ComponentContext.Activate | rpp_py/context.py:114-144 | in place, exactly the activation with rollback |
| ComponentContexts.ComponentContext.Deactivate | rpp_py/context.py:146-170 | in place, exactly the deactivation pass with its exported state |
| ComponentContexts.ComponentContext.Close | rpp_py/context.py:49-71 | in place, exactly the close traversal |
| Names.BeforeTotal | rpp_py/plugin_manager.py:285 | the order in which two operation locks are taken is total |
| Names.SpaceIs | rpp_py/plugin_manager.py:129-130 | white space is the blank and the five control characters from tab to carriage return |
| Entries.LendCounted | rpp_py/plugin_manager.py:254-255 | a borrow keeps calls in flight equal to the sum of positive caller counts |
| Entries.GiveBackCounted | rpp_py/plugin_manager.py:260-265 | ending a borrow keeps that sum, and was possible only with a call in flight |
| AllSteps.NextKeeps | rpp_py/plugin_manager.py:128-352 | every step of every thread keeps the invariant, whatever foreign code does and whatever operations it starts |
| AllSteps.Reachable | rpp_py/plugin_manager.py:128-352 | the invariant holds after every run of any number of threads |
| Safety.NoBorrowDuringCallback | rpp_py/plugin_manager.py:76-117 | while any callback runs on an entry its gate is shut and no other operation is under way on it; no borrow of it is in flight, although configure, activate and cleanup never drain, unless a refresh raised over a context of that entry, and then still not during a stop or an unload |
| Safety.CallbacksAreDue | rpp_py/plugin_manager.py:154-240 | over every run, each context's callbacks follow its typestate: configure when unconfigured, activate when configured without debt, deactivate only with debt, cleanup only without, close with neither |
| Safety.DueMeans | rpp_py/plugin_manager.py:154-240 | what the typestate implies: callbacks never overlap, each started when due, nothing follows a successful close |
| Safety.FlagsAreDebts | rpp_py/plugin_manager.py:160-239 | `configured` and `may_be_active` are exactly the debts of the callbacks run on the held context |
| Safety.InactiveOwesNothing | rpp_py/plugin_manager.py:164-240 | whenever `may_be_active` is false no node anywhere in the entry's tree is outstanding |
| Safety.ActiveIsStarted | rpp_py/plugin_manager.py:164-175 | whenever an entry is ACTIVE and no operation is under way on it, every instance of its tree is started |
| Safety.OnlyDeactivateMeetsDebts | rpp_py/plugin_manager.py:206-240 | configure, activate, cleanup and close always run on a tree with nothing outstanding |
| Safety.EntryTable | rpp_py/plugin_manager.py:76-100 | the table of states between operations, gate implies ACTIVE with a context and no transition, in flight equals the sum of caller counts; if a refresh raised over a context of the entry, UNLOADED may hold a context and calls may be in flight on an instance that was not started |
| Safety.TransitionsBelongToOperations | rpp_py/plugin_manager.py:76-100 | a transition mark belongs to an operation under way and names it, or was left by a cleanup after a failed load; never both |
| Safety.CleanupSticksIff | rpp_py/plugin_manager.py:206-218 | a cleanup that passed `_begin` leaves its mark iff the entry has no context, which is exactly after a failed load |
| Safety.StuckForever | rpp_py/plugin_manager.py:76-89 | a stuck entry stays stuck in every later run, and close never returns success, if no refresh of that entry is running |
| Safety.RefreshMayRaiseIff | rpp_py/plugin_manager.py:328-332 | a refresh that raises leaves its entry UNLOADED with the context it has then, and keeps the table iff it has none; exactly then the entry counts as having lost one |
| Safety.SparedKeepsContext | rpp_py/plugin_manager.py:328-332 | the context of an entry stays the same along any run in which nobody acts on the entry, so a refresh that spares its own entry may raise |
| Safety.LoansNameTheirContext | rpp_py/plugin_manager.py:242-255 | every borrow ever made got the context of the generation it was checked against; tokens never revive |
| Safety.BorrowGrantedIff | rpp_py/plugin_manager.py:242-257 | a borrow is granted iff the gate is open, the generation asked for, if any, is the current one, and the entry has a local root |
| Safety.BorrowLendsCurrent | rpp_py/plugin_manager.py:242-257 | a borrow yields the root of the context that the current generation's load built, and that root is started |
| Safety.CloseIsFinal | rpp_py/plugin_manager.py:339-352 | once close has returned success every entry that exists then or later is UNLOADED without context, call or open gate, whatever any thread does |
| Safety.AdaptedActivationIsTerminal | rpp_py/context.py:120-121 | after an activation attempt on a tree with an adapted component no run unloads the entry, and close never succeeds, unless a refresh raises over it |
| OpenGates.FailureBehindOpenGateIff | rpp_py/plugin_manager.py:70-100 | over every run, an open gate carries a failed last result iff `_invalid` answered an operation on the entry since the `_finish` that opened the gate |
| OpenGates.AskedWhileOpen | rpp_py/plugin_manager.py:70-100 | a section on an open entry either refuses, which changes only the last result, or leaves the entry as it is, or shuts the gate |
| SwitchGates.GateIsOpenIff | rpp_py/plugin_manager.py:76-100 | over every run a gate is open iff no operation has begun on the entry, and no refresh of it raised, since an activation of it last finished successfully |
| SwitchGates.BothOpenIff | rpp_py/plugin_manager.py:302-312 | over every run, from the target-inactive check until a switch returns its two gates are both open iff its source has stopped, the target is open, and an operation nested in the switch has opened the source again with nothing begun on it since |
| Scripts.SwitchPerforms | rpp_py/plugin_manager.py:282-312 | over every run, a successful switch has loaded and configured its target as needed, then stopped its source, then activated its target with what the stop returned iff it transfers state, all with success; a failed one did nothing after the first failure |
| Scripts.SwitchChooses | rpp_py/plugin_manager.py:287-312 | over every run, a switch refuses a caller inside either entry, a source that is not ACTIVE and a target that cannot be made INACTIVE; a transferring one raises for a missing root and refuses different handover types, before anything is stopped |
| Scripts.ReloadPerforms | rpp_py/plugin_manager.py:314-337 | over every run, a reload has stopped an active entry, unloaded, loaded and configured it, and activated it with what the stop returned iff it transfers state, up to the first failure, whose result it returns |
| Scripts.ClosePerforms | rpp_py/plugin_manager.py:339-352 | over every run, a close about to return has unloaded every entry once, from the newest to the oldest, whatever failed, and succeeds iff every unload did |
| Scripts.CloseRefusedIff | rpp_py/plugin_manager.py:339-347 | a close is refused, and changes nothing, iff its thread is inside a call, a callback or a build of the manager; otherwise the manager is closing from then on |
| CloseOrder.OrderStep | rpp_py/plugin_manager.py:128-134 | entries are added at the end, each once, and none while the manager is closing |
| CloseOrder.RefreshFollowsUnload | rpp_py/plugin_manager.py:326-328 | over every run, a refresh begins exactly when the unload before it returns with success, and the entry is unloaded then |
| OperationTheorems.AskedOfOpenEntry | rpp_py/plugin_manager.py:128-240 | asked of an open entry, load, configure and cleanup are always refused, activate iff the manager is closing, deactivate iff it is closing or the caller is inside, unload iff the caller is inside; a refusal leaves the gate open with a failure, anything else accepted shuts it |
| OperationTheorems.AcceptedIff | rpp_py/plugin_manager.py:76-89 | an operation is let in iff its caller is not inside the entry, no operation is under way, the manager is not closing unless it is an unload, and the entry is in one of the named states |
| PrimEffects.PrimHas | rpp_py/plugin_manager.py:128-240 | what each step of a single operation does to its entry, to the callbacks run on its context and to its own progress |
| Handover.NeverBothOpen | rpp_py/plugin_manager.py:302-312 | from the target-inactive check until the switch returns its two gates are never both open, under any interleaving, if no operation nested in its own callbacks acts on its entries in that time |
| Handover.SwitchResult | rpp_py/plugin_manager.py:282-312 | under the same condition, success: source INACTIVE, target ACTIVE; failure after the source stopped: source INACTIVE, target not ACTIVE |
| Handover.SwitchHandsOver | rpp_py/plugin_manager.py:302-312 | if nested operations leave both entries alone from the locks on, a successful switch activated the target with exactly what the source exported iff transfer was asked; what was exported is what the stopped root answered, and the root of the target was called with it |
| Handover.SwitchDelivers | rpp_py/plugin_manager.py:302-312 | joint law under that condition: after a successful transferring switch both roots hand over the same type, and the target root's `on_activate` was called with exactly the state in the source root's answer to `on_deactivate` |
| Handover.HandoverIsAccepted | rpp_py/plugin_manager.py:304-312 | under that condition a transferring switch that has stopped its source holds a state that the target accepts |
| Handover.ReloadResult | rpp_py/plugin_manager.py:314-337 | a successful reload counts one generation, ends ACTIVE iff it began ACTIVE and otherwise INACTIVE, activated with what its stop exported iff transfer was asked, under any interleaving, if no nested operation acts on its entry |
| Handover.ReloadSnapshot | rpp_py/plugin_manager.py:319-324 | under that condition what a reload keeps of its stop is exactly what the stopped root answered, or nothing unless state is transferred |
| Nesting.ElsewhereIsUndisputed | rpp_py/plugin_manager.py:35-37 | operations started from inside a switch or a reload that name other entries never act on its entries, so the guarantees above hold |
| Discipline.OrderlyTidy | rpp_py/plugin_manager.py:35-37 | in ordered runs every lock is asked for after those held, builders start nothing, and borrows live only in foreign code |
| Progress.RunMoves | rpp_py/plugin_manager.py:128-352 | no enabled step of an operation leaves the state as it was |
| Progress.LocksAreOrdered | rpp_py/plugin_manager.py:285-286 | in ordered runs a thread that holds an operation lock, through whatever nesting, and waits for another waits for a later name |
| Progress.NoDeadlock | rpp_py/plugin_manager.py:112-117 | in ordered runs every unfinished thread can step, or waits along a finite chain of threads for one that can |
| CrossBorrows.CrossBorrowersDeadlock | rpp_py/plugin_manager.py:76-117 | from any state with two lendable entries, two borrowers that each stop the other's entry reach a state in which neither can step |
| Deadlocks.BorrowDeadlockIsReached | rpp_py/plugin_manager.py:76-117 | such a deadlock is reached from the initial state |
| Deadlocks.CrossCallbacksDeadlock | rpp_py/plugin_manager.py:154-162 | from any state with two configurable entries, two configure callbacks that each ask for the other entry reach a state in which neither can step |
| Deadlocks.CallbackDeadlockIsReached | rpp_py/plugin_manager.py:154-162 | such a deadlock is reached from the initial state |
| Deadlocks.BuilderDeadlock | rpp_py/plugin_manager.py:119-126 | a builder that asks for an entry whose thread waits for the builder deadlocks with it |
| Deadlocks.BuilderDeadlockIsReached | rpp_py/plugin_manager.py:119-126 | such a deadlock is reached from the initial state |
| Reentrancy.SwitchMayLeaveBothOpen | rpp_py/plugin_manager.py:282-312 | from any state in which a switch runs its target's activation callback, a run of the same thread ends the switch successfully with both gates open |
| SwitchRuns.ExposedIsReached | rpp_py/plugin_manager.py:282-312 | a switch that runs its target callback with the source stopped is reached from the initial state |
| SwitchRuns.BothOpenIsReached | rpp_py/plugin_manager.py:282-312 | a successful switch with both gates open is reached from the initial state |
| ReloadRuns.RelapseIsReached | rpp_py/plugin_manager.py:328-332 | a refresh that has loaded its own entry is reached from the initial state; when it raises, the entry is UNLOADED with a context |
| LostRuns.LentDuringCallbackIsReached | rpp_py/plugin_manager.py:328-332 | from the initial state a run leads to a configure callback during which a borrow of the same entry is in flight: its refresh had started it again, it was borrowed, and the refresh raised |
| Witnesses.StuckIsReached | rpp_py/plugin_manager.py:206-218 | a failed load and a cleanup lead from the initial state to a stuck entry |
| Witnesses.TrappedIsReached | rpp_py/context.py:120-121 | load, configure and activate of an adapted component lead from the initial state to an entry that nothing can unload |
| Witnesses.OpenFailureIsReached | rpp_py/plugin_manager.py:70-74 | an open entry whose last result is a failure is reached from the initial state |
| Undisturbed.OperationIsRun | rpp_py/plugin_manager.py:128-240 | the protocol, when only one thread steps, gives exactly the sequential operation's result, entry and tree, and changes no other entry or context |
| Operations.NeedsContext | rpp_py/plugin_manager.py:154-202 | an accepted configure, activate or deactivate always finds a context |
| OperationTheorems.EveryOperationKeeps | rpp_py/plugin_manager.py:128-240 | every operation keeps the table of states and the link between flags and tree, whatever the callbacks answer |
| OperationTheorems.ResultsMean | rpp_py/plugin_manager.py:128-240 | success reaches the state the operation aims at, failure never activates or opens, only a successful load counts a generation |
| OperationTheorems.CleanupSound | rpp_py/plugin_manager.py:206-218 | cleanup keeps the table, and leaves a mark exactly on an entry without a context |
| OperationTheorems.UnloadSucceedsIff | rpp_py/plugin_manager.py:220-240 | an unload stops, cleans up and closes in this order, each phase only after the one before; it succeeds iff nothing it called failed and no adapted node was to be stopped, and otherwise keeps its context for a retry |
| OperationTheorems.UnloadOwes | rpp_py/plugin_manager.py:220-240 | after a failed unload the flags say whether the stop, the cleanup or the close is still owed, and no later phase was begun |
| OperationMeanings.RefusedMeans | rpp_py/plugin_manager.py:70-89 | a refused operation changes nothing but the last result |
| OperationMeanings.AlreadyThere | rpp_py/plugin_manager.py:167-169 | activating an ACTIVE entry and deactivating an INACTIVE one succeed without doing anything |
| OperationMeanings.NotDue | rpp_py/plugin_manager.py:192-211 | an entry that may be active is not cleaned up, and one in error that is not active is not stopped |
| OperationMeanings.LoadDoes | rpp_py/plugin_manager.py:135-152 | a load without a component is refused, a failing builder leaves ERROR, and otherwise the entry holds the new tree as its next generation, unconfigured |
| OperationMeanings.ConfigureDoes | rpp_py/plugin_manager.py:154-162 | configure calls a prefix of the children-first order, succeeds iff nothing fails, and owes a cleanup either way |
| OperationMeanings.ActivateDoes | rpp_py/plugin_manager.py:164-175 | activate succeeds iff the tree is native, its root takes the state and nothing fails; it may owe a deactivation either way, and after a failure exactly the nodes whose call failed are owing |
| OperationMeanings.DeactivateDoes | rpp_py/plugin_manager.py:188-204 | deactivate with calls in flight calls nothing; otherwise it stops everything that is owing and clears the flag iff it succeeds |
| OperationMeanings.CleanupDoes | rpp_py/plugin_manager.py:206-218 | cleanup calls every instance and clears the flag iff nothing fails; without a context it raises with its mark set |
| OperationMeanings.UnloadWithoutCalls | rpp_py/plugin_manager.py:220-240 | unload with calls in flight calls nothing and fails, and without a context it succeeds at once |
| Compounds.SwitchMeans | rpp_py/plugin_manager.py:282-312 | undisturbed, a switch that fails after its source stopped leaves the source INACTIVE and the target not ACTIVE, a successful one activated the target with exactly what the stop exported iff transfer was asked, and the gates are never open together unless they were |
| CompoundTheorems.ReadiedMeans | rpp_py/plugin_manager.py:295-301 | an UNLOADED target is loaded and configured, an UNCONFIGURED one configured, any other left alone; a closing manager loads nothing |
| CompoundTheorems.SwitchDecides | rpp_py/plugin_manager.py:287-312 | undisturbed, different handover types are refused and a missing root raises before anything is stopped; otherwise the switch succeeds iff the stop and the activation do |
| CompoundTheorems.SwitchDelivers | rpp_py/plugin_manager.py:302-312 | undisturbed, a successful transferring switch has called the target root's `on_activate` with exactly the state that the source root answered |
| Compounds.ReloadMeans | rpp_py/plugin_manager.py:314-337 | undisturbed, a successful reload counts one generation and restores activity, no reload counts more than one, and a failed one leaves the gate open iff it was open and the stop was refused, so that nothing was done |
| CompoundTheorems.ReloadDecides | rpp_py/plugin_manager.py:314-337 | undisturbed, a reload stops, unloads, refreshes, loads, configures and activates again, ends at the first failure, and activates with what the stop returned iff state is transferred |
| CompoundTheorems.ReloadDelivers | rpp_py/plugin_manager.py:318-337 | undisturbed, a successful reload of an active entry has called the new root with exactly what the old root answered iff state is transferred, and with None otherwise |
| Compounds.SweepsInReverse | rpp_py/plugin_manager.py:339-352 | close unloads each entry once, in the state it had, right after all entries created later, and goes on whatever fails |
| Compounds.SweptIsUnloaded | rpp_py/plugin_manager.py:339-352 | if every unload of a close succeeded, every entry is UNLOADED without a context |
| ManagedEntries.ManagedEntry.Begin | rpp_py/plugin_manager.py:76-89 | in place, refuses exactly when the section refuses, and otherwise marks the transition and shuts the gate |
| ManagedEntries.ManagedEntry.Finish | rpp_py/plugin_manager.py:92-100 | in place, the end of a transition; the gate opens iff the entry became ACTIVE successfully |
| ManagedEntries.ManagedEntry.Load | rpp_py/plugin_manager.py:135-152 | in place, exactly the load operation on entry and tree |
| ManagedEntries.ManagedEntry.Configure | rpp_py/plugin_manager.py:154-162 | in place, exactly the configure operation on entry, tree and trace |
| ManagedEntries.ManagedEntry.Activate | rpp_py/plugin_manager.py:164-175 | in place, exactly the activate operation |
| ManagedEntries.ManagedEntry.Stop | rpp_py/plugin_manager.py:177-186 | in place, clears `may_be_active` iff the tree stopped completely |
| ManagedEntries.ManagedEntry.Deactivate | rpp_py/plugin_manager.py:188-204 | in place, exactly the deactivate operation on the entry as the calls that end during its wait leave it, for a wait with or without a time limit |
| ManagedEntries.ManagedEntry.Cleanup | rpp_py/plugin_manager.py:206-218 | in place, exactly the cleanup operation, including its raising case |
| ManagedEntries.ManagedEntry.Unload | rpp_py/plugin_manager.py:220-240 | in place, exactly the unload operation on the entry as the calls that end during its wait leave it, for a wait with or without a time limit |
| ManagedEntries.ManagedEntry.Borrow | rpp_py/plugin_manager.py:242-257 | lends the root instance iff the generation matches, the gate is open and there is an instance |
| ManagedEntries.ManagedEntry.EndBorrow | rpp_py/plugin_manager.py:260-265 | in place, the end of a borrow |
| PluginManagers.PluginManager.Operate | rpp_py/plugin_manager.py:128-240 | an operation on one entry of the table does what its function says and changes no other entry |
| PluginManagers.PluginManager.Call | rpp_py/plugin_manager.py:49-53 | an unknown name raises and touches nothing; a known one gets exactly its operation |
| PluginManagers.PluginManager.Load | rpp_py/plugin_manager.py:128-152 | blank names and a closing manager refuse; otherwise the entry is created on demand and loaded |
| PluginManagers.PluginManager.SwitchPlugins | rpp_py/plugin_manager.py:282-312 | in place, exactly the switch function on both entries and on the calls made; no other entry changes |
| PluginManagers.PluginManager.Reload | rpp_py/plugin_manager.py:314-337 | in place, exactly the reload function: stop, snapshot, unload, refresh, load, configure, activate, each only after the one before |
| PluginManagers.PluginManager.InsideManagedCode | rpp_py/plugin_manager.py:341-345 | true iff the thread is inside a guarded call or a callback of some entry |
| PluginManagers.PluginManager.Close | rpp_py/plugin_manager.py:339-352 | refused inside managed code without any change; otherwise closing is set and the entries are swept in reverse order of creation, with success iff every unload succeeded |
| ServerTheorems.DropsAll | rpp_py/external_component_process.py:161-165 | every adapter is asked to disconnect once, last to first, whatever fails |
| ServerTheorems.ConnectsUntilFailure | rpp_py/external_component_process.py:140-143 | adapters are connected in order until one fails |
| ServerTheorems.CloseEndsWhatItCan | rpp_py/external_component_process.py:96-128 | a close forgets exactly the child and executor that it ended, raises its first failure, and returns normally only if nothing is left |
| ServerTheorems.CloseAsks | rpp_py/external_component_process.py:96-177 | everything one close attempt asks for, in order: no failure prevents a later request, except that nothing is disconnected when the executor takes no calls |
| ServerTheorems.PrepareStartsOrUndoes | rpp_py/external_component_process.py:78-94 | success: child and executor run and all adapters were connected in order; failure: the original error, not started, and nothing left unless the rollback failed too |
| ServerTheorems.PrepareAsks | rpp_py/external_component_process.py:78-145 | the complete requests of a start from nothing: as far as everything succeeds, and after a failure exactly what undoes that, with the client shut down iff connecting it was asked for; a success leaves child, executor, event loop and client marked |
| ServerTheorems.CloseAfterStartAsks | rpp_py/external_component_process.py:96-177 | a close after a successful start asks for the client shutdown, every adapter from last to first, the event loop, the executor and the child, in this order |
| ServerTheorems.PrepareOwnsIff | rpp_py/external_component_process.py:78-94 | for a server by itself: it still knows every child and executor it started iff it was started, or held none, or the new child could not be spawned |
| SharedServers.HandlesAreCounted | rpp_py/external_component_process.py:254-295 | over any interleaving the count of a server is the number of its unclosed handles, and with none it has no child, no executor and is not started; it serves one component per handle ever given out |
| SharedServers.CreatedMeans | rpp_py/external_component_process.py:266-295 | the exact effect of creating a host: each refusal changes nothing, the first host of a group gets an unused server of its own, a later one is added to that server |
| SharedServers.BuildsStartOver | rpp_py/external_component_process.py:254-256 | a new build starts with no group that has a server |
| SharedServers.ServesUntilLastClose | rpp_py/external_component_process.py:179-185 | a started server is untouched by every act except the attempt to close its last open handle |
| SharedServers.FailedCloseKeepsOwner | rpp_py/external_component_process.py:234-238 | a failed close leaves the handle open and counted |
| ServerOwnership.StepAccountsIff | rpp_py/external_component_process.py:78-128 | among servers that share one world, an act leaves every living child and executor with exactly one server iff it does not start a server over the remains of a failed close |
| ServerOwnership.NothingIsLostIff | rpp_py/external_component_process.py:254-295 | over any interleaving everything alive stays accounted for iff no such start happens, and then nothing is alive once every handle is closed |
| ExternalProcess.ExternalComponentProcess.AddComponent | rpp_py/external_component_process.py:59-64 | components are added only before start-up |
| ExternalProcess.ExternalComponentProcess.Prepare | rpp_py/external_component_process.py:78-94 | in place, exactly the start with rollback |
| ExternalProcess.ExternalComponentProcess.ConnectAdapters | rpp_py/external_component_process.py:130-145 | in place, exactly the connection sequence |
| ExternalProcess.ExternalComponentProcess.DisconnectAdapters | rpp_py/external_component_process.py:147-177 | in place, exactly the disconnection with first-error semantics |
| ExternalProcess.ExternalComponentProcess.Close | rpp_py/external_component_process.py:96-128 | in place, exactly the teardown |
| ExternalProcess.ExternalComponentProcess.Release | rpp_py/external_component_process.py:179-185 | in place, the last owner is kept if shutdown fails |
| ExternalProcess.SharedHandle.Prepare | rpp_py/external_component_process.py:229-232 | a closed handle is refused and touches nothing |
| ExternalProcess.SharedHandle.Close | rpp_py/external_component_process.py:234-238 | closing twice does nothing; the handle is closed iff the release succeeded |
| ExternalProcess.Registry.Register | rpp_py/external_component_process.py:258-264 | blank languages are refused; a later registration replaces an earlier one |
| ExternalProcess.Registry.Create | rpp_py/external_component_process.py:266-295 | for a shared language a handle is counted on its group's process, which is new for a group's first host; for another one the factory's own product is handed on; each refusal has its exact condition and changes nothing |
| Text.StripKeepsIff | rpp_py/context_builder.py:272 | stripping keeps a name iff it has no surrounding white space |
| Text.StripTakes | rpp_py/context_builder.py:272 | stripping removes white space at both ends, all of it and nothing else |
| Text.LowerMoves | rpp_py/context_builder.py:197 | lower case changes exactly the letters from A to Z |
| BuiltTrees.FoundIff | rpp_py/context_builder.py:207-223 | a component is found iff its description is a component, or a link from a slot with a plugin type to one, and its plugin is installed |
| BuiltTrees.NotFoundMeans | rpp_py/context_builder.py:207-223 | which error says why a component is not found |
| BuiltTrees.BuildMirrors | rpp_py/context_builder.py:225-260 | a tree that is built stands for its component: Python components are native with one child for each declared part, in their order, all others adapted |
| BuiltTrees.MirrorIsUnique | rpp_py/context_builder.py:225-260 | only one tree stands for a component |
| BuiltTrees.RootsMirror | rpp_py/context_builder.py:57-76 | every root of a build stands for the component found at its path, in the order of the paths |
| BuiltTrees.BuildsIff | rpp_py/context_builder.py:190-260 | a component is built iff every plugin constructor, parameter file and part on its way works and every other component was prepared |
| BuiltTrees.CollectedIff | rpp_py/context_builder.py:271-286 | the first pass succeeds iff it finds everything it comes to, and gives exactly the components that are not Python and whose whole way is |
| TwoPasses.PassesAgree | rpp_py/context_builder.py:190-286 | on a tree without misread languages the build never meets an unprepared component, and its adapted contexts are exactly the collected components in order |
| TwoPasses.BuildsIffClean | rpp_py/context_builder.py:190-286 | with working plugins the build of a collected tree succeeds iff it has no misread language |
| TwoPasses.BuildSucceedsIffClean | rpp_py/context_builder.py:57-76 | the same for whole builds from component roots |
| TwoPasses.ScriptBuildSucceedsIffUnlinked | rpp_py/context_builder.py:123-161 | a script whose components were collected is built iff none of them is linked; otherwise its plugin name is missing in the second pass |
| HostedBuild.GroupingPermutes | rpp_py/context_builder.py:291-297 | grouping by language reorders the components and loses none |
| BuildOwnership.FailureGivesEverythingBack | rpp_py/context_builder.py:78-93 | a failed build with distinct folders raises the first stage's error and closes every created handle once in reverse; if the closes succeed no server of the build has anything left |
| BuildOwnership.SuccessStartsHosts | rpp_py/context_builder.py:78-83 | after a successful build every handle handed over is open and the host behind it runs |
| BuildOwnership.NoHandleLostIffDistinct | rpp_py/context_builder.py:311-321 | the builder knows every created handle iff the component folders are distinct |
| BuildOwnership.EveryHandleHasOneOwner | rpp_py/context_builder.py:78-93 | after a successful build with distinct folders each handle belongs to exactly one adapted context |
| ContextBuilder.ComponentContextBuilder.Arrange | rpp_py/context_builder.py:291-298 | the nested loops visit the components group by group |
| ContextBuilder.ComponentContextBuilder.CreateHosts | rpp_py/context_builder.py:297-321 | in place, exactly the creation of hosts up to the first failure |
| ContextBuilder.ComponentContextBuilder.BuildPreparedContexts | rpp_py/context_builder.py:78-93 | in place, exactly the build with its rollback; the builder holds nothing afterwards |
| ModuleTable.FailureLeavesNoNewName | rpp_py/plugin_loader.py:37-75 | a failed relative import leaves no new name in the package's part of the table and removes nothing else |
| ModuleTable.BodyRunsIn | rpp_py/plugin_loader.py:43-59 | the module body runs with the new module under its full name and with the package, which is new only if there was none |
| ModuleTable.SuccessReturns | rpp_py/plugin_loader.py:31-60 | a module held for the same file is returned as it is; otherwise the new module is returned, and the table holds it under the requested name iff the body left that name alone |
| ModuleTable.ImportedAgain | rpp_py/plugin_loader.py:31-34 | an imported module is returned again without running its body |
| ModuleTable.NoLoaderNoImport | rpp_py/plugin_loader.py:49-55 | without a loader nothing runs and no name is left |
| ModuleTable.SliceRestoredIff | rpp_py/plugin_loader.py:37-75 | if module bodies only add names, the package's part is restored exactly iff the module was not in the table |
| ModuleTable.AttributesAfterFailure | rpp_py/plugin_loader.py:61-75 | after a failed import an attribute points where it did when the import failed, except that the attribute named like an added module in its parent is gone if it pointed at that module |
| ModuleTable.NothingDanglesIff | rpp_py/plugin_loader.py:61-75 | nothing points at an added module after a failed import iff every attribute that did was its parent's own name for it |
| ModuleTable.OwnNamesAreCleared | rpp_py/plugin_loader.py:67-74 | no package keeps an attribute of a removed submodule's own name that points at it |
| ModuleTable.AliasDangles | rpp_py/plugin_loader.py:67-74 | an import whose body sets another attribute of its package to the module and then raises leaves that attribute pointing at the removed module |
| PluginImports.SysModules.TakeBack | rpp_py/plugin_loader.py:61-75 | in place, removes exactly the added names, deepest first |
| PluginImports.SysModules.ImportModule | rpp_py/plugin_loader.py:27-75 | in place, exactly the import with its cache, its success and its rollback |

## Left out

- Remote calls, event loops and sockets (`rpp_py/capnp_runtime.py`, `rpp_py/rpp_runtime_client_context.py`, `rpp_py/component_call_executor.py` and their neighbours): each call is one request that succeeds or fails.
- `Popen`, waiting, terminating and killing: reaping a child is one request that succeeds or fails; ports, command lines and executable lookup are not modelled.
- File reading in `rpp_py/data_manager.py`: a workspace is a finite table of records, with functions for part and link folders. The storage and registry packages it calls are not part of this model.
- Parameters, clocks, loggers, adapter descriptions and the command-line server: plumbing around the modelled layers.
- Text of messages: results keep success or failure and, where the source promises an original error, which error it was.
- `get_info`, `list` and the escape checks of `with_active` (`rpp_py/plugin_manager.py:55-67`, `271-280`): they change nothing.
- Garbage-collector fallbacks and exceptions that are not `Exception`.
- Wall-clock time: a timed drain may fail at any moment while calls are in flight; an untimed one waits.
- Copying of handover values: values are immutable, so a copy is an equal value, and a copy that raises counts as a failed callback.
- Slot names of contexts: a context has one list of children in slot order, and a successful close empties it. `ComponentContexts.ReversedSlots` says why the order is enough.
- Handing a plugin instance out of a borrow: a loan records which context's root was lent.
- Constructing a call executor does not fail; starting it and calling through it may. A factory that returns something other than a process counts as a factory that failed.
- What a factory without sharing builds: the registry hands it on and never looks at it again.
- Lower-casing outside the ASCII letters, and other white space than the ASCII set.
- Recursion of both build passes is limited by a depth that stands for the interpreter's own limit; exceeding it is an error of that pass.
- Script configuration lookup (`rpp_py/context_builder.py:163-188`): selection in nested dictionaries, easy to state and to prove.
- Imports without relative imports (`rpp_py/plugin_loader.py:19-25`): they do not touch the module table.
- Calls that other threads end while the sequential `PluginManagers.PluginManager` waits: a drain with calls in flight times out there. Waits that others end are in `ManagedEntries.ManagedEntry.Deactivate` and `Unload`, and in `Protocol` (`Drain`).
- `refresh` is one step that returns or raises in the sequential `PluginManagers.PluginManager.Reload`; that it may call the manager is in `Protocol`.
