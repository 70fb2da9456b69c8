/**
 * Plugin callback dispatch: what a raw callback reply means, and which
 * handover values a plugin accepts or may export.
 */
module Plugins {
  import opened Lifecycle

  type TypeName = string

  /** A handover value with every class it is an instance of. Copies are equal values. */
  datatype Value = Value(classes: set<TypeName>, payload: int)

  /** A plugin class; `handover` is its HANDOVER_STATE_TYPE. */
  datatype PluginClass = PluginClass(handover: Option<TypeName>)

  /** What user code did when it was called. */
  datatype Raw =
    | Threw(what: int)
    | GaveCallback(ok: bool)
    | GaveDeactivation(ok: bool, state: Option<Value>)
    | GaveOther

  datatype Fault = CallbackThrew(what: int) | WrongResultType | Refused | StateRejected

  /** `_validate_state` returns normally. */
  predicate Accepts(p: PluginClass, state: Option<Value>) {
    state.None? || (p.handover.Some? && p.handover.value in state.value.classes)
  }

  /** The positional arguments `activate_state` hands to `on_activate`. */
  function ActivateArgs(p: PluginClass, state: Option<Value>): seq<Option<Value>> {
    if p.handover.None? then [] else [state]
  }

  /** `_invoke_lifecycle` followed by `_require_callback_result`. */
  function CallbackFault(raw: Raw): Option<Fault> {
    match raw
    case Threw(what) => Some(CallbackThrew(what))
    case GaveCallback(ok) => if ok then None else Some(Refused)
    case GaveDeactivation(_, _) => Some(WrongResultType)
    case GaveOther => Some(WrongResultType)
  }

  /** Why `deactivate_state` raises, if it does. */
  function DeactivateFault(p: PluginClass, raw: Raw): Option<Fault> {
    if p.handover.None? then
      CallbackFault(raw)
    else
      match raw
      case Threw(what) => Some(CallbackThrew(what))
      case GaveDeactivation(ok, state) =>
        if !ok then Some(Refused) else if Accepts(p, state) then None else Some(StateRejected)
      case GaveCallback(_) => Some(WrongResultType)
      case GaveOther => Some(WrongResultType)
  }

  /** The state `deactivate_state` returns once it has not raised. */
  function Exported(p: PluginClass, raw: Raw): Option<Value> {
    if p.handover.Some? && raw.GaveDeactivation? then raw.state else None
  }

  /** An exported snapshot activates any implementation of the same handover type. */
  lemma ExportActivatesSameType(p: PluginClass, q: PluginClass, raw: Raw)
    requires DeactivateFault(p, raw).None?
    ensures Accepts(p, Exported(p, raw))
    ensures q.handover == p.handover ==> Accepts(q, Exported(p, raw))
    ensures p.handover.None? ==> Exported(p, raw).None?
  {
  }
}
