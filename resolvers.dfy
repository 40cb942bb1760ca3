/**
 * Trigger-state resolvers (src/StateTransition/Triggers/BaseTriggerStateResolver.cs,
 * TransitionTriggerStateResolver.cs and TransitionActionTriggerStateResolver.cs).
 *
 * A resolver is an immutable value, but it holds a reference to a mutable
 * options object that other resolvers may share.
 */
module Resolvers {
  import opened Wrappers
  import opened Options
  import opened Guards
  import opened Actions

  /** A plain resolver has no action (`TransitionTriggerStateResolver`); an
      action resolver carries the wrapped action (`TransitionActionTriggerStateResolver`). */
  datatype Resolver<!S, T> = Resolver(trigger: T, destination: S, options: TransitionOptions, guard: Guard<S>, action: Option<TransitionAction>)

  /** The base constructor: a null options argument becomes the shared
      default instance `shared`, a null guard the always-true `Empty` guard. */
  function NewResolver<S, T>(trigger: T, destination: S, options: TransitionOptions?,
                             guard: Option<Snapshot<S> -> bool>, shared: TransitionOptions): (r: Resolver<S, T>)
    ensures r.trigger == trigger && r.destination == destination && r.action.None?
    ensures r.options == if options == null then shared else options
    ensures guard.None? ==> r.guard == Empty
    ensures guard.Some? ==> r.guard == When(guard.value)
  {
    var g := if guard.None? then Empty else NewGuard(guard).value;
    Resolver(trigger, destination, if options == null then shared else options, g, None)
  }

  /** The action resolver's constructor: a null action raises
      ArgumentNullException; otherwise the fields are the base constructor's. */
  function NewActionResolver<S, T>(trigger: T, destination: S, options: TransitionOptions?,
                                   guard: Option<Snapshot<S> -> bool>, action: Option<ActionId>,
                                   shared: TransitionOptions): (r: Result<Resolver<S, T>, ArgumentNull>)
    ensures action.None? <==> r.Failure?
    ensures r.Failure? ==> r.error == ArgumentNull("transitionAction")
    ensures r.Success? ==> r.value.action == Some(TransitionAction(action.value))
    ensures r.Success? ==> r.value.(action := None) == NewResolver(trigger, destination, options, guard, shared)
  {
    match action
    case None => Failure(ArgumentNull("transitionAction"))
    case Some(a) => Success(NewResolver(trigger, destination, options, guard, shared).(action := Some(TransitionAction(a))))
  }

  /** `Execute`: runs the attached action exactly once; any exception it
      raises (also one it raises for cancellation) is rewrapped as a
      TransitionException carrying the same transition. */
  method Execute<S, T>(r: Resolver<S, T>, t: Transition<S, T>, beh: Behaviour) returns (failure: Option<TransitionRecord<S, T>>)
    requires r.action.Some?
    modifies t.actionLog, t.token
    ensures failure.Some? <==> r.action.value.inner in beh.throws
    ensures failure.Some? ==> failure.value == old(t.Record()) && t.actionLog.actions == old(t.actionLog.actions)
    ensures failure.None? ==> t.actionLog.actions == old(t.actionLog.actions) + [r.action.value.inner]
    ensures t.token.requested == (old(t.token.requested) || r.action.value.inner in beh.cancels)
  {
    var threw := ExecuteAsync(r.action.value, t, beh);
    failure := if threw then Some(t.Record()) else None;
  }
}
