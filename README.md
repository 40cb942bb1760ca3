# A verified model of the state-transition engine

This project models the core of `StateMachine<TState, TTrigger, TEntity>`, a
generic C# state-transition engine, and proves properties of the model in
Dafny. All of the engine's behaviour lives in that one object and its helper
classes. An entity's state is read and written through an accessor. The
machine keeps a registry of configured states, and each state holds its
trigger-state resolvers. A `Fire` call:

- resolves a request (by trigger, by target state, or autofire) to exactly
  one resolver whose guard is met;
- passes the call through the middleware chain;
- runs the transition pipeline (default entry actions, before-actions, the
  resolver's own action, the commit, after-actions, default exit actions,
  completion callbacks);
- finally chains an autofire request whenever the entity ended in the fired
  resolver's destination.

The model keeps the source's structure:

- **Configuration is imperative.**
  - `Machine.StateMachine` owns a map of `States.State` records; each record
    has dictionaries of resolver lists and action lists.
  - It also owns the lists of default actions and callbacks, a linked chain
    of `Middleware.Handler` objects, and mutable `Options.TransitionOptions`
    objects, which resolvers share by reference.
  - `Machine.StateTransitionManager` is the configuration handle of one
    state.
  - The methods change these objects in place. Their contracts state the new
    state of the registry through `View()`, a value snapshot of the whole
    configuration, and preserve the invariant `Valid()`.
- **The firing engine is a pure specification.**
  - Module `Engine` defines `Resolve`, `Transit` and `Fire` on the snapshot
    `MachineView`.
  - Modules `EngineProperties` and `FireProperties` prove what the engine
    promises: the error conditions, selection, phase order, cancellation,
    autofire chaining, and the path formed by the completed transitions.
- **The imperative `Fire` is proved against it.**
  - `Machine.StateMachine.Fire` walks the real objects: the registry, the
    options objects' live `IsAutofire` flags, the middleware chain, and the
    transition's action log and token.
  - It is proved to return exactly `Engine.Fire` of the snapshot taken when
    it starts.
  - It leaves the entity in the result's state and changes no configuration.
- **User code is opaque.** Actions, callbacks and middleware handlers are
  identified by numbers. A `Behaviour` value says which actions throw, which
  request cancellation while they run, and which callbacks throw. A handler
  either passes the call to its successor or stops it. Guards are predicates
  on an entity snapshot: its state plus opaque data.

Modules and files:

| file | module | models |
|---|---|---|
| wrappers.dfy | Wrappers | `Option` / `Result` in place of null and exceptions |
| options.dfy | Options | `BaseTransitionOptions` and its subclasses, as a type tag and a mutable property bag |
| guards.dfy | Guards | `TransitionGuard` and the entity |
| actions.dfy | Actions | `TransitionAction`, `Transition`, `TransitionActionLog`, `TransitionCompletedEvent`, running action lists |
| resolvers.dfy | Resolvers | the three resolver classes |
| middleware.dfy | Middleware | `TransitionMiddlewareHandler`, `RunMiddlewareHandler` and the chain `UseMiddleware` builds |
| engine.dfy | Engine | resolution, the pipeline and `Fire` on a configuration snapshot |
| engine_props.dfy | EngineProperties | properties of resolution and of the pipeline |
| fire_props.dfy | FireProperties | properties of `Fire` and its autofire chain |
| state.dfy | States | `State` |
| state_machine.dfy | Machine | `StateMachine` and `StateTransitionManager` |

### Behaviour worth knowing

- **Middleware order.** `UseMiddleware` makes each new handler the head of
  the chain and links it to the old head (src/StateTransition/StateMachine.cs:129-134),
  so the most recently added handler runs first (`Middleware.NewestFirst`).
- **ByState errors.** A fire by target state raises "trigger resolver not
  found" only when the current state has no resolver at all
  (src/StateTransition/StateMachine.cs:223-227). With resolvers present but
  none leading to the target, the request is a silent no-op
  (`EngineProperties.ResolveByStateNotFound`, `EngineProperties.ResolveByStateNoMatch`).
- **Cancellation checkpoints.** Cancellation is checked at four points:
  - before an action resolver's own action (src/StateTransition/StateMachine.cs:280);
  - before the commit (src/StateTransition/StateMachine.cs:284);
  - in the after-action and before-action runners, which skip their actions
    when cancellation is already requested (src/StateTransition/State.cs:74, 88).

## Model

| member | source | states |
|---|---|---|
| Guards.NewGuard | src/StateTransition/Transitions/TransitionGuard.cs:11-14 | a null predicate is refused with ArgumentNullException("guard"); otherwise the guard wraps exactly the given predicate |
| Guards.GuardIsMet | src/StateTransition/Transitions/TransitionGuard.cs:7-21 | the `Empty` guard passes every entity; a user guard answers exactly what its predicate answers on the entity |
| Options.TransitionOptions.constructor | src/StateTransition/Transitions/BaseTransitionOptions.cs:3-12 | a new options object has `IsAutofire` off, no custom property set, and a non-null empty `TransitionArgs` exactly when its type derives from the generic subclass |
| Options.TransitionOptions.Apply | src/StateTransition/StateTransitionManager.cs:56 | a user options lambda runs on the object itself: the properties it assigns take its values, every other property keeps its old value, and `TransitionArgs` stays null when it was null |
| Options.EveryTypeIsABase | src/StateTransition/StateTransitionManager.cs:44 | every options type passes the `is BaseTransitionOptions` test |
| Options.IsATransitive | src/StateTransition/StateTransitionManager.cs:44 | the `is TOptions` test is transitive along the class hierarchy |
| Options.Root | src/StateTransition/Transitions/BaseTransitionOptions.cs:3-8 | the top of a type's chain of user subclasses is the base class or one `BaseTransitionOptions<TArgs>`, and the type is assignable to it |
| Options.IsAArgsBase | src/StateTransition/StateTransitionManager.cs:44 | a type passes `is BaseTransitionOptions<A>` exactly when it derives from that very generic subclass, so the subclasses for two payload types are unrelated |
| Options.CarriesArgsMeaning | src/StateTransition/Transitions/BaseTransitionOptions.cs:3-6 | a type has a `TransitionArgs` payload exactly when it is assignable to `BaseTransitionOptions<TArgs>` for some `TArgs` |
| Resolvers.NewResolver | src/StateTransition/Triggers/BaseTriggerStateResolver.cs:15-21 | trigger and destination are stored as given; null options become the shared default instance; a null guard becomes the always-true `Empty` guard |
| Resolvers.NewActionResolver | src/StateTransition/Triggers/TransitionActionTriggerStateResolver.cs:9-16 | a null action is refused with ArgumentNullException("transitionAction"); otherwise the resolver is the base constructor's, with the wrapped action attached |
| Resolvers.Execute | src/StateTransition/Triggers/TransitionActionTriggerStateResolver.cs:18-28 | the attached action runs exactly once; when it throws, the result is a TransitionException carrying the transition as it was, with nothing logged; otherwise the action is logged once; the token is cancelled afterwards exactly when it was before or the action requested it |
| Actions.ExecuteAsync | src/StateTransition/Triggers/ITransitionAction.cs:19-23 | the user action runs and is logged after it completes (the user action itself, not the wrapper); a throwing action leaves the log unchanged |
| Actions.ActionLog.constructor | src/StateTransition/Transitions/Transition.cs:34-39 | every transition's action log starts empty |
| Actions.ActionLog.Log | src/StateTransition/Transitions/Transition.cs:41-44 | `Log` appends at the end and keeps every earlier entry |
| Actions.Transition.constructor | src/StateTransition/Transitions/Transition.cs:7-34 | the fields equal the constructor arguments (they are constants thereafter) and the action log is fresh and empty |
| Actions.Transition.Record | src/StateTransition/Transitions/Transition.cs:22-34 | what a caller observes of a transition: its source, destination, trigger, options and the actions logged so far |
| Actions.RunAll | src/StateTransition/StateMachine.cs:350-364 | the `foreach` over an action list awaits each action in turn, stops at the first one that throws and reports it; log and token end as `RunActions` prescribes |
| Actions.RunActionsLog | src/StateTransition/StateMachine.cs:350-364 | with no throwing action, every action of the list is logged in order after the earlier entries; otherwise the run stops at the first throwing action, reports it, and has logged exactly the actions before it |
| Actions.RunActionsCancellation | src/StateTransition/State.cs:74 | cancellation, once requested, stays requested through a list of actions, and a list no action of which cancels leaves the token as it was |
| Actions.RemoveLast | src/StateTransition/Transitions/Transition.cs:64-70 | removing a delegate takes out one occurrence of it (none when it is absent) and keeps the rest |
| Actions.RemoveLastOccurrence | src/StateTransition/Transitions/Transition.cs:64-70 | removing an absent delegate changes nothing; otherwise exactly its last occurrence is cut out and the other subscribers keep their order |
| Actions.RemoveEach | src/StateTransition/Transitions/Transition.cs:64-70 | removing each callback of a list in turn takes out one occurrence per listed callback |
| Actions.TransitionCompletedEvent.constructor | src/StateTransition/Transitions/Transition.cs:47-49 | a new completion event has no subscribers |
| Actions.TransitionCompletedEvent.Subscribe | src/StateTransition/Transitions/Transition.cs:56-62 | the callbacks are added after the existing subscribers, in order |
| Actions.TransitionCompletedEvent.Unsubscribe | src/StateTransition/Transitions/Transition.cs:64-70 | the callbacks of the list are removed one after the other, each by `RemoveLast`, so one occurrence per callback goes and the rest keep their order |
| Actions.TransitionCompletedEvent.Invoke | src/StateTransition/Transitions/Transition.cs:51-54 | every subscriber is called once, in subscription order, and with none it is a no-op; a throwing callback stops the invocation after the ones before it and its exception propagates |
| Actions.SubscribeThenUnsubscribe | src/StateTransition/Transitions/Transition.cs:56-70 | unsubscribing the list that was subscribed to a fresh event leaves no subscribers |
| Middleware.Handler.Run | src/StateTransition/Transitions/TransitionMiddlewareHandler.cs:23-35 | builds the terminal handler, unlinked, with the terminal view that `Deliver` and `Handle` treat as reaching the transition without consulting `Next` |
| Middleware.Handler.SetNext | src/StateTransition/Transitions/TransitionMiddlewareHandler.cs:15-18 | `SetNext` replaces the successor and changes nothing else |
| Middleware.Handler.Handle | src/StateTransition/Transitions/TransitionMiddlewareHandler.cs:7-35 | walking the linked chain: the terminal handler runs the transition once and ignores `Next`; a user handler either stops or passes the call to `Next`; without `Next` the base implementation does nothing; the walk is `Deliver` applied to the chain's views |
| Middleware.DeliverWalk | src/StateTransition/Transitions/TransitionMiddlewareHandler.cs:7-13 | a chain that ends in the terminal handler delivers the call exactly when every user handler before it passes it on, and it then enters all of them in chain order |
| Middleware.NewestFirst | src/StateTransition/StateMachine.cs:121-135 | when every handler passes the call on, handlers run in the reverse of their registration order and then the transition runs |
| Middleware.PipelinePush | src/StateTransition/StateMachine.cs:129-134 | a later `UseMiddleware` puts the new handler in front of the existing chain |
| Middleware.PipelineDelivers | src/StateTransition/StateMachine.cs:99-106 | a fire reaches the transition through the chain exactly when every registered handler passes the call on |
| Engine.ResolversBy | src/StateTransition/State.cs:38-41 | exactly the resolvers registered under the trigger, in order (self-loops included); none for an unknown trigger |
| Engine.AutofireResolvers | src/StateTransition/State.cs:43-48 | every autofire candidate has `IsAutofire` set at fire time and leads away from the current state, so autofire never selects a self-loop |
| Engine.SelectSuitable | src/StateTransition/StateMachine.cs:320-333 | more than one suitable candidate is AmbiguousTriggerResolver with the first one's destination, none is no candidate, exactly one is that candidate |
| Engine.Resolve | src/StateTransition/StateMachine.cs:182-218 | an unregistered current state is StateNotConfigured; a finite state yields nothing to fire; a selected resolver comes from a registered, non-finite state and leads to a registered state |
| EngineProperties.FilterMembership | src/StateTransition/State.cs:47 | `Where` keeps exactly the elements that pass the test |
| EngineProperties.AutofireCandidates | src/StateTransition/State.cs:43-48 | a resolver is an autofire candidate exactly when it belongs to the state, its options have `IsAutofire` set at fire time, and it leads to another state |
| EngineProperties.ConcatEmpty | src/StateTransition/State.cs:33-36 | the concatenation of the per-trigger lists is empty exactly when every list is empty |
| EngineProperties.FireUnconfiguredState | src/StateTransition/StateMachine.cs:186-189 | a fire from an unregistered state fails with StateNotConfigured, and the entity, the token and the completed transitions are untouched |
| EngineProperties.FireFiniteNoOp | src/StateTransition/StateMachine.cs:191-194 | a fire from a finite state does nothing, for every request kind |
| EngineProperties.FireResolutionErrorIsClean | src/StateTransition/StateMachine.cs:182-218 | every resolution error ends the fire before any action runs, with the entity and token untouched; resolution raises only the four resolution errors |
| EngineProperties.ResolveByTriggerNotFound | src/StateTransition/StateMachine.cs:240-247 | by trigger, the not-found error is raised exactly when no resolver is registered under the trigger |
| EngineProperties.ResolveByStateNotFound | src/StateTransition/StateMachine.cs:220-227 | by state, the not-found error is raised exactly when every resolver list of the current state is empty, whatever the target |
| EngineProperties.ResolveByStateNoMatch | src/StateTransition/StateMachine.cs:229-238 | by state, with resolvers present but none leading to the target with its guard met, the request is a silent no-op |
| EngineProperties.ResolveAutofireNeverNotFound | src/StateTransition/StateMachine.cs:298-318 | an autofire request never raises a not-found error |
| EngineProperties.ResolveAutofireNoCandidate | src/StateTransition/StateMachine.cs:303-307 | with no autofire candidate, an autofire request is a silent no-op |
| EngineProperties.ResolveAmbiguous | src/StateTransition/StateMachine.cs:320-329 | two or more suitable candidates raise AmbiguousTriggerResolver naming the destination of the first suitable candidate in registration order |
| EngineProperties.ResolveUnique | src/StateTransition/StateMachine.cs:320-333 | no suitable candidate is a no-op; exactly one is selected, or refused with StateNotConfigured when its destination is unregistered |
| EngineProperties.SelectedIsEligible | src/StateTransition/StateMachine.cs:335-343 | the selected resolver's guard is met; for a trigger request it is filed under that trigger; for a state request it leads to that state; for autofire it is flagged autofire and leaves the current state |
| EngineProperties.RunActionsComplete | src/StateTransition/StateMachine.cs:350-364 | a list none of whose actions throw runs to the end and logs them all, and the token ends cancelled exactly when it was or some action requested it |
| EngineProperties.RunActionsCancelledBy | src/StateTransition/State.cs:88 | after a list whose actions do not throw, the token is cancelled exactly when it was before or some action of the list requested it |
| EngineProperties.TransitOrder | src/StateTransition/StateMachine.cs:260-296 | with nothing throwing or cancelling, a transition commits, and its log is: default entry actions, before-actions for the destination, own action, the destination's after-actions for this source, default exit actions, each group in registration order |
| EngineProperties.TransitEntryFailure | src/StateTransition/StateMachine.cs:273 | an entry action that throws aborts before the commit with its own exception, unwrapped, and only the entry actions before it completed |
| EngineProperties.TransitActionFailure | src/StateTransition/StateMachine.cs:277-282 | the resolver's own action that throws becomes a TransitionException carrying the transition logged so far, and the entity keeps its state |
| EngineProperties.TransitCancelledByAction | src/StateTransition/StateMachine.cs:284-289 | cancellation requested during the own action is seen before the commit: OperationCanceled, the entity keeps its state, and no after-action, exit action or callback runs |
| EngineProperties.TransitCancelled | src/StateTransition/StateMachine.cs:271-289 | whatever the token and the user code do, OperationCanceled is raised only before the commit: the entity keeps its state and the log holds the entry actions, then possibly the before-actions, then possibly the own action, so no after-action, exit action or callback has run |
| EngineProperties.OwnActionCancelled | src/StateTransition/StateMachine.cs:276-284 | a cancellation raised at the own-action or the commit checkpoint leaves the entity at its state and adds at most the own action to the log |
| EngineProperties.CommitCancelled | src/StateTransition/StateMachine.cs:284-286 | the checkpoint before the commit is the last place OperationCanceled is raised, and it adds nothing to the log |
| EngineProperties.TransitCancelledByEntry | src/StateTransition/StateMachine.cs:271-284 | a token cancelled up front or by a default entry action, with no entry action throwing, gives OperationCanceled at the first checkpoint, after exactly the entry actions and before any before-action |
| EngineProperties.TransitCancelledByBefore | src/StateTransition/StateMachine.cs:273-284 | cancellation requested by a before-action, on a resolver with or without its own action, gives OperationCanceled after all the before-actions and before the own action |
| EngineProperties.TransitCancelledUpFront | src/StateTransition/StateMachine.cs:273-284 | with the token already cancelled, a transition never commits; it fails with OperationCanceled or an entry action's exception, having run at most the default entry actions |
| EngineProperties.TransitAfterFailure | src/StateTransition/StateMachine.cs:286-289 | a throwing after-action fails the fire after the commit, so the entity is already in the destination |
| EngineProperties.TransitExitFailure | src/StateTransition/StateMachine.cs:291 | a throwing default exit action fails the fire after the commit, so the entity is already in the destination |
| EngineProperties.TransitCallbackFailure | src/StateTransition/StateMachine.cs:293 | a throwing completion callback fails the fire after every action ran and the state was committed, carrying the finished transition |
| EngineProperties.TransitCommittedRecord | src/StateTransition/StateMachine.cs:266-271 | a committed transition records the source state and the resolver's destination, trigger and options |
| EngineProperties.OwnActionQuiet | src/StateTransition/StateMachine.cs:277-284 | an own action that neither throws nor cancels runs, is logged, and leads to the commit checkpoint |
| FireProperties.FireSelects | src/StateTransition/StateMachine.cs:97-106 | a selected resolver goes through the middleware chain, and once delivered, into the transition pipeline |
| FireProperties.FireAborted | src/StateTransition/StateMachine.cs:99-113 | an aborted transition ends the fire with its error and no autofire follows; the entity is in the destination only when the abort came after the commit |
| FireProperties.FireThenAutofires | src/StateTransition/StateMachine.cs:108-113 | a committed transition leaves the entity in the destination and is followed by an autofire request from there, on the same token |
| FireProperties.FireChainStops | src/StateTransition/StateMachine.cs:108-113 | the chain stops after a transition whose destination is finite or offers no autofire candidate; the fire then completed exactly that one transition |
| FireProperties.FireBlocked | src/StateTransition/StateMachine.cs:99-113 | a middleware that does not pass the call on stops every transition: the entity keeps its state, nothing completes and the token is untouched, along the whole chain |
| FireProperties.FireCancelledUpFront | src/StateTransition/StateMachine.cs:260-286 | with the token already cancelled, a fire that selects a resolver fails without changing the entity's state or completing any transition |
| FireProperties.FirePath | src/StateTransition/StateMachine.cs:90-114 | the transitions one fire completes form a path from the entity's state: each starts where the previous one ended, every autofired one leaves its source, and a fire that succeeds leaves the entity where the path ends |
| States.Mapped | src/StateTransition/State.cs:22-31 | after `MapTo` the trigger's list is the old list plus the resolver at the end (duplicates kept), a new trigger becomes the last key, and nothing else changes |
| States.MappedEnumeration | src/StateTransition/State.cs:22-36 | in the enumeration of all resolvers, a resolver for a new trigger comes last, one for a known trigger comes right after that trigger's others, and every other resolver keeps its place |
| States.WithBefore | src/StateTransition/State.cs:50-59 | the action becomes the last before-action for the destination, and nothing else changes |
| States.WithAfter | src/StateTransition/State.cs:61-70 | the action becomes the last after-action for the source, and nothing else changes |
| States.State.constructor | src/StateTransition/State.cs:13-20 | `Current` and `IsFinite` are fixed at construction, and the record starts with no resolvers and no actions |
| States.State.MapTo | src/StateTransition/State.cs:22-31 | `MapTo` changes the record exactly as `Mapped` says |
| States.State.BeforeTransitionTo | src/StateTransition/State.cs:50-59 | `BeforeTransitionTo` changes the record exactly as `WithBefore` says |
| States.State.AfterTransitionFrom | src/StateTransition/State.cs:61-70 | `AfterTransitionFrom` changes the record exactly as `WithAfter` says |
| States.State.RunActionsBefore | src/StateTransition/State.cs:86-98 | unless the transition returns to this state or cancellation is already requested, the before-actions registered for the destination run in registration order; otherwise nothing runs |
| States.State.RunActionsAfter | src/StateTransition/State.cs:72-84 | unless the transition came from this state or cancellation is requested, the after-actions registered for the source run in order; otherwise nothing runs |
| Machine.FirstClashMeaning | src/StateTransition/StateMachine.cs:49-63 | the states before the first clash are new and pairwise distinct, and the clashing one is registered already or repeats an earlier one |
| Machine.LiveAutofireIsSnapshot | src/StateTransition/State.cs:43-48 | the autofire candidates read from the live `IsAutofire` flags are those of the snapshot taken at fire time |
| Machine.MapTransition | src/StateTransition/StateTransitionManager.cs:111-122 | a transition with an action becomes an action resolver, one without becomes a plain resolver; the options are the given ones, else the machine's default, else the shared instance |
| Machine.NewOptions | src/StateTransition/StateMachine.cs:146-147 | `new TOptions()` followed by the optional lambda yields a fresh object of that type carrying only the lambda's assignments |
| Machine.AddFiniteStates | src/StateTransition/StateMachine.cs:51-62 | the loop files a fresh finite blank record for each state up to the first one already configured, and stops there; earlier records are kept |
| Machine.TransitPhase | src/StateTransition/StateMachine.cs:260-284 | `FireTransition` on the real objects ends as `Transit` says on the snapshot; the entity is in the destination exactly when the transition got past the commit |
| Machine.OwnActionPhase | src/StateTransition/StateMachine.cs:277-284 | the own-action checkpoint and action on the real objects end as `OwnAction` says |
| Machine.CommitPhase | src/StateTransition/StateMachine.cs:284-296 | the last checkpoint, the state write, the after-actions, the exit actions and the callbacks on the real objects end as `Commit` says |
| Machine.ResolveOn | src/StateTransition/StateMachine.cs:182-218 | resolution on the live objects, reading `IsAutofire` now, gives `Resolve` of the snapshot |
| Machine.FireOn | src/StateTransition/StateMachine.cs:90-98 | the imperative `Fire` gives `Engine.Fire` of the snapshot and leaves the entity in the result's state |
| Machine.PassOn | src/StateTransition/StateMachine.cs:99-106 | passing the call through the middleware chain gives `Engine.Resolved` |
| Machine.TransitOn | src/StateTransition/StateMachine.cs:101 | the terminal handler's run gives `Engine.Delivered` |
| Machine.ThenAutofireOn | src/StateTransition/StateMachine.cs:108-113 | the autofire recursion gives `Engine.ThenAutofire` |
| Machine.StateMachine.constructor | src/StateTransition/StateMachine.cs:10-30 | a new machine has no states, actions, callbacks, middleware or default options |
| Machine.StateMachine.ViewWellFormed | src/StateTransition/StateMachine.cs:10 | the registry of a valid machine files every record under its own state, with a well-keyed resolver dictionary whose options are all known |
| Machine.StateMachine.GetOrConfigure | src/StateTransition/StateMachine.cs:366-375 | an existing record is returned unchanged, even a finite one; a new state gets a fresh non-finite blank record, and nothing else changes |
| Machine.StateMachine.AddState | src/StateTransition/StateMachine.cs:370-371 | a fresh record with the given finiteness is filed under the new state |
| Machine.StateMachine.Configure | src/StateTransition/StateMachine.cs:40-43 | the handle's state is the machine's record of that state, registered first when it is new |
| Machine.StateMachine.SetFiniteState | src/StateTransition/StateMachine.cs:49-63 | each unregistered state is added as finite, in order; the first one already registered (or repeated) raises AmbiguousStateConfiguration, and the states before it stay registered |
| Machine.StateMachine.AddDefaultEntryAction | src/StateTransition/StateMachine.cs:79-82 | the action is appended to the default entry actions and nothing else changes |
| Machine.StateMachine.AddDefaultExitAction | src/StateTransition/StateMachine.cs:70-73 | the action is appended to the default exit actions and nothing else changes |
| Machine.StateMachine.OnTransitionCompleted | src/StateTransition/StateMachine.cs:156-159 | the callback is appended to the completion callbacks and nothing else changes |
| Machine.StateMachine.UseMiddleware | src/StateTransition/StateMachine.cs:121-135 | the new handler becomes the head; the first one is linked to a terminal handler, a later one to the previous head; calls reach the transition exactly when they did before and the new handler passes them on |
| Machine.StateMachine.LinkFirst | src/StateTransition/StateMachine.cs:123-128 | the first handler is linked to a fresh terminal handler |
| Machine.StateMachine.LinkFront | src/StateTransition/StateMachine.cs:129-134 | a later handler is linked to the previous head and becomes the head |
| Machine.StateMachine.InitDefaultStateTransitionOptions | src/StateTransition/StateMachine.cs:144-150 | a fresh options object of the type, with the optional lambda applied, becomes the default; resolvers configured earlier keep their options |
| Machine.StateMachine.AddOptions | src/StateTransition/StateTransitionManager.cs:53 | a fresh options object of the type, with the lambda applied, joins the objects resolvers may use |
| Machine.StateMachine.MutateDefault | src/StateTransition/StateTransitionManager.cs:49-56 | the custom lambda runs on the default instance itself, and every resolver sharing it sees the new `IsAutofire` at the next fire |
| Machine.StateMachine.MapOn | src/StateTransition/StateTransitionManager.cs:118-120 | `MapTo` on a registered record, as `Mapped` says |
| Machine.StateMachine.MapOnFresh | src/StateTransition/StateTransitionManager.cs:52-57 | without a default, the resolver gets a fresh object carrying only the custom assignments |
| Machine.StateMachine.MapOnDefault | src/StateTransition/StateTransitionManager.cs:44-57 | with a default, the resolver gets that very instance, mutated in place: the default's other fields persist and the custom ones override |
| Machine.StateMachine.BeforeOn | src/StateTransition/StateTransitionManager.cs:92 | the before-action joins the record, as `WithBefore` says |
| Machine.StateMachine.AfterOn | src/StateTransition/StateTransitionManager.cs:107 | the after-action joins the record, as `WithAfter` says |
| Machine.StateMachine.AfterOnNew | src/StateTransition/StateTransitionManager.cs:101-107 | a new destination is registered non-finite and receives the after-action |
| Machine.StateMachine.AfterOnDestination | src/StateTransition/StateTransitionManager.cs:101-107 | the destination's record, registered first when new, gains the action for arrivals from the source |
| Machine.StateMachine.Fire | src/StateTransition/StateMachine.cs:90-114 | `Fire` returns exactly what `Engine.Fire` says of the configuration snapshot taken when it starts; it leaves the entity in the result's state and the configuration and middleware routing unchanged |
| Machine.StateTransitionManager.constructor | src/StateTransition/StateTransitionManager.cs:11-16 | the handle holds its state's record and the machine |
| Machine.StateTransitionManager.AddTransitionTo | src/StateTransition/StateTransitionManager.cs:73-80 | the state gains a resolver that uses the default options present at configuration time, else the shared instance |
| Machine.StateTransitionManager.AddTransitionToWith | src/StateTransition/StateTransitionManager.cs:33-58 | a default that is not a `TOptions` fails with a type mismatch naming both types, adding nothing; a missing lambda fails once the object is chosen, changing nothing; otherwise the resolver holds the default instance mutated in place, or a fresh object carrying only the custom assignments |
| Machine.StateTransitionManager.BeforeTransitionTo | src/StateTransition/StateTransitionManager.cs:85-94 | a null action raises ArgumentNullException and changes nothing; otherwise the action joins this state's before-actions for the destination |
| Machine.StateTransitionManager.AfterTransitionTo | src/StateTransition/StateTransitionManager.cs:99-109 | the destination is looked up or registered non-finite first, even when the action is null and then raises ArgumentNullException; otherwise the action joins the destination's after-actions for this source |

## Left out

- `async`, `Task`, `await` and the `AsyncLocal` slots are left out. The model is the sequential run of one `Fire`, and its per-call context is method locals.
- Concurrent fires and thread safety are left out, including the parallel-firing test.
- The linked `CancellationTokenSource` is not modelled as a separate object. Nothing but the request's token can cancel it, so one flag stands for both. The flag is read at the points where the code reads it.
- Reflection is replaced by explicit code:
  - the expression-tree setter (`AssignStateToEntityAction`) becomes a write of the entity's `state` field;
  - `Activator.CreateInstance<TOptions>()` becomes a constructor call on a type tag;
  - the `is TOptions` test becomes the relation `IsA` on type tags. Each `BaseTransitionOptions<TArgs>` has its own tag, named by its payload type, and a user subclass's tag names its parent's tag.
- `GetTransitionsGraph` (Mermaid text) and all exception message strings are left out: they are string formatting. Errors are datatype variants.
- The `InvalidOperationException` for an unknown request type is left out: the request is a closed three-case datatype.
- The bodies of user actions, guards, options lambdas, completion callbacks and middleware handlers are opaque:
  - an oracle `Behaviour` says which actions throw or request cancellation and which callbacks throw;
  - a lambda is the set of assignments it makes;
  - a handler either passes the call on or stops it. Code a handler runs before or after passing the call on is not modelled.
- Machine.StateMachine.UseMiddleware: requires a handler that is not already registered and not a terminal handler. Registering the same handler object twice would make the linked chain cyclic; this is not modelled. A null handler is not modelled either.
- Machine.StateMachine.AddDefaultEntryAction and Machine.StateMachine.AddDefaultExitAction take an action id, so a null action cannot be passed. The source accepts null there, and every later fire then fails with a NullReferenceException when the wrapper runs it (src/StateTransition/Transitions/ITransitionAction.cs:21). A null completion callback, by contrast, is harmless and needs no model.
- Machine.StateMachine.Fire: the `Behaviour` of each action, callback and middleware handler is fixed for the whole fire, autofire steps included. A handler that passes the first call and stops a later autofire request is not modelled, and `FireProperties.FireBlocked` relies on this. User code is also assumed never to write the entity's data or state, or an options object, during a fire. The contract's `e.data == old(e.data)` relies on this, and so does reading the `IsAutofire` flags and the guard data once per fire. The source re-reads them at every autofire step (src/StateTransition/State.cs:47) and hands the options object itself to actions and handlers.
- Exceptions from entry, before, after and exit actions propagate unwrapped in the source. The model names them `ActionException` with the action's id; a throwing callback is `CallbackException`.
- Machine.StateMachine.Fire: the autofire recursion is bounded by a `fuel` parameter. The source does not bound it, and loops forever on an autofire cycle. Running out of fuel ends the fire with `FuelExhausted`, which has no counterpart in the source.
- `BaseTransitionOptions.Default` is a static instance shared by every machine. It is modelled as one instance per machine (`shared`), created non-autofire.
- The entity's data other than its state is an opaque integer that guards may read.
- The builder methods of `StateTransitionManager` return the manager itself for chaining. The model's methods return a success-or-error result instead; chaining is the caller holding the same handle.
- Middleware.Handler.Handle: requires the ghost list of the chain it walks, which the machine's invariant provides.
