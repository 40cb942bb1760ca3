/**
 * The firing engine as pure functions over a snapshot of the configuration
 * (src/StateTransition/StateMachine.cs: Fire, TryGetRequiredTriggerStateResolverFor,
 * both CanFire, CanAutofireTransitionToNextState,
 * TryFindSuitableTransitionTriggerStateResolver, FireTransition; and the
 * queries and action runners of src/StateTransition/State.cs).
 *
 * The snapshot is taken when a fire starts. Resolvers hold references to
 * mutable options objects; `autofire` records the `IsAutofire` flag of each
 * of them at that moment.
 */
module Engine {
  import opened Wrappers
  import opened Options
  import opened Guards
  import opened Actions
  import opened Resolvers

  /** A configured `State`: resolver lists per trigger (`triggers` gives the
      dictionary's insertion order), before-actions by destination and
      after-actions by source. */
  datatype StateView<!S(==), T(==)> = StateView(current: S, isFinite: bool, triggers: seq<T>,
                                                byTrigger: map<T, seq<Resolver<S, T>>>,
                                                before: map<S, seq<TransitionAction>>,
                                                after: map<S, seq<TransitionAction>>)

  /** The registry, the machine-wide lists and the options flags. */
  datatype MachineView<!S(==), T(==)> = MachineView(states: map<S, StateView<S, T>>, entry: seq<TransitionAction>,
                                                    exit: seq<TransitionAction>, callbacks: seq<CallbackId>,
                                                    autofire: map<TransitionOptions, bool>)

  /** The three request kinds; entity and token are passed beside them. */
  datatype Request<S, T> = ByTrigger(trigger: T) | ByState(state: S) | Autofire

  datatype Error<S, T> =
    | StateNotConfigured(state: S)
    | TriggerResolverNotFoundForTrigger(trigger: T)
    | TriggerResolverNotFoundForState(target: S)
    | AmbiguousTriggerResolver(destination: S)
    | TransitionException(transition: TransitionRecord<S, T>)
    | OperationCanceled
    | ActionException(action: ActionId)
    | CallbackException(callback: CallbackId, transition: TransitionRecord<S, T>)
    | FuelExhausted

  /** Every registered state is filed under its own value, every resolver
      under its own trigger, each trigger once, and every options object
      has a recorded flag. */
  ghost predicate WellFormed<S, T>(m: MachineView<S, T>) {
    forall s :: s in m.states ==> m.states[s].current == s && StateWellFormed(m.states[s], m.autofire)
  }

  ghost predicate StateWellFormed<S, T>(sv: StateView<S, T>, autofire: map<TransitionOptions, bool>) {
    && Keyed(sv)
    && (forall t, i :: t in sv.byTrigger && 0 <= i < |sv.byTrigger[t]| ==> sv.byTrigger[t][i].options in autofire)
  }

  /** The trigger dictionary: each key once, in `triggers`, and every
      resolver listed under its own trigger. */
  ghost predicate Keyed<S, T>(sv: StateView<S, T>) {
    && (forall i, j :: 0 <= i < j < |sv.triggers| ==> sv.triggers[i] != sv.triggers[j])
    && (forall t :: t in sv.byTrigger ==> t in sv.triggers)
    && (forall i :: 0 <= i < |sv.triggers| ==> sv.triggers[i] in sv.byTrigger)
    && (forall t, i :: t in sv.byTrigger && 0 <= i < |sv.byTrigger[t]| ==> sv.byTrigger[t][i].trigger == t)
  }

  // ----- list utilities -------------------------------------------------

  /** The values of `m` for the keys `ks`, concatenated in key order (`SelectMany`). */
  function Concat<K, X>(ks: seq<K>, m: map<K, seq<X>>): seq<X>
    decreases |ks|
  {
    if ks == [] then [] else (if ks[0] in m then m[ks[0]] else []) + Concat(ks[1..], m)
  }

  /** `Where`: the elements satisfying `p`, in their order. */
  function Filter<X>(s: seq<X>, p: X -> bool): (r: seq<X>)
    ensures |r| <= |s|
    ensures forall i :: 0 <= i < |r| ==> p(r[i]) && r[i] in s
    decreases |s|
  {
    if s == [] then [] else (if p(s[0]) then [s[0]] else []) + Filter(s[1..], p)
  }

  // ----- State.cs queries -----------------------------------------------

  /** `GetAllAvailableTriggersStateResolvers`. */
  function AllResolvers<S, T>(sv: StateView<S, T>): seq<Resolver<S, T>> {
    Concat(sv.triggers, sv.byTrigger)
  }

  /** `GetTransitionTriggerStateResolversBy`. */
  function ResolversBy<S, T>(sv: StateView<S, T>, t: T): (rs: seq<Resolver<S, T>>)
    ensures Keyed(sv) ==> forall i :: 0 <= i < |rs| ==> rs[i].trigger == t
    ensures t !in sv.byTrigger ==> rs == []
  {
    if t in sv.byTrigger then sv.byTrigger[t] else []
  }

  /** The fire-time `IsAutofire` of a resolver's options. */
  function IsAutofire<S, T>(m: MachineView<S, T>, r: Resolver<S, T>): bool {
    r.options in m.autofire && m.autofire[r.options]
  }

  /** `GetAutoFiredTransitionTriggerStateResolvers`: autofire flag set, and
      not a loop back to this state. */
  function AutofireResolvers<S, T>(m: MachineView<S, T>, sv: StateView<S, T>): (rs: seq<Resolver<S, T>>)
    ensures forall i :: 0 <= i < |rs| ==> IsAutofire(m, rs[i]) && rs[i].destination != sv.current
  {
    Filter(AllResolvers(sv), AutofireFilter(m, sv.current))
  }

  function AutofireFilter<S, T>(m: MachineView<S, T>, current: S): Resolver<S, T> -> bool {
    (r: Resolver<S, T>) => IsAutofire(m, r) && r.destination != current
  }

  function BeforeActions<S, T>(sv: StateView<S, T>, destination: S): seq<TransitionAction> {
    if destination in sv.before then sv.before[destination] else []
  }

  function AfterActions<S, T>(sv: StateView<S, T>, source: S): seq<TransitionAction> {
    if source in sv.after then sv.after[source] else []
  }

  // ----- resolution (StateMachine.cs:182-348) ---------------------------

  /** `TryFindSuitableTransitionTriggerStateResolver`: more than one suitable
      candidate is ambiguous (reported with the first one's destination), none
      is no candidate, exactly one is the candidate. */
  function SelectSuitable<S, T>(candidates: seq<Resolver<S, T>>, suitable: Resolver<S, T> -> bool)
    : (r: Result<Option<Resolver<S, T>>, Error<S, T>>)
    ensures var f := Filter(candidates, suitable);
      && (|f| > 1 <==> r.Failure?)
      && (|f| > 1 ==> r.error == AmbiguousTriggerResolver(f[0].destination))
      && (|f| == 0 <==> r == Success(None))
      && (|f| == 1 ==> r == Success(Some(f[0])))
  {
    var f := Filter(candidates, suitable);
    if |f| > 1 then Failure(AmbiguousTriggerResolver(f[0].destination))
    else if |f| == 1 then Success(Some(f[0]))
    else Success(None)
  }

  function GuardPasses<S, T>(e: Snapshot<S>): Resolver<S, T> -> bool {
    (r: Resolver<S, T>) => GuardIsMet(r.guard, e)
  }

  function LeadsToAndPasses<S(==), T>(target: S, e: Snapshot<S>): Resolver<S, T> -> bool {
    (r: Resolver<S, T>) => target == r.destination && GuardIsMet(r.guard, e)
  }

  /** `CanFire(FireByTriggerRequest)`. */
  function CanFireByTrigger<S, T>(sv: StateView<S, T>, t: T, e: Snapshot<S>): Result<Option<Resolver<S, T>>, Error<S, T>> {
    var rs := ResolversBy(sv, t);
    if rs == [] then Failure(TriggerResolverNotFoundForTrigger(t))
    else SelectSuitable(rs, GuardPasses(e))
  }

  /** `CanFire(FireByStateRequest)`: the error is raised only when the state
      has no resolver at all; candidates are then those leading to `target`. */
  function CanFireByState<S, T>(sv: StateView<S, T>, target: S, e: Snapshot<S>): Result<Option<Resolver<S, T>>, Error<S, T>> {
    var rs := AllResolvers(sv);
    if rs == [] then Failure(TriggerResolverNotFoundForState(target))
    else SelectSuitable(rs, LeadsToAndPasses(target, e))
  }

  /** `CanAutofireTransitionToNextState`: no autofire candidate is no error. */
  function CanAutofire<S, T>(m: MachineView<S, T>, sv: StateView<S, T>, e: Snapshot<S>): Result<Option<Resolver<S, T>>, Error<S, T>> {
    var rs := AutofireResolvers(m, sv);
    if rs == [] then Success(None)
    else SelectSuitable(rs, GuardPasses(e))
  }

  /** `TryGetRequiredTriggerStateResolverFor`: the resolver to fire, none
      (nothing to do), or the error raised before anything runs. */
  function Resolve<S, T>(m: MachineView<S, T>, e: Snapshot<S>, req: Request<S, T>)
    : (r: Result<Option<Resolver<S, T>>, Error<S, T>>)
    ensures e.state !in m.states ==> r == Failure(StateNotConfigured(e.state))
    ensures e.state in m.states && m.states[e.state].isFinite ==> r == Success(None)
    ensures r.Success? && r.value.Some? ==>
      e.state in m.states && !m.states[e.state].isFinite && r.value.value.destination in m.states
  {
    if e.state !in m.states then Failure(StateNotConfigured(e.state))
    else
      var sv := m.states[e.state];
      if sv.isFinite then Success(None)
      else
        var canFire := match req
          case ByTrigger(t) => CanFireByTrigger(sv, t, e)
          case ByState(s) => CanFireByState(sv, s, e)
          case Autofire => CanAutofire(m, sv, e);
        match canFire
        case Failure(err) => Failure(err)
        case Success(None) => Success(None)
        case Success(Some(rv)) =>
          if rv.destination !in m.states then Failure(StateNotConfigured(rv.destination))
          else Success(Some(rv))
  }

  // ----- execution (StateMachine.cs:260-296, State.cs:72-98) ------------

  /** How one run of the pipeline ends: committed with the finished
      transition, or aborted with the error, whether the entity's state was
      already written, and the actions that completed before the abort. */
  datatype TransitOutcome<S, T> =
    | Committed(transition: TransitionRecord<S, T>, cancelled: bool)
    | Aborted(error: Error<S, T>, committed: bool, log: seq<ActionId>, cancelled: bool)

  /** `FireTransition` from the source state `sv` with resolver `r` and the
      token's state `c`: default entry actions, then the before-actions for
      the destination (skipped for a self-transition or when cancellation is
      requested), then the resolver's own action. */
  function Transit<S, T>(m: MachineView<S, T>, sv: StateView<S, T>, r: Resolver<S, T>, c: bool, beh: Behaviour)
    : TransitOutcome<S, T>
    requires r.destination in m.states
  {
    match RunActions(Inner(m.entry), [], c, beh)
    case Threw(a, log1, c1) => Aborted(ActionException(a), false, log1, c1)
    case Ran(log1, c1) =>
      var before := if sv.current != r.destination && !c1 then BeforeActions(sv, r.destination) else [];
      match RunActions(Inner(before), log1, c1, beh)
      case Threw(a, log2, c2) => Aborted(ActionException(a), false, log2, c2)
      case Ran(log2, c2) => OwnAction(m, sv, r, log2, c2, beh)
  }

  /** The resolver's own action: first a cancellation checkpoint, then the
      action, whose exception becomes a TransitionException. */
  function OwnAction<S, T>(m: MachineView<S, T>, sv: StateView<S, T>, r: Resolver<S, T>,
                           log: seq<ActionId>, c: bool, beh: Behaviour): TransitOutcome<S, T>
    requires r.destination in m.states
  {
    match r.action
    case None => Commit(m, sv, r, log, c, beh)
    case Some(TransitionAction(a)) =>
      if c then Aborted(OperationCanceled, false, log, c)
      else if a in beh.throws then
        Aborted(TransitionException(TransitionRecord(sv.current, r.destination, r.trigger, r.options, log)),
                false, log, c || a in beh.cancels)
      else Commit(m, sv, r, log + [a], c || a in beh.cancels, beh)
  }

  /** The cancellation checkpoint, the commit, the after-actions registered on
      the destination for this source, the default exit actions and the
      completion callbacks. */
  function Commit<S, T>(m: MachineView<S, T>, sv: StateView<S, T>, r: Resolver<S, T>,
                        log: seq<ActionId>, c: bool, beh: Behaviour): TransitOutcome<S, T>
    requires r.destination in m.states
  {
    if c then Aborted(OperationCanceled, false, log, c)
    else
      var dv := m.states[r.destination];
      var after := if dv.current != sv.current && !c then AfterActions(dv, sv.current) else [];
      match RunActions(Inner(after), log, c, beh)
      case Threw(a, log4, c4) => Aborted(ActionException(a), true, log4, c4)
      case Ran(log4, c4) =>
        match RunActions(Inner(m.exit), log4, c4, beh)
        case Threw(a, log5, c5) => Aborted(ActionException(a), true, log5, c5)
        case Ran(log5, c5) =>
          var t := TransitionRecord(sv.current, r.destination, r.trigger, r.options, log5);
          match FirstIn(m.callbacks, beh.failingCallbacks)
          case Some(k) => Aborted(CallbackException(m.callbacks[k], t), true, log5, c5)
          case None => Committed(t, c5)
  }

  // ----- Fire (StateMachine.cs:90-114) ----------------------------------

  datatype Outcome<S, T> = Done | Failed(error: Error<S, T>)

  /** What one `Fire` call leaves behind: how it ended, the entity's state, the
      token's state, and the transitions completed by it and its autofire chain. */
  datatype FireResult<S, T> = FireResult(outcome: Outcome<S, T>, state: S, cancelled: bool,
                                         completed: seq<TransitionRecord<S, T>>)

  /** `Fire`. `delivers` says whether the middleware chain hands the call to
      the transition; `fuel` bounds the autofire recursion, which the source
      does not bound. */
  function Fire<S, T>(m: MachineView<S, T>, delivers: bool, e: Snapshot<S>, req: Request<S, T>,
                      c: bool, beh: Behaviour, fuel: nat): FireResult<S, T>
    decreases fuel, 3
  {
    match Resolve(m, e, req)
    case Failure(err) => FireResult(Failed(err), e.state, c, [])
    case Success(None) => FireResult(Done, e.state, c, [])
    case Success(Some(r)) => Resolved(m, delivers, e, r, c, beh, fuel)
  }

  /** The resolver found goes through the middleware chain: when the chain
      delivers the call, its terminal handler runs the transition. */
  function Resolved<S, T>(m: MachineView<S, T>, delivers: bool, e: Snapshot<S>, r: Resolver<S, T>,
                          c: bool, beh: Behaviour, fuel: nat): FireResult<S, T>
    requires e.state in m.states && r.destination in m.states
    decreases fuel, 2
  {
    if !delivers then ThenAutofire(m, delivers, e, r, c, [], beh, fuel)
    else Delivered(m, delivers, e, r, c, beh, fuel)
  }

  /** The terminal handler's run: an aborted transition ends the call, a
      completed one is followed by `ThenAutofire` from its destination. */
  function Delivered<S, T>(m: MachineView<S, T>, delivers: bool, e: Snapshot<S>, r: Resolver<S, T>,
                           c: bool, beh: Behaviour, fuel: nat): FireResult<S, T>
    requires e.state in m.states && r.destination in m.states
    decreases fuel, 1
  {
    match Transit(m, m.states[e.state], r, c, beh)
    case Aborted(err, committed, _, c') =>
      FireResult(Failed(err), if committed then r.destination else e.state, c', [])
    case Committed(t, c') => ThenAutofire(m, delivers, e.(state := r.destination), r, c', [t], beh, fuel)
  }

  /** After the pipeline: when the fired resolver's destination is the
      entity's state, an autofire request follows on the same entity and token. */
  function ThenAutofire<S, T>(m: MachineView<S, T>, delivers: bool, e: Snapshot<S>, r: Resolver<S, T>,
                              c: bool, done: seq<TransitionRecord<S, T>>, beh: Behaviour, fuel: nat): FireResult<S, T>
    decreases fuel, 0
  {
    if r.destination != e.state then FireResult(Done, e.state, c, done)
    else if fuel == 0 then FireResult(Failed(FuelExhausted), e.state, c, done)
    else
      var next := Fire(m, delivers, e, Autofire, c, beh, fuel - 1);
      next.(completed := done + next.completed)
  }
}
