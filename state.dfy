/**
 * A configured state (src/StateTransition/State.cs): its resolvers filed by
 * trigger, and the actions to run before leaving it for a given destination
 * and after entering it from a given source.
 */
module States {
  import opened Wrappers
  import opened Actions
  import opened Resolvers
  import opened Engine
  import EngineProperties

  /** The view of the record `GetOrConfigure` registers for a new state:
      not finite, no resolvers, no actions. */
  function Unconfigured<S, T>(s: S): StateView<S, T> {
    StateView(s, false, [], map[], map[], map[])
  }

  /** The view of a record after `MapTo(r)`: the resolver is the last of
      its trigger's list, the other lists and the actions are untouched, and
      the dictionary stays well keyed. */
  function Mapped<S, T>(sv: StateView<S, T>, r: Resolver<S, T>): (v: StateView<S, T>)
    ensures v.current == sv.current && v.isFinite == sv.isFinite && v.before == sv.before && v.after == sv.after
    ensures ResolversBy(v, r.trigger) == ResolversBy(sv, r.trigger) + [r]
    ensures v.byTrigger - {r.trigger} == sv.byTrigger - {r.trigger}
    ensures r.trigger in sv.byTrigger ==> v.triggers == sv.triggers
    ensures r.trigger !in sv.byTrigger ==> v.triggers == sv.triggers + [r.trigger]
    ensures Keyed(sv) ==> Keyed(v)
  {
    var t := r.trigger;
    sv.(triggers := if t in sv.byTrigger then sv.triggers else sv.triggers + [t],
        byTrigger := sv.byTrigger[t := ResolversBy(sv, t) + [r]])
  }

  /** Enumeration order after `MapTo`: a resolver for a new trigger comes
      last of all, one for a known trigger right after the others of its
      trigger, and every other resolver keeps its place. */
  lemma MappedEnumeration<S, T>(sv: StateView<S, T>, r: Resolver<S, T>)
    requires Keyed(sv)
    ensures r.trigger !in sv.byTrigger ==> AllResolvers(Mapped(sv, r)) == AllResolvers(sv) + [r]
    ensures forall j :: 0 <= j < |sv.triggers| && sv.triggers[j] == r.trigger ==>
      AllResolvers(Mapped(sv, r)) ==
        Concat(sv.triggers[..j + 1], sv.byTrigger) + [r] + Concat(sv.triggers[j + 1..], sv.byTrigger)
  {
    var t := r.trigger;
    if t !in sv.byTrigger {
      assert forall i :: 0 <= i < |sv.triggers| ==> sv.triggers[i] != t;
      EngineProperties.MapToNewTrigger(sv.triggers, sv.byTrigger, t, r);
      assert [] + [r] == [r];
    } else {
      forall j | 0 <= j < |sv.triggers| && sv.triggers[j] == t
        ensures AllResolvers(Mapped(sv, r)) ==
          Concat(sv.triggers[..j + 1], sv.byTrigger) + [r] + Concat(sv.triggers[j + 1..], sv.byTrigger)
      {
        EngineProperties.MapToKnownTrigger(sv.triggers, sv.byTrigger, j, r);
      }
    }
  }

  /** The view after `BeforeTransitionTo(destination, a)`: `a` is the last
      action run before leaving for `destination`, nothing else changes. */
  function WithBefore<S, T>(sv: StateView<S, T>, destination: S, a: TransitionAction): (v: StateView<S, T>)
    ensures BeforeActions(v, destination) == BeforeActions(sv, destination) + [a]
    ensures v.before - {destination} == sv.before - {destination}
    ensures v.(before := sv.before) == sv
  {
    sv.(before := sv.before[destination := BeforeActions(sv, destination) + [a]])
  }

  /** The view after `AfterTransitionFrom(source, a)`: `a` is the last
      action run after arriving from `source`, nothing else changes. */
  function WithAfter<S, T>(sv: StateView<S, T>, source: S, a: TransitionAction): (v: StateView<S, T>)
    ensures AfterActions(v, source) == AfterActions(sv, source) + [a]
    ensures v.after - {source} == sv.after - {source}
    ensures v.(after := sv.after) == sv
  {
    sv.(after := sv.after[source := AfterActions(sv, source) + [a]])
  }

  class State<S(==), T(==)> {
    const current: S
    const isFinite: bool
    /** The keys of the resolver dictionary, in insertion order. */
    var triggers: seq<T>
    var byTrigger: map<T, seq<Resolver<S, T>>>
    var before: map<S, seq<TransitionAction>>
    var after: map<S, seq<TransitionAction>>

    /** A state that is finite only when registered by `SetFiniteState`. */
    constructor (current: S, isFinite: bool)
      ensures this.current == current && this.isFinite == isFinite
      ensures triggers == [] && byTrigger == map[] && before == map[] && after == map[]
      ensures Keyed(View())
    {
      this.current := current;
      this.isFinite := isFinite;
      triggers := [];
      byTrigger := map[];
      before := map[];
      after := map[];
    }

    function View(): StateView<S, T>
      reads this
    {
      StateView(current, isFinite, triggers, byTrigger, before, after)
    }

    /** `MapTo`: appends the resolver to its trigger's list, adding the
        trigger as the last key when it is new. */
    method MapTo(r: Resolver<S, T>)
      requires Keyed(View())
      modifies this
      ensures View() == Mapped(old(View()), r)
    {
      var t := r.trigger;
      if t !in byTrigger {
        assert [] + [r] == [r];
        triggers := triggers + [t];
        byTrigger := byTrigger[t := [r]];
      } else {
        byTrigger := byTrigger[t := byTrigger[t] + [r]];
      }
    }

    /** `BeforeTransitionTo`: appends the action to those for `destination`. */
    method BeforeTransitionTo(destination: S, a: TransitionAction)
      modifies this
      ensures View() == WithBefore(old(View()), destination, a)
    {
      if destination in before {
        before := before[destination := before[destination] + [a]];
      } else {
        assert [] + [a] == [a];
        before := before[destination := [a]];
      }
    }

    /** `AfterTransitionFrom`: appends the action to those for `source`. */
    method AfterTransitionFrom(source: S, a: TransitionAction)
      modifies this
      ensures View() == WithAfter(old(View()), source, a)
    {
      if source in after {
        after := after[source := after[source] + [a]];
      } else {
        assert [] + [a] == [a];
        after := after[source := [a]];
      }
    }

    /** `RunActionsBefore`: unless the transition returns to this state or
        cancellation is already requested, runs the before-actions registered
        for its destination, in order. */
    method RunActionsBefore(t: Transition<S, T>, beh: Behaviour) returns (threw: Option<ActionId>)
      modifies t.actionLog, t.token
      ensures var acts := if current != t.destination && !old(t.token.requested) then BeforeActions(View(), t.destination) else [];
        RunActions(Inner(acts), old(t.actionLog.actions), old(t.token.requested), beh) ==
        if threw.None? then Ran(t.actionLog.actions, t.token.requested)
        else Threw(threw.value, t.actionLog.actions, t.token.requested)
    {
      if current != t.destination && !t.token.requested {
        threw := RunAll(BeforeActions(View(), t.destination), t, beh);
      } else {
        threw := None;
      }
    }

    /** `RunActionsAfter`: unless the transition came from this state or
        cancellation is requested, runs the after-actions registered for its
        source, in order. */
    method RunActionsAfter(t: Transition<S, T>, beh: Behaviour) returns (threw: Option<ActionId>)
      modifies t.actionLog, t.token
      ensures var acts := if current != t.source && !old(t.token.requested) then AfterActions(View(), t.source) else [];
        RunActions(Inner(acts), old(t.actionLog.actions), old(t.token.requested), beh) ==
        if threw.None? then Ran(t.actionLog.actions, t.token.requested)
        else Threw(threw.value, t.actionLog.actions, t.token.requested)
    {
      if current != t.source && !t.token.requested {
        threw := RunAll(AfterActions(View(), t.source), t, beh);
      } else {
        threw := None;
      }
    }
  }
}
