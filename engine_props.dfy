/**
 * Properties of the firing engine: what resolution raises and when, which
 * resolver it selects, the order of the pipeline's phases, cancellation, the
 * middleware short-circuit and the autofire chain.
 */
module EngineProperties {
  import opened Wrappers
  import opened Options
  import opened Guards
  import opened Actions
  import opened Resolvers
  import opened Engine

  // ----- the resolver dictionary (State.cs) -----------------------------

  /** `SelectMany` over the dictionary is empty exactly when every listed
      key holds an empty list. */
  lemma {:induction false} ConcatEmpty<K, X>(ks: seq<K>, m: map<K, seq<X>>)
    ensures Concat(ks, m) == [] <==> forall i :: 0 <= i < |ks| && ks[i] in m ==> m[ks[i]] == []
    decreases |ks|
  {
    if ks != [] {
      ConcatEmpty(ks[1..], m);
      assert forall i :: 1 <= i < |ks| ==> ks[i] == ks[1..][i - 1];
    }
  }

  lemma {:induction false} ConcatSplit<K, X>(a: seq<K>, b: seq<K>, m: map<K, seq<X>>)
    ensures Concat(a + b, m) == Concat(a, m) + Concat(b, m)
    decreases |a|
  {
    if a != [] {
      ConcatSplit(a[1..], b, m);
      assert (a + b)[0] == a[0];
      assert (a + b)[1..] == a[1..] + b;
    } else {
      assert a + b == b;
    }
  }

  lemma {:induction false} ConcatUnchanged<K, X>(ks: seq<K>, m: map<K, seq<X>>, k: K, v: seq<X>)
    requires forall i :: 0 <= i < |ks| ==> ks[i] != k
    ensures Concat(ks, m[k := v]) == Concat(ks, m)
    decreases |ks|
  {
    if ks != [] {
      ConcatUnchanged(ks[1..], m, k, v);
    }
  }

  /** `MapTo` with a new trigger: the resolver comes last in `GetAll...`. */
  lemma MapToNewTrigger<K, X>(ks: seq<K>, m: map<K, seq<X>>, k: K, x: X)
    requires forall i :: 0 <= i < |ks| ==> ks[i] != k
    ensures Concat(ks + [k], m[k := [x]]) == Concat(ks, m) + [x]
  {
    ConcatSplit(ks, [k], m[k := [x]]);
    ConcatUnchanged(ks, m, k, [x]);
    assert Concat([k], m[k := [x]]) == [x] + Concat([], m[k := [x]]);
  }

  /** `MapTo` with a known trigger: the resolver comes right after the others
      of its trigger, everything else keeps its place. */
  lemma MapToKnownTrigger<K, X>(ks: seq<K>, m: map<K, seq<X>>, j: nat, x: X)
    requires j < |ks| && ks[j] in m
    requires forall i :: 0 <= i < |ks| && i != j ==> ks[i] != ks[j]
    ensures Concat(ks, m[ks[j] := m[ks[j]] + [x]]) == Concat(ks[..j + 1], m) + [x] + Concat(ks[j + 1..], m)
  {
    var k := ks[j];
    var m' := m[k := m[k] + [x]];
    assert ks == ks[..j] + [k] + ks[j + 1..];
    ConcatSplit(ks[..j] + [k], ks[j + 1..], m');
    ConcatSplit(ks[..j], [k], m');
    ConcatSplit(ks[..j], [k], m);
    ConcatUnchanged(ks[..j], m, k, m[k] + [x]);
    ConcatUnchanged(ks[j + 1..], m, k, m[k] + [x]);
    assert ks[..j + 1] == ks[..j] + [k];
    assert Concat([k], m') == m[k] + [x] + Concat([], m');
    assert Concat([k], m) == m[k] + Concat([], m);
  }

  // ----- Where ----------------------------------------------------------

  /** `Where` keeps nothing exactly when no element passes. */
  lemma {:induction false} FilterEmpty<X>(s: seq<X>, p: X -> bool)
    ensures Filter(s, p) == [] <==> forall i :: 0 <= i < |s| ==> !p(s[i])
    decreases |s|
  {
    if s != [] {
      FilterEmpty(s[1..], p);
      assert forall i :: 1 <= i < |s| ==> s[i] == s[1..][i - 1];
    }
  }

  /** Otherwise it starts with the first element that passes. */
  lemma {:induction false} FilterFirst<X>(s: seq<X>, p: X -> bool) returns (k: nat)
    requires Filter(s, p) != []
    ensures k < |s| && p(s[k]) && Filter(s, p)[0] == s[k]
    ensures forall i :: 0 <= i < k ==> !p(s[i])
    decreases |s|
  {
    if p(s[0]) {
      k := 0;
    } else {
      var k' := FilterFirst(s[1..], p);
      k := k' + 1;
      assert forall i :: 1 <= i < k ==> s[i] == s[1..][i - 1];
    }
  }

  /** `Where` keeps exactly the elements that pass. */
  lemma {:induction false} FilterMembership<X>(s: seq<X>, p: X -> bool, x: X)
    ensures x in Filter(s, p) <==> x in s && p(x)
    decreases |s|
  {
    if s != [] {
      FilterMembership(s[1..], p, x);
      assert s == [s[0]] + s[1..];
    }
  }

  /** The autofire candidates are exactly the resolvers of the state whose
      options have `IsAutofire` set at fire time and that lead elsewhere. */
  lemma AutofireCandidates<S, T>(m: MachineView<S, T>, sv: StateView<S, T>, r: Resolver<S, T>)
    ensures r in AutofireResolvers(m, sv) <==>
      r in AllResolvers(sv) && IsAutofire(m, r) && r.destination != sv.current
  {
    FilterMembership(AllResolvers(sv), AutofireFilter(m, sv.current), r);
  }

  // ----- resolution errors (StateMachine.cs:182-258, 298-333) -----------

  /** An entity whose state is not registered is refused before anything runs. */
  lemma FireUnconfiguredState<S, T>(m: MachineView<S, T>, d: bool, e: Snapshot<S>, req: Request<S, T>,
                                    c: bool, beh: Behaviour, fuel: nat)
    requires e.state !in m.states
    ensures Fire(m, d, e, req, c, beh, fuel) == FireResult(Failed(StateNotConfigured(e.state)), e.state, c, [])
  {
  }

  /** Firing from a finite state does nothing, whatever the request. */
  lemma FireFiniteNoOp<S, T>(m: MachineView<S, T>, d: bool, e: Snapshot<S>, req: Request<S, T>,
                             c: bool, beh: Behaviour, fuel: nat)
    requires e.state in m.states && m.states[e.state].isFinite
    ensures Fire(m, d, e, req, c, beh, fuel) == FireResult(Done, e.state, c, [])
  {
  }

  /** Every resolution error is raised before any action runs: the entity,
      the token and the completed transitions are untouched. */
  lemma FireResolutionErrorIsClean<S, T>(m: MachineView<S, T>, d: bool, e: Snapshot<S>, req: Request<S, T>,
                                         c: bool, beh: Behaviour, fuel: nat)
    requires Resolve(m, e, req).Failure?
    ensures Fire(m, d, e, req, c, beh, fuel) == FireResult(Failed(Resolve(m, e, req).error), e.state, c, [])
    ensures Resolve(m, e, req).error.StateNotConfigured? || Resolve(m, e, req).error.AmbiguousTriggerResolver? ||
            Resolve(m, e, req).error.TriggerResolverNotFoundForTrigger? ||
            Resolve(m, e, req).error.TriggerResolverNotFoundForState?
  {
  }

  /** By trigger: the not-found error is raised exactly when no resolver is
      registered under the trigger. */
  lemma ResolveByTriggerNotFound<S, T>(m: MachineView<S, T>, e: Snapshot<S>, t: T)
    requires e.state in m.states && !m.states[e.state].isFinite
    ensures Resolve(m, e, ByTrigger(t)) == Failure(TriggerResolverNotFoundForTrigger(t))
            <==> ResolversBy(m.states[e.state], t) == []
  {
  }

  /** By state: the not-found error is raised exactly when the current state
      has no resolver at all, whatever the target. */
  lemma ResolveByStateNotFound<S, T>(m: MachineView<S, T>, e: Snapshot<S>, target: S)
    requires e.state in m.states && !m.states[e.state].isFinite && Keyed(m.states[e.state])
    ensures Resolve(m, e, ByState(target)) == Failure(TriggerResolverNotFoundForState(target))
            <==> forall t :: t in m.states[e.state].byTrigger ==> m.states[e.state].byTrigger[t] == []
  {
    var sv := m.states[e.state];
    ConcatEmpty(sv.triggers, sv.byTrigger);
  }

  /** By state, with resolvers present but none leading to the target with
      its guard met: a silent no-op. */
  lemma ResolveByStateNoMatch<S, T>(m: MachineView<S, T>, e: Snapshot<S>, target: S)
    requires e.state in m.states && !m.states[e.state].isFinite
    requires AllResolvers(m.states[e.state]) != []
    requires forall i :: 0 <= i < |AllResolvers(m.states[e.state])| ==>
               var r := AllResolvers(m.states[e.state])[i];
               !(r.destination == target && GuardIsMet(r.guard, e))
    ensures Resolve(m, e, ByState(target)) == Success(None)
  {
    FilterEmpty(AllResolvers(m.states[e.state]), LeadsToAndPasses(target, e));
  }

  /** An autofire request never raises a not-found error. */
  lemma ResolveAutofireNeverNotFound<S, T>(m: MachineView<S, T>, e: Snapshot<S>)
    ensures Resolve(m, e, Autofire).Failure? ==>
      Resolve(m, e, Autofire).error.StateNotConfigured? || Resolve(m, e, Autofire).error.AmbiguousTriggerResolver?
  {
  }

  /** With no autofire candidate, an autofire request is a silent no-op. */
  lemma ResolveAutofireNoCandidate<S, T>(m: MachineView<S, T>, e: Snapshot<S>)
    requires e.state in m.states
    requires forall i :: 0 <= i < |AllResolvers(m.states[e.state])| ==>
               var r := AllResolvers(m.states[e.state])[i];
               !IsAutofire(m, r) || r.destination == e.state
    requires WellFormed(m)
    ensures Resolve(m, e, Autofire) == Success(None)
  {
    var sv := m.states[e.state];
    FilterEmpty(AllResolvers(sv), AutofireFilter(m, sv.current));
  }

  // ----- selection ------------------------------------------------------

  /** The candidates a request considers, and the filter it applies to them. */
  function Candidates<S, T>(m: MachineView<S, T>, sv: StateView<S, T>, req: Request<S, T>): seq<Resolver<S, T>> {
    match req
    case ByTrigger(t) => ResolversBy(sv, t)
    case ByState(_) => AllResolvers(sv)
    case Autofire => AutofireResolvers(m, sv)
  }

  function Suitable<S(==), T>(e: Snapshot<S>, req: Request<S, T>): Resolver<S, T> -> bool {
    match req
    case ByState(s) => LeadsToAndPasses(s, e)
    case _ => GuardPasses(e)
  }

  /** Two or more suitable candidates are ambiguous, and the error names the
      destination of the first suitable one in registration order. */
  lemma ResolveAmbiguous<S, T>(m: MachineView<S, T>, e: Snapshot<S>, req: Request<S, T>)
    requires e.state in m.states && !m.states[e.state].isFinite
    requires |Filter(Candidates(m, m.states[e.state], req), Suitable(e, req))| > 1
    ensures exists k :: (
      && 0 <= k < |Candidates(m, m.states[e.state], req)|
      && Suitable(e, req)(Candidates(m, m.states[e.state], req)[k])
      && Resolve(m, e, req) == Failure(AmbiguousTriggerResolver(Candidates(m, m.states[e.state], req)[k].destination))
      && forall i :: 0 <= i < k ==> !Suitable(e, req)(Candidates(m, m.states[e.state], req)[i]))
  {
    var k := FilterFirst(Candidates(m, m.states[e.state], req), Suitable(e, req));
  }

  /** No suitable candidate (with candidates present) is a silent no-op;
      exactly one is selected, or refused when its destination is unregistered. */
  lemma ResolveUnique<S, T>(m: MachineView<S, T>, e: Snapshot<S>, req: Request<S, T>)
    requires e.state in m.states && !m.states[e.state].isFinite
    requires Candidates(m, m.states[e.state], req) != []
    requires |Filter(Candidates(m, m.states[e.state], req), Suitable(e, req))| <= 1
    ensures var f := Filter(Candidates(m, m.states[e.state], req), Suitable(e, req));
      && (f == [] ==> Resolve(m, e, req) == Success(None))
      && (|f| == 1 && f[0].destination in m.states ==> Resolve(m, e, req) == Success(Some(f[0])))
      && (|f| == 1 && f[0].destination !in m.states ==>
            Resolve(m, e, req) == Failure(StateNotConfigured(f[0].destination)))
  {
  }

  /** What resolution selects is eligible: its guard is met, it is filed under
      the requested trigger or leads to the requested state, and an autofire
      selection is flagged autofire and never loops back to the current state. */
  lemma SelectedIsEligible<S, T>(m: MachineView<S, T>, e: Snapshot<S>, req: Request<S, T>)
    requires WellFormed(m)
    requires Resolve(m, e, req).Success? && Resolve(m, e, req).value.Some?
    ensures var r := Resolve(m, e, req).value.value;
      && GuardIsMet(r.guard, e)
      && (req.ByTrigger? ==> r.trigger == req.trigger)
      && (req.ByState? ==> r.destination == req.state)
      && (req.Autofire? ==> IsAutofire(m, r) && r.destination != e.state)
  {
    var sv := m.states[e.state];
    var f := Filter(Candidates(m, sv, req), Suitable(e, req));
    assert |f| == 1;
    assert f[0] in Candidates(m, sv, req);
  }

  // ----- the pipeline (StateMachine.cs:260-296, State.cs:72-98) ---------

  /** A list of actions none of which throws runs to the end; the token ends
      requested exactly when it was before or one of them requested it. */
  lemma RunActionsComplete(acts: seq<ActionId>, log: seq<ActionId>, c: bool, beh: Behaviour)
    requires forall i :: 0 <= i < |acts| ==> acts[i] !in beh.throws
    ensures RunActions(acts, log, c, beh) == Ran(log + acts, c || exists i :: 0 <= i < |acts| && acts[i] in beh.cancels)
  {
    RunActionsLog(acts, log, c, beh);
    RunActionsCancelledBy(acts, log, c, beh);
  }

  lemma {:induction false} RunActionsCancelledBy(acts: seq<ActionId>, log: seq<ActionId>, c: bool, beh: Behaviour)
    requires forall i :: 0 <= i < |acts| ==> acts[i] !in beh.throws
    ensures RunActions(acts, log, c, beh).cancelled == (c || exists i :: 0 <= i < |acts| && acts[i] in beh.cancels)
    decreases |acts|
  {
    if acts != [] {
      RunActionsCancelledBy(acts[1..], log + [acts[0]], c || acts[0] in beh.cancels, beh);
      assert forall i :: 1 <= i < |acts| ==> acts[i] == acts[1..][i - 1];
      if exists i :: 0 <= i < |acts| && acts[i] in beh.cancels {
        var i :| 0 <= i < |acts| && acts[i] in beh.cancels;
        if i > 0 {
          assert acts[1..][i - 1] in beh.cancels;
        }
      }
    }
  }

  /** No action of the list throws or requests cancellation. */
  ghost predicate Quiet(acts: seq<ActionId>, beh: Behaviour) {
    forall i :: 0 <= i < |acts| ==> acts[i] !in beh.throws && acts[i] !in beh.cancels
  }

  /** The actions of each phase that a transition from `sv` by `r` runs. */
  function BeforePhase<S, T>(sv: StateView<S, T>, r: Resolver<S, T>): seq<ActionId> {
    if sv.current != r.destination then Inner(BeforeActions(sv, r.destination)) else []
  }

  function OwnPhase<S, T>(r: Resolver<S, T>): seq<ActionId> {
    if r.action.Some? then [r.action.value.inner] else []
  }

  function AfterPhase<S, T>(m: MachineView<S, T>, sv: StateView<S, T>, r: Resolver<S, T>): seq<ActionId>
    requires r.destination in m.states
  {
    var dv := m.states[r.destination];
    if dv.current != sv.current then Inner(AfterActions(dv, sv.current)) else []
  }

  /** With nothing throwing and nothing cancelling, a transition commits and
      its log is: default entry actions, the before-actions for the
      destination, the resolver's action, the destination's after-actions for
      this source, the default exit actions, each group in registration order. */
  lemma TransitOrder<S, T>(m: MachineView<S, T>, sv: StateView<S, T>, r: Resolver<S, T>, beh: Behaviour)
    requires r.destination in m.states
    requires Quiet(Inner(m.entry), beh) && Quiet(BeforePhase(sv, r), beh) && Quiet(OwnPhase(r), beh)
    requires Quiet(AfterPhase(m, sv, r), beh) && Quiet(Inner(m.exit), beh)
    requires FirstIn(m.callbacks, beh.failingCallbacks).None?
    ensures Transit(m, sv, r, false, beh) ==
      Committed(TransitionRecord(sv.current, r.destination, r.trigger, r.options,
                                 Inner(m.entry) + BeforePhase(sv, r) + OwnPhase(r) + AfterPhase(m, sv, r) + Inner(m.exit)),
                false)
  {
    var l1 := Inner(m.entry);
    RunActionsComplete(l1, [], false, beh);
    assert [] + l1 == l1;
    var l2 := l1 + BeforePhase(sv, r);
    RunActionsComplete(BeforePhase(sv, r), l1, false, beh);
    var l3 := l2 + OwnPhase(r);
    OwnActionQuiet(m, sv, r, l2, beh);
    var l4 := l3 + AfterPhase(m, sv, r);
    RunActionsComplete(AfterPhase(m, sv, r), l3, false, beh);
    RunActionsComplete(Inner(m.exit), l4, false, beh);
  }

  /** An entry action that throws aborts before the commit with its own
      exception, unwrapped; only the entry actions before it completed. */
  lemma TransitEntryFailure<S, T>(m: MachineView<S, T>, sv: StateView<S, T>, r: Resolver<S, T>, c: bool, beh: Behaviour)
    requires r.destination in m.states
    requires FirstIn(Inner(m.entry), beh.throws).Some?
    ensures var k := FirstIn(Inner(m.entry), beh.throws).value;
      var o := Transit(m, sv, r, c, beh);
      o.Aborted? && !o.committed && o.error == ActionException(Inner(m.entry)[k]) && o.log == Inner(m.entry)[..k]
  {
    RunActionsLog(Inner(m.entry), [], c, beh);
    assert [] + Inner(m.entry)[..FirstIn(Inner(m.entry), beh.throws).value] == Inner(m.entry)[..FirstIn(Inner(m.entry), beh.throws).value];
  }

  /** The resolver's own action that throws is reported as a
      TransitionException carrying the transition as logged so far; the
      entity keeps its state. */
  lemma TransitActionFailure<S, T>(m: MachineView<S, T>, sv: StateView<S, T>, r: Resolver<S, T>, beh: Behaviour)
    requires r.destination in m.states
    requires Quiet(Inner(m.entry), beh) && Quiet(BeforePhase(sv, r), beh)
    requires r.action.Some? && r.action.value.inner in beh.throws
    ensures var log := Inner(m.entry) + BeforePhase(sv, r);
      Transit(m, sv, r, false, beh) ==
      Aborted(TransitionException(TransitionRecord(sv.current, r.destination, r.trigger, r.options, log)),
              false, log, r.action.value.inner in beh.cancels)
  {
    RunActionsComplete(Inner(m.entry), [], false, beh);
    assert [] + Inner(m.entry) == Inner(m.entry);
    RunActionsComplete(BeforePhase(sv, r), Inner(m.entry), false, beh);
  }

  /** Cancellation requested while the resolver's own action runs is seen at
      the checkpoint before the commit: OperationCanceled, the entity keeps its
      state, and no after-action, exit action or callback runs. */
  lemma TransitCancelledByAction<S, T>(m: MachineView<S, T>, sv: StateView<S, T>, r: Resolver<S, T>, beh: Behaviour)
    requires r.destination in m.states
    requires Quiet(Inner(m.entry), beh) && Quiet(BeforePhase(sv, r), beh)
    requires r.action.Some? && r.action.value.inner !in beh.throws && r.action.value.inner in beh.cancels
    ensures Transit(m, sv, r, false, beh) ==
      Aborted(OperationCanceled, false, Inner(m.entry) + BeforePhase(sv, r) + [r.action.value.inner], true)
  {
    RunActionsComplete(Inner(m.entry), [], false, beh);
    assert [] + Inner(m.entry) == Inner(m.entry);
    RunActionsComplete(BeforePhase(sv, r), Inner(m.entry), false, beh);
  }

  /** With the token already cancelled, a transition never commits: it fails
      with OperationCanceled or with an entry action's exception, after
      running at most the default entry actions. */
  lemma TransitCancelledUpFront<S, T>(m: MachineView<S, T>, sv: StateView<S, T>, r: Resolver<S, T>, beh: Behaviour)
    requires r.destination in m.states
    ensures var o := Transit(m, sv, r, true, beh);
      && o.Aborted? && !o.committed && o.cancelled && o.log <= Inner(m.entry)
      && (o.error == OperationCanceled || (o.error.ActionException? && o.error.action in Inner(m.entry)))
  {
    RunActionsLog(Inner(m.entry), [], true, beh);
    RunActionsCancellation(Inner(m.entry), [], true, beh);
    match FirstIn(Inner(m.entry), beh.throws)
    case None =>
      assert [] + Inner(m.entry) == Inner(m.entry);
    case Some(k) =>
      assert [] + Inner(m.entry)[..k] == Inner(m.entry)[..k];
  }

  /** Whatever the token and the user code do, OperationCanceled is only
      ever raised at a checkpoint before the commit: the entity keeps its
      state, and the log holds the entry actions, then possibly the
      before-actions, then possibly the resolver's own action, so no
      after-action, exit action or callback has run. */
  lemma TransitCancelled<S, T>(m: MachineView<S, T>, sv: StateView<S, T>, r: Resolver<S, T>, c: bool, beh: Behaviour)
    requires r.destination in m.states
    ensures var o := Transit(m, sv, r, c, beh);
      o.Aborted? && o.error == OperationCanceled ==>
        && !o.committed && o.cancelled
        && (|| o.log == Inner(m.entry)
            || o.log == Inner(m.entry) + BeforePhase(sv, r)
            || o.log == Inner(m.entry) + BeforePhase(sv, r) + OwnPhase(r))
  {
    var entry := Inner(m.entry);
    RunActionsLog(entry, [], c, beh);
    match RunActions(entry, [], c, beh)
    case Threw(_, _, _) =>
    case Ran(log1, c1) =>
      assert log1 == entry by {
        assert [] + entry == entry;
      }
      var before := Inner(if sv.current != r.destination && !c1 then BeforeActions(sv, r.destination) else []);
      assert !c1 ==> before == BeforePhase(sv, r);
      assert c1 ==> before == [];
      RunActionsLog(before, log1, c1, beh);
      match RunActions(before, log1, c1, beh)
      case Threw(_, _, _) =>
      case Ran(log2, c2) =>
        OwnActionCancelled(m, sv, r, log2, c2, beh);
  }

  /** The checkpoints of the own-action phase and the commit: a
      cancellation they raise leaves the entity at its state and adds at
      most the resolver's own action to the log. */
  lemma OwnActionCancelled<S, T>(m: MachineView<S, T>, sv: StateView<S, T>, r: Resolver<S, T>,
                                 log: seq<ActionId>, c: bool, beh: Behaviour)
    requires r.destination in m.states
    ensures var o := OwnAction(m, sv, r, log, c, beh);
      o.Aborted? && o.error == OperationCanceled ==>
        !o.committed && o.cancelled && (o.log == log || o.log == log + OwnPhase(r))
  {
    match r.action
    case None =>
      CommitCancelled(m, sv, r, log, c, beh);
    case Some(TransitionAction(a)) =>
      if !c && a !in beh.throws {
        CommitCancelled(m, sv, r, log + [a], c || a in beh.cancels, beh);
      }
  }

  /** The commit's checkpoint is the last place OperationCanceled is raised. */
  lemma CommitCancelled<S, T>(m: MachineView<S, T>, sv: StateView<S, T>, r: Resolver<S, T>,
                              log: seq<ActionId>, c: bool, beh: Behaviour)
    requires r.destination in m.states
    ensures var o := Commit(m, sv, r, log, c, beh);
      o.Aborted? && o.error == OperationCanceled ==> !o.committed && o.cancelled && o.log == log
  {
  }

  /** Cancellation requested up front or by a default entry action, with no
      entry action throwing, is seen at the first checkpoint: no
      before-action runs and the entity keeps its state. */
  lemma TransitCancelledByEntry<S, T>(m: MachineView<S, T>, sv: StateView<S, T>, r: Resolver<S, T>, c: bool, beh: Behaviour)
    requires r.destination in m.states
    requires forall i :: 0 <= i < |Inner(m.entry)| ==> Inner(m.entry)[i] !in beh.throws
    requires c || exists i :: 0 <= i < |Inner(m.entry)| && Inner(m.entry)[i] in beh.cancels
    ensures Transit(m, sv, r, c, beh) == Aborted(OperationCanceled, false, Inner(m.entry), true)
  {
    RunActionsComplete(Inner(m.entry), [], c, beh);
    assert [] + Inner(m.entry) == Inner(m.entry);
  }

  /** Cancellation requested by a before-action, on a resolver with or
      without its own action, is seen at the next checkpoint: the remaining
      before-actions have run, the resolver's action has not, and the entity
      keeps its state. */
  lemma TransitCancelledByBefore<S, T>(m: MachineView<S, T>, sv: StateView<S, T>, r: Resolver<S, T>, beh: Behaviour)
    requires r.destination in m.states
    requires Quiet(Inner(m.entry), beh)
    requires forall i :: 0 <= i < |BeforePhase(sv, r)| ==> BeforePhase(sv, r)[i] !in beh.throws
    requires exists i :: 0 <= i < |BeforePhase(sv, r)| && BeforePhase(sv, r)[i] in beh.cancels
    ensures Transit(m, sv, r, false, beh) ==
      Aborted(OperationCanceled, false, Inner(m.entry) + BeforePhase(sv, r), true)
  {
    RunActionsComplete(Inner(m.entry), [], false, beh);
    assert [] + Inner(m.entry) == Inner(m.entry);
    RunActionsComplete(BeforePhase(sv, r), Inner(m.entry), false, beh);
  }

  /** An after-action that throws fails the fire after the commit: the
      entity is already in the destination state. */
  lemma TransitAfterFailure<S, T>(m: MachineView<S, T>, sv: StateView<S, T>, r: Resolver<S, T>, beh: Behaviour)
    requires r.destination in m.states
    requires Quiet(Inner(m.entry), beh) && Quiet(BeforePhase(sv, r), beh) && Quiet(OwnPhase(r), beh)
    requires FirstIn(AfterPhase(m, sv, r), beh.throws).Some?
    ensures var o := Transit(m, sv, r, false, beh);
      o.Aborted? && o.committed && o.error == ActionException(AfterPhase(m, sv, r)[FirstIn(AfterPhase(m, sv, r), beh.throws).value])
  {
    var l1 := Inner(m.entry);
    RunActionsComplete(l1, [], false, beh);
    assert [] + l1 == l1;
    var l2 := l1 + BeforePhase(sv, r);
    RunActionsComplete(BeforePhase(sv, r), l1, false, beh);
    OwnActionQuiet(m, sv, r, l2, beh);
    RunActionsLog(AfterPhase(m, sv, r), l2 + OwnPhase(r), false, beh);
  }

  /** So does a default exit action that throws. */
  lemma TransitExitFailure<S, T>(m: MachineView<S, T>, sv: StateView<S, T>, r: Resolver<S, T>, beh: Behaviour)
    requires r.destination in m.states
    requires Quiet(Inner(m.entry), beh) && Quiet(BeforePhase(sv, r), beh) && Quiet(OwnPhase(r), beh)
    requires Quiet(AfterPhase(m, sv, r), beh)
    requires FirstIn(Inner(m.exit), beh.throws).Some?
    ensures var o := Transit(m, sv, r, false, beh);
      o.Aborted? && o.committed && o.error == ActionException(Inner(m.exit)[FirstIn(Inner(m.exit), beh.throws).value])
  {
    var l1 := Inner(m.entry);
    RunActionsComplete(l1, [], false, beh);
    assert [] + l1 == l1;
    var l2 := l1 + BeforePhase(sv, r);
    RunActionsComplete(BeforePhase(sv, r), l1, false, beh);
    var l3 := l2 + OwnPhase(r);
    OwnActionQuiet(m, sv, r, l2, beh);
    RunActionsComplete(AfterPhase(m, sv, r), l3, false, beh);
    RunActionsLog(Inner(m.exit), l3 + AfterPhase(m, sv, r), false, beh);
  }

  /** A completion callback that throws fails the fire after every action
      ran and the state was committed, with the finished transition. */
  lemma TransitCallbackFailure<S, T>(m: MachineView<S, T>, sv: StateView<S, T>, r: Resolver<S, T>, beh: Behaviour)
    requires r.destination in m.states
    requires Quiet(Inner(m.entry), beh) && Quiet(BeforePhase(sv, r), beh) && Quiet(OwnPhase(r), beh)
    requires Quiet(AfterPhase(m, sv, r), beh) && Quiet(Inner(m.exit), beh)
    requires FirstIn(m.callbacks, beh.failingCallbacks).Some?
    ensures var log := Inner(m.entry) + BeforePhase(sv, r) + OwnPhase(r) + AfterPhase(m, sv, r) + Inner(m.exit);
      Transit(m, sv, r, false, beh) ==
      Aborted(CallbackException(m.callbacks[FirstIn(m.callbacks, beh.failingCallbacks).value],
                                TransitionRecord(sv.current, r.destination, r.trigger, r.options, log)), true, log, false)
  {
    var l1 := Inner(m.entry);
    RunActionsComplete(l1, [], false, beh);
    assert [] + l1 == l1;
    var l2 := l1 + BeforePhase(sv, r);
    RunActionsComplete(BeforePhase(sv, r), l1, false, beh);
    var l3 := l2 + OwnPhase(r);
    OwnActionQuiet(m, sv, r, l2, beh);
    var l4 := l3 + AfterPhase(m, sv, r);
    RunActionsComplete(AfterPhase(m, sv, r), l3, false, beh);
    RunActionsComplete(Inner(m.exit), l4, false, beh);
  }

  /** A transition that commits records its source, resolver and destination. */
  lemma TransitCommittedRecord<S, T>(m: MachineView<S, T>, sv: StateView<S, T>, r: Resolver<S, T>, c: bool, beh: Behaviour)
    requires r.destination in m.states
    requires Transit(m, sv, r, c, beh).Committed?
    ensures var t := Transit(m, sv, r, c, beh).transition;
      t.source == sv.current && t.destination == r.destination && t.trigger == r.trigger && t.options == r.options
  {
  }

  /** A quiet own action runs, is logged and leads to the commit checkpoint. */
  lemma OwnActionQuiet<S, T>(m: MachineView<S, T>, sv: StateView<S, T>, r: Resolver<S, T>, log: seq<ActionId>, beh: Behaviour)
    requires r.destination in m.states && Quiet(OwnPhase(r), beh)
    ensures OwnAction(m, sv, r, log, false, beh) == Commit(m, sv, r, log + OwnPhase(r), false, beh)
  {
    if r.action.Some? {
      assert OwnPhase(r)[0] == r.action.value.inner;
    } else {
      assert log + [] == log;
    }
  }
}
