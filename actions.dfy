/**
 * User actions, the per-transition action log, the Transition object and the
 * completion event (src/StateTransition/Triggers/ITransitionAction.cs and
 * src/StateTransition/Transitions/Transition.cs).
 *
 * A user action is known by its identity only; whether running it throws, and
 * whether cancellation of the transition's token is requested while it runs,
 * is given by a `Behaviour` oracle. Completion callbacks are likewise ids.
 */
module Actions {
  import opened Wrappers
  import opened Options
  import opened Guards

  type ActionId = nat
  type CallbackId = nat

  /** What the user code, which is not modelled, does when it runs. */
  datatype Behaviour = Behaviour(throws: set<ActionId>, cancels: set<ActionId>, failingCallbacks: set<CallbackId>)

  /** The engine's wrapper around a user action (`TransitionAction`). */
  datatype TransitionAction = TransitionAction(inner: ActionId)

  function Inner(ws: seq<TransitionAction>): (r: seq<ActionId>)
    ensures |r| == |ws| && forall i :: 0 <= i < |ws| ==> r[i] == ws[i].inner
  {
    if ws == [] then [] else [ws[0].inner] + Inner(ws[1..])
  }

  /** Outcome of running a list of actions one after the other. */
  datatype RunOutcome = Ran(log: seq<ActionId>, cancelled: bool) | Threw(action: ActionId, log: seq<ActionId>, cancelled: bool)

  /** Runs `acts` in order from log `log` and cancellation flag `c`: each action
      may request cancellation; one that throws stops the list and is not
      logged; one that completes is appended to the log. */
  function RunActions(acts: seq<ActionId>, log: seq<ActionId>, c: bool, beh: Behaviour): RunOutcome
    decreases |acts|
  {
    if acts == [] then Ran(log, c)
    else
      var c' := c || acts[0] in beh.cancels;
      if acts[0] in beh.throws then Threw(acts[0], log, c')
      else RunActions(acts[1..], log + [acts[0]], c', beh)
  }

  /** Index of the first element of `s` that lies in `bad`, if any. */
  function FirstIn(s: seq<nat>, bad: set<nat>): (k: Option<nat>)
    ensures k.None? <==> forall i :: 0 <= i < |s| ==> s[i] !in bad
    ensures k.Some? ==> k.value < |s| && s[k.value] in bad && forall i :: 0 <= i < k.value ==> s[i] !in bad
    decreases |s|
  {
    if s == [] then None
    else if s[0] in bad then Some(0)
    else match FirstIn(s[1..], bad)
      case None => None
      case Some(k) => Some(k + 1)
  }

  /** A run that meets no throwing action logs all of `acts`, in order, after
      the earlier entries; otherwise it stops at the first throwing action and
      logs exactly the actions before it. */
  lemma {:induction false} RunActionsLog(acts: seq<ActionId>, log: seq<ActionId>, c: bool, beh: Behaviour)
    ensures var o := RunActions(acts, log, c, beh);
      match FirstIn(acts, beh.throws)
      case None => o.Ran? && o.log == log + acts
      case Some(k) => o.Threw? && o.action == acts[k] && o.log == log + acts[..k]
    decreases |acts|
  {
    if acts != [] && acts[0] !in beh.throws {
      RunActionsLog(acts[1..], log + [acts[0]], c || acts[0] in beh.cancels, beh);
      assert acts == [acts[0]] + acts[1..];
      match FirstIn(acts[1..], beh.throws)
      case None =>
      case Some(k) =>
        assert acts[..k + 1] == [acts[0]] + acts[1..][..k];
    }
  }

  /** Cancellation, once requested, stays requested; it is requested at the
      end exactly when it was before or some action that ran requested it. */
  lemma {:induction false} RunActionsCancellation(acts: seq<ActionId>, log: seq<ActionId>, c: bool, beh: Behaviour)
    ensures c ==> RunActions(acts, log, c, beh).cancelled
    ensures (forall i :: 0 <= i < |acts| ==> acts[i] !in beh.cancels) ==> RunActions(acts, log, c, beh).cancelled == c
    decreases |acts|
  {
    if acts != [] && acts[0] !in beh.throws {
      RunActionsCancellation(acts[1..], log + [acts[0]], c || acts[0] in beh.cancels, beh);
    }
  }

  /** A cancellation token source; running user code may request cancellation. */
  class CancellationToken {
    var requested: bool

    constructor (requested: bool)
      ensures this.requested == requested
    {
      this.requested := requested;
    }
  }

  /** `TransitionActionLog`: the actions that completed, in completion order. */
  class ActionLog {
    var actions: seq<ActionId>

    constructor ()
      ensures actions == []
    {
      actions := [];
    }

    method Log(a: ActionId)
      modifies this
      ensures actions == old(actions) + [a]
    {
      actions := actions + [a];
    }
  }

  /** A value snapshot of a Transition object: what a caller can observe. */
  datatype TransitionRecord<S, T> = TransitionRecord(source: S, destination: S, trigger: T, options: TransitionOptions, log: seq<ActionId>)

  /** The Transition of one fire: immutable fields and a fresh action log. */
  class Transition<S, T> {
    const entity: Entity<S>
    const source: S
    const destination: S
    const trigger: T
    const options: TransitionOptions
    const token: CancellationToken
    const actionLog: ActionLog

    constructor (entity: Entity<S>, source: S, destination: S, trigger: T, options: TransitionOptions, token: CancellationToken)
      ensures this.entity == entity && this.source == source && this.destination == destination
      ensures this.trigger == trigger && this.options == options && this.token == token
      ensures fresh(actionLog) && actionLog.actions == []
    {
      this.entity := entity;
      this.source := source;
      this.destination := destination;
      this.trigger := trigger;
      this.options := options;
      this.token := token;
      actionLog := new ActionLog();
    }

    function Record(): (r: TransitionRecord<S, T>)
      reads actionLog
      ensures r.source == source && r.destination == destination && r.trigger == trigger
      ensures r.options == options && r.log == actionLog.actions
    {
      TransitionRecord(source, destination, trigger, options, actionLog.actions)
    }
  }

  /** `TransitionAction.ExecuteAsync`: run the user action, then log the user
      action itself (not the wrapper); a throwing action logs nothing. */
  method ExecuteAsync<S, T>(w: TransitionAction, t: Transition<S, T>, beh: Behaviour) returns (threw: bool)
    modifies t.actionLog, t.token
    ensures threw == (w.inner in beh.throws)
    ensures t.token.requested == (old(t.token.requested) || w.inner in beh.cancels)
    ensures t.actionLog.actions == if threw then old(t.actionLog.actions) else old(t.actionLog.actions) + [w.inner]
  {
    // the user action runs
    if w.inner in beh.cancels {
      t.token.requested := true;
    }
    threw := w.inner in beh.throws;
    if !threw {
      t.actionLog.Log(w.inner);
    }
  }

  /** Awaits each action of `acts` in turn (the `foreach` loops of the
      pipeline); an action's exception propagates and stops the loop. */
  method RunAll<S, T>(acts: seq<TransitionAction>, t: Transition<S, T>, beh: Behaviour) returns (threw: Option<ActionId>)
    modifies t.actionLog, t.token
    ensures var o := RunActions(Inner(acts), old(t.actionLog.actions), old(t.token.requested), beh);
      o == if threw.None? then Ran(t.actionLog.actions, t.token.requested)
           else Threw(threw.value, t.actionLog.actions, t.token.requested)
  {
    ghost var goal := RunActions(Inner(acts), t.actionLog.actions, t.token.requested, beh);
    var i := 0;
    while i < |acts|
      invariant 0 <= i <= |acts|
      invariant RunActions(Inner(acts)[i..], t.actionLog.actions, t.token.requested, beh) == goal
    {
      assert Inner(acts)[i..][0] == acts[i].inner;
      assert Inner(acts)[i..][1..] == Inner(acts)[i + 1..];
      var failed := ExecuteAsync(acts[i], t, beh);
      if failed {
        return Some(acts[i].inner);
      }
      i := i + 1;
    }
    return None;
  }

  /** Removes the last occurrence of `x`, as delegate removal (`-=`) does;
      no change when `x` is absent. */
  function RemoveLast(s: seq<CallbackId>, x: CallbackId): (r: seq<CallbackId>)
    ensures multiset(r) == multiset(s) - multiset{x}
    decreases |s|
  {
    if s == [] then []
    else
      assert s == s[..|s| - 1] + [s[|s| - 1]];
      if s[|s| - 1] == x then s[..|s| - 1]
      else RemoveLast(s[..|s| - 1], x) + [s[|s| - 1]]
  }

  /** `RemoveLast` leaves a list without `x` as it was, and otherwise cuts
      out exactly the last occurrence of `x`, at index `i`, the others
      keeping their order. */
  lemma {:induction false} RemoveLastOccurrence(s: seq<CallbackId>, x: CallbackId) returns (i: nat)
    ensures x !in s ==> RemoveLast(s, x) == s
    ensures x in s ==> i < |s| && s[i] == x && x !in s[i + 1..] && RemoveLast(s, x) == s[..i] + s[i + 1..]
    decreases |s|
  {
    i := 0;
    if s != [] {
      var n := |s| - 1;
      var init := s[..n];
      assert s == init + [s[n]];
      if s[n] == x {
        i := n;
        assert s[n + 1..] == [];
        assert init == init + s[n + 1..];
      } else {
        i := RemoveLastOccurrence(init, x);
        if x in s {
          assert x in init;
          assert s[i + 1..] == init[i + 1..] + [s[n]];
          assert init[..i] == s[..i];
        }
      }
    }
  }

  /** Removing each callback of `cbs` in turn, as the `-=` loop does. */
  function RemoveEach(s: seq<CallbackId>, cbs: seq<CallbackId>): (r: seq<CallbackId>)
    ensures multiset(r) == multiset(s) - multiset(cbs)
    decreases |cbs|
  {
    if cbs == [] then s
    else
      var n := |cbs| - 1;
      assert cbs == cbs[..n] + [cbs[n]];
      RemoveLast(RemoveEach(s, cbs[..n]), cbs[n])
  }

  /** `TransitionCompletedEvent`: an ordered multicast list of callbacks. */
  class TransitionCompletedEvent {
    var subscribers: seq<CallbackId>

    constructor ()
      ensures subscribers == []
    {
      subscribers := [];
    }

    method Subscribe(cbs: seq<CallbackId>)
      modifies this
      ensures subscribers == old(subscribers) + cbs
    {
      var i := 0;
      while i < |cbs|
        invariant 0 <= i <= |cbs|
        invariant subscribers == old(subscribers) + cbs[..i]
      {
        subscribers := subscribers + [cbs[i]];
        i := i + 1;
      }
      assert cbs[..i] == cbs;
    }

    method Unsubscribe(cbs: seq<CallbackId>)
      modifies this
      ensures subscribers == RemoveEach(old(subscribers), cbs)
      ensures multiset(subscribers) == old(multiset(subscribers)) - multiset(cbs)
    {
      var i := 0;
      while i < |cbs|
        invariant 0 <= i <= |cbs|
        invariant subscribers == RemoveEach(old(subscribers), cbs[..i])
      {
        assert cbs[..i + 1][..i] == cbs[..i];
        subscribers := RemoveLast(subscribers, cbs[i]);
        i := i + 1;
      }
      assert cbs[..i] == cbs;
    }

    /** Calls every subscriber once, in subscription order; a throwing callback
        stops the invocation and its exception propagates. */
    method Invoke(beh: Behaviour) returns (notified: seq<CallbackId>, failed: Option<CallbackId>)
      ensures var k := FirstIn(subscribers, beh.failingCallbacks);
        (k.None? ==> failed.None? && notified == subscribers) &&
        (k.Some? ==> failed == Some(subscribers[k.value]) && notified == subscribers[..k.value])
    {
      notified := [];
      var i := 0;
      while i < |subscribers|
        invariant 0 <= i <= |subscribers|
        invariant notified == subscribers[..i]
        invariant forall j :: 0 <= j < i ==> subscribers[j] !in beh.failingCallbacks
      {
        if subscribers[i] in beh.failingCallbacks {
          return notified, Some(subscribers[i]);
        }
        notified := notified + [subscribers[i]];
        i := i + 1;
      }
      assert notified == subscribers;
      return notified, None;
    }
  }

  /** Unsubscribing the list that was subscribed to a fresh event leaves it
      without subscribers. */
  method SubscribeThenUnsubscribe(cbs: seq<CallbackId>) returns (left: seq<CallbackId>)
    ensures left == []
  {
    var ev := new TransitionCompletedEvent();
    ev.Subscribe(cbs);
    ev.Unsubscribe(cbs);
    assert multiset(ev.subscribers) == multiset{};
    left := ev.subscribers;
  }
}
