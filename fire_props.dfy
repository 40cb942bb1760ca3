/**
 * Properties of `Fire` as a whole (StateMachine.cs:90-114): what a failed
 * transition leaves behind, how the autofire chain continues and stops, what
 * a middleware that does not pass the call on changes, and the shape of the
 * chain of completed transitions.
 */
module FireProperties {
  import opened Wrappers
  import opened Guards
  import opened Actions
  import opened Resolvers
  import opened Engine
  import opened EngineProperties

  /** A fire that selects a resolver hands it to the middleware chain and,
      once delivered, to the transition pipeline. */
  lemma FireSelects<S, T>(m: MachineView<S, T>, d: bool, e: Snapshot<S>, req: Request<S, T>, c: bool, beh: Behaviour, fuel: nat)
    requires Resolve(m, e, req).Success? && Resolve(m, e, req).value.Some?
    ensures var r := Resolve(m, e, req).value.value;
      Fire(m, d, e, req, c, beh, fuel) ==
      if !d then ThenAutofire(m, d, e, r, c, [], beh, fuel) else Delivered(m, d, e, r, c, beh, fuel)
  {
    var r := Resolve(m, e, req).value.value;
    assert Fire(m, d, e, req, c, beh, fuel) == Resolved(m, d, e, r, c, beh, fuel);
  }

  /** A transition that aborts ends the fire with its error; no autofire
      follows, and the entity is in the destination only when the abort
      came after the commit. */
  lemma FireAborted<S, T>(m: MachineView<S, T>, e: Snapshot<S>, req: Request<S, T>, c: bool, beh: Behaviour, fuel: nat)
    requires Resolve(m, e, req).Success? && Resolve(m, e, req).value.Some?
    requires var r := Resolve(m, e, req).value.value; Transit(m, m.states[e.state], r, c, beh).Aborted?
    ensures var r := Resolve(m, e, req).value.value;
      var o := Transit(m, m.states[e.state], r, c, beh);
      Fire(m, true, e, req, c, beh, fuel) ==
      FireResult(Failed(o.error), if o.committed then r.destination else e.state, o.cancelled, [])
  {
    FireSelects(m, true, e, req, c, beh, fuel);
  }

  /** A committed transition puts the entity in the destination and is always
      followed by an autofire request from there, on the same token, with
      one unit of fuel less. */
  lemma FireThenAutofires<S, T>(m: MachineView<S, T>, e: Snapshot<S>, req: Request<S, T>, c: bool, beh: Behaviour,
                                fuel: nat, fuel': nat)
    requires Resolve(m, e, req).Success? && Resolve(m, e, req).value.Some?
    requires var r := Resolve(m, e, req).value.value; Transit(m, m.states[e.state], r, c, beh).Committed?
    requires fuel == fuel' + 1
    ensures var r := Resolve(m, e, req).value.value;
      var o := Transit(m, m.states[e.state], r, c, beh);
      var next := Fire(m, true, e.(state := r.destination), Autofire, o.cancelled, beh, fuel');
      Fire(m, true, e, req, c, beh, fuel) == next.(completed := [o.transition] + next.completed)
  {
    FireSelects(m, true, e, req, c, beh, fuel);
  }

  /** The chain stops once the destination offers no autofire candidate, in
      particular at a finite state. */
  lemma FireChainStops<S, T>(m: MachineView<S, T>, e: Snapshot<S>, req: Request<S, T>, c: bool, beh: Behaviour, fuel: nat)
    requires Resolve(m, e, req).Success? && Resolve(m, e, req).value.Some?
    requires var r := Resolve(m, e, req).value.value; Transit(m, m.states[e.state], r, c, beh).Committed?
    requires fuel > 0
    requires var r := Resolve(m, e, req).value.value;
      m.states[r.destination].isFinite || Resolve(m, e.(state := r.destination), Autofire) == Success(None)
    ensures var r := Resolve(m, e, req).value.value;
      var o := Transit(m, m.states[e.state], r, c, beh);
      Fire(m, true, e, req, c, beh, fuel) == FireResult(Done, r.destination, o.cancelled, [o.transition])
  {
    FireThenAutofires(m, e, req, c, beh, fuel, fuel - 1);
  }

  /** A middleware that does not call its successor stops every transition:
      the entity keeps its state, nothing completes and the token is untouched,
      even along the autofire requests that a self-loop resolver triggers. */
  lemma {:induction false} FireBlocked<S, T>(m: MachineView<S, T>, e: Snapshot<S>, req: Request<S, T>, c: bool, beh: Behaviour, fuel: nat)
    ensures var res := Fire(m, false, e, req, c, beh, fuel);
      res.state == e.state && res.completed == [] && res.cancelled == c
    decreases fuel
  {
    match Resolve(m, e, req)
    case Failure(_) =>
    case Success(None) =>
    case Success(Some(r)) =>
      FireSelects(m, false, e, req, c, beh, fuel);
      if r.destination == e.state && fuel > 0 {
        FireBlocked(m, e, Autofire, c, beh, fuel - 1);
      }
  }

  /** With the token already cancelled, a fire that selects a resolver fails
      without changing the entity's state or completing anything. */
  lemma FireCancelledUpFront<S, T>(m: MachineView<S, T>, e: Snapshot<S>, req: Request<S, T>, beh: Behaviour, fuel: nat)
    requires Resolve(m, e, req).Success? && Resolve(m, e, req).value.Some?
    ensures var res := Fire(m, true, e, req, true, beh, fuel);
      && res.state == e.state && res.completed == [] && res.cancelled
      && (res.outcome == Failed(OperationCanceled) ||
          (res.outcome.Failed? && res.outcome.error.ActionException? && res.outcome.error.action in Inner(m.entry)))
  {
    FireSelects(m, true, e, req, true, beh, fuel);
    TransitCancelledUpFront(m, m.states[e.state], Resolve(m, e, req).value.value, beh);
  }

  /** The completed transitions of a fire form a path from the entity's state:
      each starts where the previous one ended, and every one after the first
      (and the first too, for an autofire request) leaves its source. */
  ghost predicate Path<S, T>(from: S, ts: seq<TransitionRecord<S, T>>, autofired: bool)
    decreases |ts|
  {
    ts != [] ==>
      && ts[0].source == from
      && (autofired ==> ts[0].destination != ts[0].source)
      && Path(ts[0].destination, ts[1..], true)
  }

  function Last<S, T>(from: S, ts: seq<TransitionRecord<S, T>>): S {
    if ts == [] then from else ts[|ts| - 1].destination
  }

  /** `Path` read index by index: the first transition leaves `from`, each
      later one starts where its predecessor ended and leaves its source. */
  lemma {:induction false} PathIndexed<S, T>(from: S, ts: seq<TransitionRecord<S, T>>, autofired: bool)
    requires Path(from, ts, autofired)
    ensures |ts| > 0 ==> ts[0].source == from
    ensures forall i :: 1 <= i < |ts| ==> ts[i].source == ts[i - 1].destination && ts[i].destination != ts[i].source
    ensures autofired && |ts| > 0 ==> ts[0].destination != ts[0].source
    decreases |ts|
  {
    if ts != [] {
      var rest := ts[1..];
      PathIndexed(ts[0].destination, rest, true);
      forall i | 1 <= i < |ts|
        ensures ts[i].source == ts[i - 1].destination && ts[i].destination != ts[i].source
      {
        assert ts[i] == rest[i - 1];
        if i > 1 {
          assert ts[i - 1] == rest[i - 2];
        }
      }
    }
  }

  lemma PathPrepend<S, T>(from: S, t: TransitionRecord<S, T>, ts: seq<TransitionRecord<S, T>>, autofired: bool)
    requires t.source == from && (autofired ==> t.destination != t.source)
    requires Path(t.destination, ts, true)
    ensures Path(from, [t] + ts, autofired) && Last(from, [t] + ts) == Last(t.destination, ts)
  {
    assert ([t] + ts)[1..] == ts;
  }

  /** The path property of one fire's result. */
  ghost predicate PathResult<S, T>(from: S, res: FireResult<S, T>, autofired: bool) {
    Path(from, res.completed, autofired) && (res.outcome.Done? ==> res.state == Last(from, res.completed))
  }

  lemma ResultPrepend<S, T>(from: S, t: TransitionRecord<S, T>, to: S, next: FireResult<S, T>, autofired: bool, res: FireResult<S, T>)
    requires res == next.(completed := [t] + next.completed)
    requires t.source == from && t.destination == to && (autofired ==> t.destination != t.source)
    requires PathResult(to, next, true)
    ensures PathResult(from, res, autofired)
  {
    PathPrepend(from, t, next.completed, autofired);
  }

  /** The fire's pipeline commits and an autofire request follows. */
  ghost predicate Continues<S, T>(m: MachineView<S, T>, d: bool, e: Snapshot<S>, req: Request<S, T>,
                                  c: bool, beh: Behaviour, fuel: nat) {
    && d && fuel > 0 && Resolve(m, e, req).Success? && Resolve(m, e, req).value.Some?
    && Transit(m, m.states[e.state], Resolve(m, e, req).value.value, c, beh).Committed?
  }

  /** The step of the path proof: a fire that continues completes one
      transition from the entity's state, and its path is that transition
      followed by the path of the autofire request that the entity `e'`,
      now in the transition's destination, then receives. */
  lemma ContinuesStep<S, T>(m: MachineView<S, T>, e: Snapshot<S>, req: Request<S, T>, c: bool, beh: Behaviour, fuel: nat)
    returns (e': Snapshot<S>, c': bool, fuel': nat)
    requires WellFormed(m) && Continues(m, true, e, req, c, beh, fuel)
    ensures fuel' < fuel
    ensures PathResult(e'.state, Fire(m, true, e', Autofire, c', beh, fuel'), true) ==>
      PathResult(e.state, Fire(m, true, e, req, c, beh, fuel), req.Autofire?)
  {
    var r := Resolve(m, e, req).value.value;
    SelectedIsEligible(m, e, req);
    TransitCommittedRecord(m, m.states[e.state], r, c, beh);
    fuel' := fuel - 1;
    FireThenAutofires(m, e, req, c, beh, fuel, fuel');
    var o := Transit(m, m.states[e.state], r, c, beh);
    e', c' := e.(state := r.destination), o.cancelled;
    var next := Fire(m, true, e', Autofire, c', beh, fuel');
    if PathResult(e'.state, next, true) {
      ResultPrepend(e.state, o.transition, e'.state, next, req.Autofire?, Fire(m, true, e, req, c, beh, fuel));
    }
  }

  /** The step of the path proof: a committed transition followed by the
      autofire request's own path. */
  lemma FirePathStep<S, T>(m: MachineView<S, T>, e: Snapshot<S>, req: Request<S, T>, c: bool, beh: Behaviour, fuel: nat)
    requires WellFormed(m) && Continues(m, true, e, req, c, beh, fuel)
    ensures PathResult(e.state, Fire(m, true, e, req, c, beh, fuel), req.Autofire?)
    decreases fuel, 0
  {
    var e', c', fuel' := ContinuesStep(m, e, req, c, beh, fuel);
    FirePath(m, true, e', Autofire, c', beh, fuel');
  }

  /** Every other way a fire ends completes at most one transition. */
  lemma FirePathBase<S, T>(m: MachineView<S, T>, d: bool, e: Snapshot<S>, req: Request<S, T>, c: bool, beh: Behaviour, fuel: nat)
    requires WellFormed(m) && !Continues(m, d, e, req, c, beh, fuel)
    ensures PathResult(e.state, Fire(m, d, e, req, c, beh, fuel), req.Autofire?)
  {
    if Resolve(m, e, req).Success? && Resolve(m, e, req).value.Some? {
      var r := Resolve(m, e, req).value.value;
      SelectedIsEligible(m, e, req);
      FireSelects(m, d, e, req, c, beh, fuel);
      if !d {
        FireBlocked(m, e, req, c, beh, fuel);
      } else if Transit(m, m.states[e.state], r, c, beh).Committed? {
        TransitCommittedRecord(m, m.states[e.state], r, c, beh);
      }
    }
  }

  /** The completed transitions of every fire follow a path (see `Path`). */
  lemma {:induction false} FirePath<S, T>(m: MachineView<S, T>, d: bool, e: Snapshot<S>, req: Request<S, T>,
                                          c: bool, beh: Behaviour, fuel: nat)
    requires WellFormed(m)
    ensures PathResult(e.state, Fire(m, d, e, req, c, beh, fuel), req.Autofire?)
    decreases fuel, 1
  {
    if Continues(m, d, e, req, c, beh, fuel) {
      FirePathStep(m, e, req, c, beh, fuel);
    } else {
      FirePathBase(m, d, e, req, c, beh, fuel);
    }
  }
}
