/**
 * Transition guards (src/StateTransition/Transitions/TransitionGuard.cs).
 * A guard is a pure predicate over a snapshot of the entity.
 */
module Guards {
  import opened Wrappers

  /** What a guard can see of the entity: its state and its other data. */
  datatype Snapshot<S> = Snapshot(state: S, data: int)

  /** `Empty` is the single always-true guard; `When(p)` wraps a user predicate. */
  datatype Guard<!S> = Empty | When(pred: Snapshot<S> -> bool)

  datatype ArgumentNull = ArgumentNull(parameter: string)

  /** The guard constructor, which refuses a null predicate. */
  function NewGuard<S>(pred: Option<Snapshot<S> -> bool>): (r: Result<Guard<S>, ArgumentNull>)
    ensures pred.None? <==> r.Failure?
    ensures r.Failure? ==> r.error == ArgumentNull("guard")
    ensures r.Success? ==> r.value.When? && r.value.pred == pred.value
  {
    match pred
    case None => Failure(ArgumentNull("guard"))
    case Some(p) => Success(When(p))
  }

  /** `GuardIsMet`: the predicate's own answer; the empty guard always passes. */
  function GuardIsMet<S>(g: Guard<S>, entity: Snapshot<S>): (met: bool)
    ensures g.Empty? ==> met
    ensures g.When? ==> met == g.pred(entity)
  {
    match g
    case Empty => true
    case When(p) => p(entity)
  }

  /** The entity the machine drives: the engine reads and writes `state`
      (the accessor pair given at construction) and never touches `data`. */
  class Entity<S> {
    var state: S
    var data: int

    constructor (state: S, data: int)
      ensures this.state == state && this.data == data
    {
      this.state := state;
      this.data := data;
    }

    function Snap(): (s: Snapshot<S>)
      reads this
      ensures s.state == state && s.data == data
    {
      Snapshot(state, data)
    }
  }
}
