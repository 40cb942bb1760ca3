/**
 * The middleware chain (src/StateTransition/Transitions/TransitionMiddlewareHandler.cs
 * and its use in StateMachine.UseMiddleware).
 *
 * A handler's own code is not modelled; what matters to the engine is whether it
 * passes the call on to its successor (`base.Handle`) or stops it. The chain
 * ends in the terminal handler that runs the transition itself.
 */
module Middleware {

  type HandlerId = nat

  /** What the engine can observe of a handler. */
  datatype HandlerView = HandlerView(id: HandlerId, delegates: bool, terminal: bool)

  const RunView := HandlerView(0, false, true)

  /** The walk of `Handle` down a chain: the user handlers it enters, in
      order, and whether the call reaches the terminal handler. */
  datatype Walk = Walk(visited: seq<HandlerId>, delivered: bool)

  function Deliver(hs: seq<HandlerView>): Walk
    decreases |hs|
  {
    if hs == [] then Walk([], false)
    else if hs[0].terminal then Walk([], true)
    else if !hs[0].delegates || |hs| == 1 then Walk([hs[0].id], false)
    else var rest := Deliver(hs[1..]); Walk([hs[0].id] + rest.visited, rest.delivered)
  }

  function Ids(hs: seq<HandlerView>): (r: seq<HandlerId>)
    ensures |r| == |hs| && forall i :: 0 <= i < |hs| ==> r[i] == hs[i].id
  {
    if hs == [] then [] else [hs[0].id] + Ids(hs[1..])
  }

  function Reverse(hs: seq<HandlerView>): (r: seq<HandlerView>)
    ensures |r| == |hs|
  {
    if hs == [] then [] else Reverse(hs[1..]) + [hs[0]]
  }

  /** `Reverse` reverses: its `i`th element is the `i`th from the end. */
  lemma {:induction false} ReverseIndex(hs: seq<HandlerView>)
    ensures forall i :: 0 <= i < |hs| ==> Reverse(hs)[i] == hs[|hs| - 1 - i]
    decreases |hs|
  {
    if hs != [] {
      ReverseIndex(hs[1..]);
    }
  }

  /** The chain that the successive `UseMiddleware` calls of `registered`
      build: each new handler becomes the head, and the first one is linked
      to the terminal handler. */
  function Pipeline(registered: seq<HandlerView>): seq<HandlerView> {
    if registered == [] then [] else Reverse(registered) + [RunView]
  }

  /** A call walks the user handlers in chain order while they pass it on:
      it reaches the terminal handler exactly when every user handler before
      it passes the call on, and then it has entered all of them. */
  lemma {:induction false} DeliverWalk(hs: seq<HandlerView>)
    requires |hs| > 0 && hs[|hs| - 1].terminal
    requires forall i :: 0 <= i < |hs| - 1 ==> !hs[i].terminal
    ensures Deliver(hs).delivered <==> forall i :: 0 <= i < |hs| - 1 ==> hs[i].delegates
    ensures Deliver(hs).delivered ==> Deliver(hs).visited == Ids(hs[..|hs| - 1])
    decreases |hs|
  {
    if |hs| > 1 {
      assert !hs[0].terminal;
      if hs[0].delegates {
        DeliverWalk(hs[1..]);
        assert hs[..|hs| - 1] == [hs[0]] + hs[1..][..|hs[1..]| - 1];
      }
    }
  }

  /** Newest first: when every handler passes the call on, the handlers run
      in the reverse of their registration order, then the transition. */
  lemma NewestFirst(registered: seq<HandlerView>)
    requires registered != []
    requires forall i :: 0 <= i < |registered| ==> registered[i].delegates && !registered[i].terminal
    ensures Deliver(Pipeline(registered)) == Walk(Ids(Reverse(registered)), true)
  {
    var hs := Pipeline(registered);
    ReverseIndex(registered);
    assert hs[..|hs| - 1] == Reverse(registered);
    DeliverWalk(hs);
  }

  /** `UseMiddleware` on a non-empty pipeline puts the new handler in front. */
  lemma PipelinePush(registered: seq<HandlerView>, v: HandlerView)
    requires registered != []
    ensures Pipeline(registered + [v]) == [v] + Pipeline(registered)
  {
    ReverseIndex(registered);
    ReverseIndex(registered + [v]);
    assert Reverse(registered + [v]) == [v] + Reverse(registered);
  }

  /** A call reaches the terminal handler exactly when every registered
      handler passes it on. */
  lemma PipelineDelivers(registered: seq<HandlerView>)
    requires registered != []
    requires forall i :: 0 <= i < |registered| ==> !registered[i].terminal
    ensures Deliver(Pipeline(registered)).delivered <==> forall i :: 0 <= i < |registered| ==> registered[i].delegates
  {
    var n := |registered|;
    var rev := Reverse(registered);
    var hs := rev + [RunView];
    ReverseIndex(registered);
    forall i | 0 <= i < n
      ensures hs[i] == registered[n - 1 - i]
    {
      assert hs[i] == rev[i];
    }
    DeliverWalk(hs);
    if Deliver(hs).delivered {
      forall i | 0 <= i < n
        ensures registered[i].delegates
      {
        assert registered[i] == hs[n - 1 - i];
      }
    } else {
      var j :| 0 <= j < n && !hs[j].delegates;
      assert !registered[n - 1 - j].delegates;
    }
  }

  class Handler {
    const id: HandlerId
    const delegates: bool
    const terminal: bool
    var next: Handler?

    /** A user handler, not yet linked. */
    constructor (id: HandlerId, delegates: bool)
      ensures this.id == id && this.delegates == delegates && !terminal && next == null
    {
      this.id := id;
      this.delegates := delegates;
      terminal := false;
      next := null;
    }

    /** `RunMiddlewareHandler`, the terminal handler that runs the transition. */
    constructor Run()
      ensures View() == RunView && next == null
    {
      id := 0;
      delegates := false;
      terminal := true;
      next := null;
    }

    function View(): HandlerView {
      HandlerView(id, delegates, terminal)
    }

    /** Replaces the successor and nothing else. */
    method SetNext(n: Handler?)
      modifies this
      ensures next == n
    {
      next := n;
    }

    /** `Handle`: the terminal handler runs the transition once and ignores
        `Next`; a user handler either stops the call or passes it to `Next`
        through the base implementation, which does nothing without `Next`. */
    method Handle(ghost chain: seq<Handler>) returns (visited: seq<HandlerId>, delivered: bool)
      requires |chain| > 0 && chain[0] == this && Linked(chain)
      ensures Walk(visited, delivered) == Deliver(Views(chain))
      decreases |chain|
    {
      assert Views(chain)[0] == View();
      if terminal {
        return [], true;
      }
      if !delegates || next == null {
        return [id], false;
      }
      assert Views(chain)[1..] == Views(chain[1..]);
      var v, d := next.Handle(chain[1..]);
      return [id] + v, d;
    }
  }

  function Views(chain: seq<Handler>): (r: seq<HandlerView>)
    ensures |r| == |chain|
  {
    if chain == [] then [] else [chain[0].View()] + Views(chain[1..])
  }

  /** The `i`th view is the `i`th handler's. */
  lemma {:induction false} ViewsIndex(chain: seq<Handler>)
    ensures forall i :: 0 <= i < |chain| ==> Views(chain)[i] == chain[i].View()
    decreases |chain|
  {
    if chain != [] {
      ViewsIndex(chain[1..]);
    }
  }

  /** `chain` is the linked list that starts at its first handler. */
  ghost predicate Linked(chain: seq<Handler>)
    reads chain
  {
    && (forall i :: 0 <= i < |chain| - 1 ==> chain[i].next == chain[i + 1])
    && (|chain| > 0 ==> chain[|chain| - 1].next == null)
  }
}
