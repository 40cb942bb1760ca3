/**
 * The state machine object (src/StateTransition/StateMachine.cs) and the
 * configuration handle it returns for one state
 * (src/StateTransition/StateTransitionManager.cs).
 *
 * The machine owns the registry of configured states, the machine-wide
 * entry and exit actions, the completion callbacks, the middleware chain and
 * the default options. `View()` is the snapshot of all of it that the pure
 * engine (module Engine) is written against; `Fire` is proved to do what
 * `Engine.Fire` says on the snapshot taken when it starts.
 */
module Machine {
  import opened Wrappers
  import opened Options
  import opened Guards
  import opened Actions
  import opened Resolvers
  import opened Middleware
  import opened Engine
  import opened States
  import EngineProperties

  /** Errors raised while configuring a machine. */
  datatype ConfigError<S> =
    | AmbiguousStateConfiguration(state: S)
    | OptionsTypeMismatch(requested: OptionsType, configured: OptionsType)
    | ArgumentNullError(parameter: string)
    | NullReference(parameter: string)

  /** Index of the first state of `ss` that is configured already, either
      in `known` or by an earlier element of `ss`. */
  function FirstClash<S>(known: set<S>, ss: seq<S>): (k: Option<nat>)
    ensures k.Some? ==> k.value < |ss|
    decreases |ss|
  {
    if ss == [] then None
    else if ss[0] in known then Some(0)
    else match FirstClash(known + {ss[0]}, ss[1..])
      case None => None
      case Some(j) => Some(j + 1)
  }

  /** The states of `ss` up to the clash are new and pairwise distinct, and
      the clashing one is configured already or repeats an earlier one. */
  lemma {:induction false} FirstClashMeaning<S>(known: set<S>, ss: seq<S>)
    ensures var n := match FirstClash(known, ss) case None => |ss| case Some(k) => k;
      && (forall i :: 0 <= i < n ==> ss[i] !in known && forall j :: 0 <= j < i ==> ss[j] != ss[i])
      && (FirstClash(known, ss).Some? ==> ss[n] in known || exists j :: 0 <= j < n && ss[j] == ss[n])
    decreases |ss|
  {
    if ss != [] && ss[0] !in known {
      FirstClashMeaning(known + {ss[0]}, ss[1..]);
      var n := match FirstClash(known, ss) case None => |ss| case Some(k) => k;
      var n' := match FirstClash(known + {ss[0]}, ss[1..]) case None => |ss| - 1 case Some(k) => k;
      assert n == n' + 1;
      forall i | 0 <= i < n
        ensures ss[i] !in known && forall j :: 0 <= j < i ==> ss[j] != ss[i]
      {
        if i > 0 {
          assert ss[i] == ss[1..][i - 1];
          forall j | 0 <= j < i
            ensures ss[j] != ss[i]
          {
            if j > 0 {
              assert ss[j] == ss[1..][j - 1];
            }
          }
        }
      }
      if FirstClash(known, ss).Some? {
        assert ss[n] == ss[1..][n'];
        if ss[n] !in known && ss[n] != ss[0] {
          var j :| 0 <= j < n' && ss[1..][j] == ss[1..][n'];
          assert ss[j + 1] == ss[n];
        }
      }
    }
  }

  /** A record with no resolvers and no actions. */
  ghost predicate Blank<S, T>(st: State<S, T>)
    reads st
  {
    st.triggers == [] && st.byTrigger == map[] && st.before == map[] && st.after == map[]
  }

  /** How many states of `ss` are registered before the clash, if any. */
  function ClashIndex<S>(known: set<S>, ss: seq<S>): (n: nat)
    ensures n <= |ss|
  {
    match FirstClash(known, ss) case None => |ss| case Some(j) => j
  }

  /** A state before the clash is new. */
  lemma BeforeClashIsNew<S>(known: set<S>, ss: seq<S>, i: nat)
    requires i < ClashIndex(known, ss)
    ensures ss[i] !in known && ss[i] !in ss[..i]
  {
    FirstClashMeaning(known, ss);
    assert forall j :: 0 <= j < i ==> ss[..i][j] == ss[j];
  }

  /** The clashing state is configured by the time it is reached. */
  lemma ClashIsConfigured<S>(known: set<S>, ss: seq<S>)
    requires FirstClash(known, ss).Some?
    ensures var n := ClashIndex(known, ss); ss[n] in known || ss[n] in ss[..n]
  {
    FirstClashMeaning(known, ss);
    var n := ClashIndex(known, ss);
    if ss[n] !in known {
      var j :| 0 <= j < n && ss[j] == ss[n];
      assert ss[..n][j] == ss[n];
    }
  }

  lemma PrefixGrows<S>(ss: seq<S>, i: nat)
    requires i < |ss|
    ensures forall s :: s in ss[..i + 1] <==> s in ss[..i] || s == ss[i]
  {
    assert ss[..i + 1] == ss[..i] + [ss[i]];
  }

  /** The resolvers stored under the keys `ks` all use options from `objs`. */
  lemma {:induction false} ConcatOptions<S, T>(ks: seq<T>, m: map<T, seq<Resolver<S, T>>>, objs: set<TransitionOptions>)
    requires forall t, i :: t in m && 0 <= i < |m[t]| ==> m[t][i].options in objs
    ensures forall i :: 0 <= i < |Concat(ks, m)| ==> Concat(ks, m)[i].options in objs
    decreases |ks|
  {
    if ks != [] {
      ConcatOptions(ks[1..], m, objs);
    }
  }

  /** The candidates of an autofire request from the options objects as they
      are now: the resolvers whose options have `IsAutofire` set and that do
      not lead back to `current`. */
  function LiveAutofire<S(==), T>(rs: seq<Resolver<S, T>>, current: S): seq<Resolver<S, T>>
    reads set i | 0 <= i < |rs| :: rs[i].options
    decreases |rs|
  {
    if rs == [] then []
    else
      assert forall i :: 0 <= i < |rs[1..]| ==> rs[1..][i] == rs[i + 1];
      (if rs[0].options.isAutofire && rs[0].destination != current then [rs[0]] else []) + LiveAutofire(rs[1..], current)
  }

  /** Read while every flag agrees with the snapshot `m`, the live candidates
      are those of the snapshot. */
  lemma {:induction false} LiveAutofireIsSnapshot<S, T>(rs: seq<Resolver<S, T>>, m: MachineView<S, T>, current: S)
    requires forall i :: 0 <= i < |rs| ==> rs[i].options in m.autofire && m.autofire[rs[i].options] == rs[i].options.isAutofire
    ensures LiveAutofire(rs, current) == Filter(rs, AutofireFilter(m, current))
    decreases |rs|
  {
    if rs != [] {
      assert forall i :: 0 <= i < |rs[1..]| ==> rs[1..][i] == rs[i + 1];
      LiveAutofireIsSnapshot(rs[1..], m, current);
    }
  }


  // ----- the machine's invariant --------------------------------------

  /** Each registered state is filed under its own value, its resolver
      dictionary is well keyed, and its resolvers use options from `objs`. */
  ghost predicate RecordsValid<S, T>(states: map<S, State<S, T>>, objs: set<TransitionOptions>)
    reads states.Values
  {
    forall s :: s in states ==> states[s].current == s && RecordValid(states[s], objs)
  }

  ghost predicate RecordValid<S, T>(st: State<S, T>, objs: set<TransitionOptions>)
    reads st
  {
    Keyed(st.View()) && OptionsKnown(st, objs)
  }

  ghost predicate OptionsKnown<S, T>(st: State<S, T>, objs: set<TransitionOptions>)
    reads st
  {
    forall t, i :: t in st.byTrigger && 0 <= i < |st.byTrigger[t]| ==> st.byTrigger[t][i].options in objs
  }

  /** Every resolver filed in `byTrigger` uses options from `objs`. */
  ghost predicate OptionsIn<S, T>(byTrigger: map<T, seq<Resolver<S, T>>>, objs: set<TransitionOptions>) {
    forall t, i :: t in byTrigger && 0 <= i < |byTrigger[t]| ==> byTrigger[t][i].options in objs
  }

  /** The chain from `head` is what the `UseMiddleware` calls of
      `registered` built. */
  ghost predicate ChainValid(head: Handler?, chain: seq<Handler>, registered: seq<HandlerView>)
    reads chain
  {
    && (head == null <==> registered == [])
    && (chain != [] ==> chain[0] == head)
    && Linked(chain)
    && Views(chain) == Pipeline(registered)
    && (forall i :: 0 <= i < |registered| ==> !registered[i].terminal)
  }

  /** The first `UseMiddleware`: the handler, then the terminal one. */
  lemma ChainStart(h: Handler, run: Handler)
    requires h.next == run && run.next == null && run.View() == RunView && !h.terminal
    ensures ChainValid(h, [h, run], [h.View()])
  {
    assert Views([h, run]) == [h.View(), RunView];
    assert Reverse([h.View()]) == [h.View()];
  }

  /** A later `UseMiddleware`: the handler in front of the previous head. */
  lemma ChainPush(head: Handler, chain: seq<Handler>, registered: seq<HandlerView>, h: Handler)
    requires ChainValid(head, chain, registered) && h.next == head && h !in chain && !h.terminal
    ensures ChainValid(h, [h] + chain, registered + [h.View()])
  {
    PipelinePush(registered, h.View());
    assert ([h] + chain)[1..] == chain;
  }

  /** Everything the machine's invariant says about the objects it owns. */
  ghost predicate Parts<S, T>(states: map<S, State<S, T>>, objs: set<TransitionOptions>, shared: TransitionOptions,
                              dflt: TransitionOptions?, head: Handler?, chain: seq<Handler>,
                              registered: seq<HandlerView>, repr: set<object>)
    reads repr
  {
    && (forall s :: s in states ==> states[s] in repr)
    && (forall o :: o in objs ==> o in repr)
    && (forall h :: h in chain ==> h in repr)
    && RecordsValid(states, objs)
    && shared in objs
    && (dflt != null ==> dflt in objs)
    && ChainValid(head, chain, registered)
  }

  /** Filing several new blank records, each under its own value. */
  lemma PartsAddRecords<S, T>(states: map<S, State<S, T>>, states': map<S, State<S, T>>, objs: set<TransitionOptions>,
                              shared: TransitionOptions, dflt: TransitionOptions?, head: Handler?, chain: seq<Handler>,
                              registered: seq<HandlerView>, repr: set<object>, made: set<object>)
    requires Parts(states, objs, shared, dflt, head, chain, registered, repr)
    requires forall s :: s in states ==> s in states' && states'[s] == states[s]
    requires forall s :: s in states' && s !in states ==>
               states'[s] in made && states'[s].current == s && Blank(states'[s])
    ensures Parts(states', objs, shared, dflt, head, chain, registered, repr + made)
  {
    forall s | s in states'
      ensures states'[s].current == s && RecordValid(states'[s], objs)
    {
      if s in states {
        assert RecordValid(states[s], objs);
      } else {
        assert Keyed(states'[s].View());
      }
    }
  }

  /** Adding an options object, possibly making it the default. */
  lemma PartsAddOptions<S, T>(states: map<S, State<S, T>>, objs: set<TransitionOptions>, shared: TransitionOptions,
                              dflt: TransitionOptions?, head: Handler?, chain: seq<Handler>,
                              registered: seq<HandlerView>, repr: set<object>, o: TransitionOptions,
                              dflt': TransitionOptions?)
    requires Parts(states, objs, shared, dflt, head, chain, registered, repr)
    requires dflt' == dflt || dflt' == o
    ensures Parts(states, objs + {o}, shared, dflt', head, chain, registered, repr + {o})
  {
    forall s | s in states
      ensures OptionsKnown(states[s], objs + {o})
    {
      assert OptionsKnown(states[s], objs);
    }
  }

  /** A record that changed but is still well formed keeps the invariant. */
  twostate lemma PartsRecordChanged<S, T>(states: map<S, State<S, T>>, objs: set<TransitionOptions>, shared: TransitionOptions,
                                          dflt: TransitionOptions?, head: Handler?, chain: seq<Handler>,
                                          registered: seq<HandlerView>, repr: set<object>, st: State<S, T>)
    requires old(Parts(states, objs, shared, dflt, head, chain, registered, repr))
    requires st.current in states && states[st.current] == st && RecordValid(st, objs)
    requires forall o :: o in repr && o != st ==> unchanged(o)
    ensures Parts(states, objs, shared, dflt, head, chain, registered, repr)
  {
    forall s | s in states
      ensures states[s].current == s && RecordValid(states[s], objs)
    {
      if states[s] != st {
        assert old(RecordValid(states[s], objs));
      }
    }
    assert old(ChainValid(head, chain, registered));
    forall i | 0 <= i < |chain|
      ensures unchanged(chain[i])
    {
      assert chain[i] in chain;
    }
    assert Linked(chain);
  }

  /** The resolver dictionary after `MapTo` still uses known options. */
  lemma MapToOptions<S, T>(m: map<T, seq<Resolver<S, T>>>, t: T, r: Resolver<S, T>, objs: set<TransitionOptions>)
    requires forall u, i :: u in m && 0 <= i < |m[u]| ==> m[u][i].options in objs
    requires r.options in objs
    ensures var m' := m[t := (if t in m then m[t] else []) + [r]];
      forall u, i :: u in m' && 0 <= i < |m'[u]| ==> m'[u][i].options in objs
  {
  }

  /** The registry's records as the engine sees them. */
  ghost function StateViews<S, T>(states: map<S, State<S, T>>): (m: map<S, StateView<S, T>>)
    reads states.Values
    ensures m.Keys == states.Keys && forall s {:trigger m[s]} :: s in states ==> m[s] == states[s].View()
  {
    map s | s in states :: states[s].View()
  }

  /** The `IsAutofire` flag of each options object, read now. */
  ghost function Flags(objs: set<TransitionOptions>): (f: map<TransitionOptions, bool>)
    reads objs
    ensures f.Keys == objs && forall o {:trigger f[o]} :: o in objs ==> f[o] == o.isAutofire
  {
    map o | o in objs :: o.isAutofire
  }

  /** Records that show the views they showed before give the same
      snapshot of the registry. */
  lemma StatesSeen<S, T>(states: map<S, State<S, T>>, seen: map<S, StateView<S, T>>)
    requires seen.Keys == states.Keys
    requires forall s :: s in states ==> states[s].View() == seen[s]
    ensures StateViews(states) == seen
  {
  }

  /** Options objects whose flags are those seen before give the same flags. */
  lemma FlagsSeen(objs: set<TransitionOptions>, seen: map<TransitionOptions, bool>)
    requires seen.Keys == objs
    requires forall o :: o in objs ==> o.isAutofire == seen[o]
    ensures Flags(objs) == seen
  {
  }

  lemma FlagsAdd(objs: set<TransitionOptions>, o: TransitionOptions)
    ensures Flags(objs + {o}) == Flags(objs)[o := o.isAutofire]
  {
  }

  /** `MapTransitionToTriggerStateResolver`: an action resolver when an
      action is given, a plain one otherwise; the options fall back from the
      given ones to the machine's default and then to the shared instance. */
  function MapTransition<S, T>(trigger: T, destination: S, action: Option<ActionId>,
                               guard: Option<Snapshot<S> -> bool>, options: TransitionOptions?,
                               dflt: TransitionOptions?, shared: TransitionOptions): (r: Resolver<S, T>)
    ensures r.trigger == trigger && r.destination == destination
    ensures r.options == if options != null then options else if dflt != null then dflt else shared
    ensures r.guard == if guard.None? then Empty else When(guard.value)
    ensures r.action == if action.None? then None else Some(TransitionAction(action.value))
  {
    var o := if options != null then options else dflt;
    if action.Some? then NewActionResolver(trigger, destination, o, guard, action, shared).value
    else NewResolver(trigger, destination, o, guard, shared)
  }

  /** `new TOptions()` followed by the optional options lambda. */
  method NewOptions(kind: OptionsType, mutation: Option<Mutation>) returns (o: TransitionOptions)
    ensures fresh(o) && o.Built(kind, mutation)
  {
    o := new TransitionOptions(kind);
    if mutation.Some? {
      o.Apply(mutation.value);
      assert map[] + mutation.value.properties == mutation.value.properties;
      assert map[] + mutation.value.args == mutation.value.args;
    }
  }

  /** The loop of `SetFiniteState` on the registry `known`: files a new
      finite record for each state of `ss` until one is configured already;
      `i` is the position of that state, or `|ss|`. */
  method AddFiniteStates<S, T>(known: map<S, State<S, T>>, ss: seq<S>)
    returns (m: map<S, State<S, T>>, i: nat, ghost made: set<object>)
    requires forall s :: s in known ==> known[s].current == s
    ensures i == ClashIndex(known.Keys, ss)
    ensures i < |ss| ==> ss[i] in m && m[ss[i]].current == ss[i]
    ensures forall s :: s in known ==> s in m && m[s] == known[s]
    ensures forall s :: s in m && s !in known ==>
              && s in ss[..i] && m[s] in made && fresh(m[s])
              && m[s].current == s && m[s].isFinite && Blank(m[s])
    ensures forall j :: 0 <= j < i ==> ss[j] in m && ss[j] !in known
    ensures fresh(made)
  {
    ghost var n := ClashIndex(known.Keys, ss);
    m, i, made := known, 0, {};
    while i < |ss| && ss[i] !in m
      invariant i <= n
      invariant forall s :: s in known ==> s in m && m[s] == known[s]
      invariant forall s :: s in m && s !in known ==>
                  && s in ss[..i] && m[s] in made && fresh(m[s])
                  && m[s].current == s && m[s].isFinite && Blank(m[s])
      invariant forall j :: 0 <= j < i ==> ss[j] in m && ss[j] !in known
      invariant fresh(made)
    {
      if i == n {
        ClashIsConfigured(known.Keys, ss);
        assert false;
      }
      var st := new State<S, T>(ss[i], true);
      m := m[ss[i] := st];
      made := made + {st};
      PrefixGrows(ss, i);
      i := i + 1;
    }
    if i < n {
      BeforeClashIsNew(known.Keys, ss, i);
      assert false;
    }
  }

  // ----- the transition pipeline (StateMachine.cs:260-296) ----------

  /** The body of `FireTransition`, against `Transit` on the snapshot `m`:
      a fresh transition from `src` to the resolver's destination on the
      request's token, with the completion callbacks subscribed to a fresh
      event; then the default entry actions, the before-actions of the source
      for this destination, the resolver's own action and the commit. */
  method TransitPhase<S, T>(ghost m: MachineView<S, T>, src: State<S, T>, dst: State<S, T>,
                            entry: seq<TransitionAction>, exit: seq<TransitionAction>, callbacks: seq<CallbackId>,
                            e: Entity<S>, r: Resolver<S, T>, token: CancellationToken, beh: Behaviour)
    returns (out: TransitOutcome<S, T>)
    requires r.destination in m.states && m.states[r.destination] == dst.View() && dst.current == r.destination
    requires entry == m.entry && exit == m.exit && callbacks == m.callbacks && src.current == e.state
    modifies e, token
    ensures out == Transit(m, src.View(), r, old(token.requested), beh)
    ensures e.state == if out.Aborted? && !out.committed then old(e.state) else r.destination
    ensures e.data == old(e.data) && token.requested == out.cancelled
  {
    var ev := new TransitionCompletedEvent();
    ev.Subscribe(callbacks);
    assert ev.subscribers == callbacks;
    var t := new Transition(e, src.current, r.destination, r.trigger, r.options, token);
    var threw := RunAll(entry, t, beh);
    if threw.Some? {
      return Aborted(ActionException(threw.value), false, t.actionLog.actions, t.token.requested);
    }
    threw := src.RunActionsBefore(t, beh);
    if threw.Some? {
      return Aborted(ActionException(threw.value), false, t.actionLog.actions, t.token.requested);
    }
    out := OwnActionPhase(m, src.View(), dst, exit, callbacks, ev, t, r, beh);
  }

  /** The part of `FireTransition` from the resolver's own action on,
      against `OwnAction` on the snapshot `m`: for an action resolver a
      cancellation checkpoint and the action, whose exception becomes a
      TransitionException carrying the transition. */
  method OwnActionPhase<S, T>(ghost m: MachineView<S, T>, ghost sv: StateView<S, T>, dst: State<S, T>,
                              exit: seq<TransitionAction>, callbacks: seq<CallbackId>, ev: TransitionCompletedEvent,
                              t: Transition<S, T>, r: Resolver<S, T>, beh: Behaviour) returns (out: TransitOutcome<S, T>)
    requires r.destination in m.states && m.states[r.destination] == dst.View() && dst.current == r.destination
    requires exit == m.exit && callbacks == m.callbacks && ev.subscribers == callbacks
    requires t.source == sv.current && t.destination == r.destination && t.trigger == r.trigger && t.options == r.options
    modifies t.entity, t.token, t.actionLog, ev
    ensures out == OwnAction(m, sv, r, old(t.actionLog.actions), old(t.token.requested), beh)
    ensures t.entity.state == if out.Aborted? && !out.committed then old(t.entity.state) else r.destination
    ensures t.entity.data == old(t.entity.data) && t.token.requested == out.cancelled
  {
    if r.action.Some? {
      if t.token.requested {
        return Aborted(OperationCanceled, false, t.actionLog.actions, true);
      }
      var failure := Execute(r, t, beh);
      if failure.Some? {
        return Aborted(TransitionException(failure.value), false, t.actionLog.actions, t.token.requested);
      }
    }
    out := CommitPhase(m, sv, dst, exit, callbacks, ev, t, r, beh);
  }

  /** The tail of `FireTransition` from the last cancellation checkpoint on,
      against `Commit` on the snapshot `m`: the entity's state is written,
      then the after-actions of the destination for this source, the default
      exit actions and the completion callbacks, subscribed to `ev` when
      the transition started, run. */
  method CommitPhase<S, T>(ghost m: MachineView<S, T>, ghost sv: StateView<S, T>, dst: State<S, T>,
                           exit: seq<TransitionAction>, callbacks: seq<CallbackId>, ev: TransitionCompletedEvent,
                           t: Transition<S, T>, r: Resolver<S, T>, beh: Behaviour) returns (out: TransitOutcome<S, T>)
    requires r.destination in m.states && m.states[r.destination] == dst.View() && dst.current == r.destination
    requires exit == m.exit && callbacks == m.callbacks && ev.subscribers == callbacks
    requires t.source == sv.current && t.destination == r.destination && t.trigger == r.trigger && t.options == r.options
    modifies t.entity, t.token, t.actionLog, ev
    ensures out == Commit(m, sv, r, old(t.actionLog.actions), old(t.token.requested), beh)
    ensures t.entity.state == if out.Aborted? && !out.committed then old(t.entity.state) else r.destination
    ensures t.entity.data == old(t.entity.data) && t.token.requested == out.cancelled
  {
    if t.token.requested {
      return Aborted(OperationCanceled, false, t.actionLog.actions, true);
    }
    t.entity.state := t.destination;
    var threw := dst.RunActionsAfter(t, beh);
    if threw.Some? {
      return Aborted(ActionException(threw.value), true, t.actionLog.actions, t.token.requested);
    }
    threw := RunAll(exit, t, beh);
    if threw.Some? {
      return Aborted(ActionException(threw.value), true, t.actionLog.actions, t.token.requested);
    }
    var notified, failed := ev.Invoke(beh);
    if failed.Some? {
      return Aborted(CallbackException(failed.value, t.Record()), true, t.actionLog.actions, t.token.requested);
    }
    ev.Unsubscribe(callbacks);
    return Committed(t.Record(), t.token.requested);
  }

  // ----- firing (StateMachine.cs:90-114, 182-348) ---------------------

  /** The fields of a machine that a fire reads. */
  datatype Config<S(==), T(==)> = Config(states: map<S, State<S, T>>, entry: seq<TransitionAction>,
                                          exit: seq<TransitionAction>, callbacks: seq<CallbackId>, head: Handler?)

  /** The records and options objects of `cfg`, all in `fp`, show the
      snapshot `m`: each record is filed under its own value with a
      well-keyed dictionary whose resolvers use options from `objs`, and `m`
      holds the flags of `objs`. */
  ghost predicate Mirrors<S, T>(m: MachineView<S, T>, cfg: Config<S, T>, objs: set<TransitionOptions>, fp: set<object>)
    reads fp
  {
    && (forall o :: o in objs ==> o in fp)
    && (forall s {:trigger s in cfg.states} :: s in m.states ==> s in cfg.states)
    && (forall s {:trigger cfg.states[s]} :: s in cfg.states ==>
          && cfg.states[s] in fp && cfg.states[s].current == s
          && s in m.states && m.states[s] == cfg.states[s].View()
          && Keyed(m.states[s]) && OptionsIn(m.states[s].byTrigger, objs))
    && (forall o :: o in objs ==> o in m.autofire && m.autofire[o] == o.isAutofire)
    && m.entry == cfg.entry && m.exit == cfg.exit && m.callbacks == cfg.callbacks
  }

  /** The chain `chain`, in `fp`, from `cfg.head` hands a call on to the
      transition exactly when `d`; without a chain the transition runs
      directly. */
  ghost predicate Routes<S, T>(cfg: Config<S, T>, chain: seq<Handler>, d: bool, fp: set<object>)
    reads chain
  {
    && (cfg.head == null ==> d)
    && (forall i :: 0 <= i < |chain| ==> chain[i] in fp)
    && (cfg.head != null ==>
          chain != [] && chain[0] == cfg.head && Linked(chain) && (Deliver(Views(chain)).delivered <==> d))
  }

  /** What leaves the footprint untouched keeps both. */
  twostate lemma MirrorsKept<S, T>(new m: MachineView<S, T>, new cfg: Config<S, T>, new objs: set<TransitionOptions>,
                                   new fp: set<object>, new chain: seq<Handler>, d: bool)
    requires old(allocated(m) && allocated(cfg) && allocated(objs) && allocated(fp) && allocated(chain))
    requires old(Mirrors(m, cfg, objs, fp) && Routes(cfg, chain, d, fp))
    requires forall o :: o in fp ==> unchanged(o)
    ensures Mirrors(m, cfg, objs, fp) && Routes(cfg, chain, d, fp)
  {
    assert forall s :: s in cfg.states ==> cfg.states[s] in fp;
    assert forall i :: 0 <= i < |chain| ==> chain[i] in fp;
  }

  /** The autofire candidates read from the options objects now are those
      of the snapshot. */
  lemma LiveAutofireMirrors<S, T>(m: MachineView<S, T>, cfg: Config<S, T>, objs: set<TransitionOptions>, fp: set<object>,
                                  st: State<S, T>)
    requires Mirrors(m, cfg, objs, fp) && st.current in cfg.states && cfg.states[st.current] == st
    ensures LiveAutofire(AllResolvers(st.View()), st.current) == AutofireResolvers(m, m.states[st.current])
  {
    assert m.states[st.current] == st.View();
    ConcatOptions(st.triggers, st.byTrigger, objs);
    LiveAutofireIsSnapshot(AllResolvers(st.View()), m, st.current);
  }

  /** `TryGetRequiredTriggerStateResolverFor` and the `CanFire` variant it
      dispatches to, on the entity as it is now; the autofire candidates
      read the `IsAutofire` flags of the options objects at this moment. */
  method ResolveOn<S, T>(ghost m: MachineView<S, T>, cfg: Config<S, T>, ghost objs: set<TransitionOptions>,
                         ghost fp: set<object>, e: Entity<S>, req: Request<S, T>) returns (r: Result<Option<Resolver<S, T>>, Error<S, T>>)
    requires Mirrors(m, cfg, objs, fp)
    ensures r == Resolve(m, e.Snap(), req)
  {
    var cur := e.state;
    if cur !in cfg.states {
      return Failure(StateNotConfigured(cur));
    }
    var st := cfg.states[cur];
    if st.isFinite {
      return Success(None);
    }
    var sv := st.View();
    var snap := e.Snap();
    var canFire: Result<Option<Resolver<S, T>>, Error<S, T>>;
    match req {
      case ByTrigger(t) =>
        canFire := CanFireByTrigger(sv, t, snap);
      case ByState(target) =>
        canFire := CanFireByState(sv, target, snap);
      case Autofire =>
        var rs := LiveAutofire(AllResolvers(sv), cur);
        LiveAutofireMirrors(m, cfg, objs, fp, st);
        canFire := if rs == [] then Success(None) else SelectSuitable(rs, GuardPasses(snap));
    }
    match canFire {
      case Failure(err) =>
        r := Failure(err);
      case Success(None) =>
        r := Success(None);
      case Success(Some(rv)) =>
        r := if rv.destination !in cfg.states then Failure(StateNotConfigured(rv.destination)) else Success(Some(rv));
    }
  }

  /** `Fire`: resolves the request on the entity as it is now, and hands a
      resolver found on to `PassOn`. */
  method FireOn<S, T>(ghost m: MachineView<S, T>, cfg: Config<S, T>, ghost objs: set<TransitionOptions>,
                      ghost fp: set<object>, ghost chain: seq<Handler>, ghost d: bool,
                      e: Entity<S>, req: Request<S, T>, token: CancellationToken, beh: Behaviour, fuel: nat)
    returns (res: FireResult<S, T>)
    requires Mirrors(m, cfg, objs, fp) && Routes(cfg, chain, d, fp) && e !in fp && token !in fp
    modifies e, token
    ensures res == Engine.Fire(m, d, old(e.Snap()), req, old(token.requested), beh, fuel)
    ensures e.state == res.state && e.data == old(e.data) && token.requested == res.cancelled
    decreases fuel, 3
  {
    var resolved := ResolveOn(m, cfg, objs, fp, e, req);
    if resolved.Failure? {
      return FireResult(Failed(resolved.error), e.state, token.requested, []);
    }
    if resolved.value.None? {
      return FireResult(Done, e.state, token.requested, []);
    }
    res := PassOn(m, cfg, objs, fp, chain, d, e, resolved.value.value, token, beh, fuel);
  }

  /** The resolver found goes through the middleware chain; when the chain
      hands the call on, its terminal handler runs `FireTransition`
      (`TransitOn`), otherwise `ThenAutofireOn` follows directly. */
  method PassOn<S, T>(ghost m: MachineView<S, T>, cfg: Config<S, T>, ghost objs: set<TransitionOptions>,
                      ghost fp: set<object>, ghost chain: seq<Handler>, ghost d: bool,
                      e: Entity<S>, r: Resolver<S, T>, token: CancellationToken,
                      beh: Behaviour, fuel: nat)
    returns (res: FireResult<S, T>)
    requires Mirrors(m, cfg, objs, fp) && Routes(cfg, chain, d, fp) && e !in fp && token !in fp
    requires e.state in m.states && r.destination in m.states
    modifies e, token
    ensures res == Engine.Resolved(m, d, old(e.Snap()), r, old(token.requested), beh, fuel)
    ensures e.state == res.state && e.data == old(e.data) && token.requested == res.cancelled
    decreases fuel, 2
  {
    var delivered := true;
    if cfg.head != null {
      var visited;
      visited, delivered := cfg.head.Handle(chain);
    }
    if delivered {
      res := TransitOn(m, cfg, objs, fp, chain, d, e, r, token, beh, fuel);
    } else {
      res := ThenAutofireOn(m, cfg, objs, fp, chain, d, e, r, token, [], beh, fuel);
    }
  }

  /** The pipeline run by the terminal handler; a transition that
      completes is followed by `ThenAutofireOn` from its destination. */
  method TransitOn<S, T>(ghost m: MachineView<S, T>, cfg: Config<S, T>, ghost objs: set<TransitionOptions>,
                         ghost fp: set<object>, ghost chain: seq<Handler>, ghost d: bool,
                         e: Entity<S>, r: Resolver<S, T>, token: CancellationToken, beh: Behaviour, fuel: nat)
    returns (res: FireResult<S, T>)
    requires Mirrors(m, cfg, objs, fp) && Routes(cfg, chain, d, fp) && e !in fp && token !in fp
    requires e.state in m.states && r.destination in m.states
    modifies e, token
    ensures res == Engine.Delivered(m, d, old(e.Snap()), r, old(token.requested), beh, fuel)
    ensures e.state == res.state && e.data == old(e.data) && token.requested == res.cancelled
    decreases fuel, 1
  {
    var src, dst := cfg.states[e.state], cfg.states[r.destination];
    assert src.current == e.state && dst.current == r.destination;
    var out := TransitPhase(m, src, dst, cfg.entry, cfg.exit, cfg.callbacks, e, r, token, beh);
    if out.Aborted? {
      return FireResult(Failed(out.error), e.state, token.requested, []);
    }
    MirrorsKept(m, cfg, objs, fp, chain, d);
    res := ThenAutofireOn(m, cfg, objs, fp, chain, d, e, r, token, [out.transition], beh, fuel);
  }

  /** After the pipeline: when the entity is in the fired resolver's
      destination, an autofire request follows on the same entity and
      token; `fuel` bounds that recursion, which the source does not bound. */
  method ThenAutofireOn<S, T>(ghost m: MachineView<S, T>, cfg: Config<S, T>, ghost objs: set<TransitionOptions>,
                              ghost fp: set<object>, ghost chain: seq<Handler>, ghost d: bool, e: Entity<S>, r: Resolver<S, T>,
                              token: CancellationToken, done: seq<TransitionRecord<S, T>>, beh: Behaviour, fuel: nat)
    returns (res: FireResult<S, T>)
    requires Mirrors(m, cfg, objs, fp) && Routes(cfg, chain, d, fp) && e !in fp && token !in fp
    modifies e, token
    ensures res == Engine.ThenAutofire(m, d, old(e.Snap()), r, old(token.requested), done, beh, fuel)
    ensures e.state == res.state && e.data == old(e.data) && token.requested == res.cancelled
    decreases fuel, 0
  {
    if r.destination != e.state {
      return FireResult(Done, e.state, token.requested, done);
    }
    if fuel == 0 {
      return FireResult(Failed(FuelExhausted), e.state, token.requested, done);
    }
    var next := FireOn(m, cfg, objs, fp, chain, d, e, Autofire, token, beh, fuel - 1);
    res := next.(completed := done + next.completed);
  }

  // ----- the machine ---------------------------------------------------

  class StateMachine<S(==), T(==)> {
    /** `_configuredStates`. */
    var states: map<S, State<S, T>>
    /** `DefaultEntryActions` and `DefaultExitActions`. */
    var entry: seq<TransitionAction>
    var exit: seq<TransitionAction>
    /** `OnTransitionCompletedEventActions`. */
    var callbacks: seq<CallbackId>
    /** `TransitionMiddlewareHandlerPipeline`, the head of the chain. */
    var head: Handler?
    /** The chain from the head, and the handlers in registration order. */
    ghost var chain: seq<Handler>
    ghost var registered: seq<HandlerView>
    /** `_defaultTransitionOptions`. */
    var defaultOptions: TransitionOptions?
    /** `BaseTransitionOptions.Default`, used when no options are given and
        no default is set. */
    const shared: TransitionOptions
    /** Every options object a resolver of this machine may refer to. */
    ghost var optionObjs: set<TransitionOptions>
    /** The objects the machine owns besides itself: records, options
        objects and handlers. */
    ghost var Repr: set<object>

    ghost predicate Valid()
      reads this, Repr
    {
      this !in Repr && Parts(states, optionObjs, shared, defaultOptions, head, chain, registered, Repr)
    }

    /** The snapshot the engine works on; options flags are read now. */
    ghost function View(): MachineView<S, T>
      requires Valid()
      reads this, Repr
    {
      MachineView(StateViews(states), entry, exit, callbacks, Flags(optionObjs))
    }

    /** Whether the middleware chain hands a call on to the transition. */
    ghost predicate Delivers()
      reads this
    {
      forall i :: 0 <= i < |registered| ==> registered[i].delegates
    }

    /** The snapshot of a valid machine is well formed. */
    lemma ViewWellFormed()
      requires Valid()
      ensures WellFormed(View())
    {
      var m := View();
      forall s | s in m.states
        ensures m.states[s].current == s && StateWellFormed(m.states[s], m.autofire)
      {
        assert m.states[s] == states[s].View();
        assert RecordValid(states[s], optionObjs);
      }
    }

    constructor ()
      ensures Valid() && fresh(Repr)
      ensures states == map[] && entry == [] && exit == [] && callbacks == []
      ensures registered == [] && defaultOptions == null
      ensures View() == MachineView(map[], [], [], [], map[shared := false])
    {
      states := map[];
      entry := [];
      exit := [];
      callbacks := [];
      head := null;
      chain := [];
      registered := [];
      defaultOptions := null;
      var o := new TransitionOptions(Base);
      shared := o;
      optionObjs := {o};
      Repr := {o};
      new;
      assert Flags(optionObjs) == map[shared := false];
    }

    /** The parts of the machine that registering states does not touch. */
    twostate predicate ListsKept()
      reads this
    {
      && entry == old(entry) && exit == old(exit) && callbacks == old(callbacks)
      && head == old(head) && chain == old(chain) && registered == old(registered)
      && defaultOptions == old(defaultOptions) && optionObjs == old(optionObjs)
    }

    /** The registry grew by fresh blank records, each filed under its own
        value, and nothing else the invariant speaks of changed. */
    twostate lemma RegistryGrew(new made: set<object>)
      requires old(Valid()) && ListsKept()
      requires forall o :: o in old(Repr) ==> unchanged(o)
      requires Repr == old(Repr) + made && this !in made
      requires forall s :: s in old(states) ==> s in states && states[s] == old(states)[s]
      requires forall s :: s in states && s !in old(states) ==>
                 states[s] in made && states[s].current == s && Blank(states[s])
      ensures Valid()
    {
      assert old(Parts(states, optionObjs, shared, defaultOptions, head, chain, registered, Repr));
      PartsAddRecords(old(states), states, optionObjs, shared, defaultOptions, head, chain, registered, old(Repr), made);
    }

    /** A fresh options object joined the known ones, possibly as the
        default, and nothing else the invariant or the snapshot speaks of
        changed. */
    twostate lemma OptionsJoined(new o: TransitionOptions)
      requires old(Valid()) && fresh(o)
      requires forall x :: x in old(Repr) ==> unchanged(x)
      requires states == old(states) && entry == old(entry) && exit == old(exit) && callbacks == old(callbacks)
      requires head == old(head) && chain == old(chain) && registered == old(registered)
      requires defaultOptions == old(defaultOptions) || defaultOptions == o
      requires optionObjs == old(optionObjs) + {o} && Repr == old(Repr) + {o}
      ensures Valid()
      ensures View() == old(View()).(autofire := old(View()).autofire[o := o.isAutofire])
    {
      assert old(Parts(states, optionObjs, shared, defaultOptions, head, chain, registered, Repr));
      PartsAddOptions(states, old(optionObjs), shared, old(defaultOptions), head, chain, registered, old(Repr), o, defaultOptions);
      FlagsAdd(old(optionObjs), o);
      StatesSeen(states, old(StateViews(states)));
      FlagsSeen(old(optionObjs), old(Flags(optionObjs)));
    }

    /** `GetOrConfigure`: the record of `s`, registering a fresh non-finite
        record with no resolvers and no actions when `s` is new. */
    method GetOrConfigure(s: S) returns (st: State<S, T>)
      requires Valid()
      modifies this
      ensures Valid() && fresh(Repr - old(Repr)) && old(Repr) <= Repr && ListsKept()
      ensures s in old(states) ==> st == old(states)[s] && states == old(states)
      ensures s !in old(states) ==>
        && fresh(st) && states == old(states)[s := st]
        && st.View() == Unconfigured(s)
      ensures s in old(states) ==> View() == old(View())
      ensures View() == old(View()).(states := old(View()).states[s :=
        if s in old(states) then old(View()).states[s] else Unconfigured(s)])
    {
      if s in states {
        st := states[s];
        ghost var m := View().states;
        assert m[s := m[s]] == m;
      } else {
        st := AddState(s, false);
      }
    }

    /** Files a new record for `s` with no resolvers and no actions. */
    method AddState(s: S, isFinite: bool) returns (st: State<S, T>)
      requires Valid() && s !in states
      modifies this
      ensures Valid() && Repr == old(Repr) + {st} && ListsKept()
      ensures fresh(st) && states == old(states)[s := st]
      ensures st.View() == StateView(s, isFinite, [], map[], map[], map[])
      ensures View() == old(View()).(states := old(View()).states[s := st.View()])
    {
      st := new State(s, isFinite);
      states := states[s := st];
      Repr := Repr + {st};
      RegistryGrew({st});
      RecordAdded(s);
    }

    /** `Configure`: the configuration handle of state `s`, registering it
        first when it is new. */
    method Configure(s: S) returns (mgr: StateTransitionManager<S, T>)
      requires Valid()
      modifies this
      ensures Valid() && fresh(Repr - old(Repr)) && old(Repr) <= Repr && ListsKept()
      ensures fresh(mgr) && mgr.machine == this && s in states && mgr.state == states[s] && mgr.Valid()
      ensures s in old(states) ==> states == old(states)
      ensures s !in old(states) ==>
        && fresh(mgr.state) && states == old(states)[s := mgr.state]
        && mgr.state.View() == Unconfigured(s)
    {
      var st := GetOrConfigure(s);
      mgr := new StateTransitionManager(st, this);
    }

    /** `SetFiniteState`: registers each state of `ss` as a new finite state,
        in order; the first one configured already raises
        AmbiguousStateConfiguration, and the states before it stay registered. */
    method SetFiniteState(ss: seq<S>) returns (res: Result<(), ConfigError<S>>)
      requires Valid()
      modifies this
      ensures Valid() && fresh(Repr - old(Repr)) && old(Repr) <= Repr && ListsKept()
      ensures var n := ClashIndex(old(states).Keys, ss);
        && (res.Failure? <==> n < |ss|)
        && (n < |ss| ==> res == Failure(AmbiguousStateConfiguration(ss[n])))
        && (forall s :: s in old(states) ==> s in states && states[s] == old(states)[s])
        && (forall s :: s in states ==> s in old(states) || s in ss[..n])
        && (forall i :: 0 <= i < n ==>
              && ss[i] in states && fresh(states[ss[i]])
              && states[ss[i]].isFinite && Blank(states[ss[i]]))
    {
      var m, i, made := AddFiniteStates(states, ss);
      states := m;
      Repr := Repr + made;
      RegistryGrew(made);
      if i < |ss| {
        return Failure(AmbiguousStateConfiguration(m[ss[i]].current));
      }
      return Success(());
    }

    /** `AddDefaultEntryAction`: runs, after those added before, at the
        start of every transition. */
    method AddDefaultEntryAction(a: ActionId)
      requires Valid()
      modifies this
      ensures Valid() && Repr == old(Repr)
      ensures View() == old(View()).(entry := old(entry) + [TransitionAction(a)])
    {
      entry := entry + [TransitionAction(a)];
    }

    /** `AddDefaultExitAction`: runs, after those added before, at the end
        of every transition, after all its other actions. */
    method AddDefaultExitAction(a: ActionId)
      requires Valid()
      modifies this
      ensures Valid() && Repr == old(Repr)
      ensures View() == old(View()).(exit := old(exit) + [TransitionAction(a)])
    {
      exit := exit + [TransitionAction(a)];
    }

    /** `OnTransitionCompleted`: the callback is notified after every
        completed transition, after those added before. */
    method OnTransitionCompleted(cb: CallbackId)
      requires Valid()
      modifies this
      ensures Valid() && Repr == old(Repr)
      ensures View() == old(View()).(callbacks := old(callbacks) + [cb])
    {
      callbacks := callbacks + [cb];
    }

    /** `UseMiddleware`: the new handler becomes the head of the chain; the
        first one is linked to a fresh terminal handler, a later one to the
        previous head. The snapshot is untouched, and calls now reach the
        transition exactly when they did before and the new handler passes
        them on. */
    method UseMiddleware(h: Handler)
      requires Valid() && h !in Repr && !h.terminal
      modifies this, h
      ensures Valid() && h in Repr && fresh(Repr - old(Repr) - {h})
      ensures head == h && registered == old(registered) + [h.View()]
      ensures old(head) != null ==> h.next == old(head)
      ensures old(head) == null ==> h.next != null && h.next.View() == RunView
      ensures Delivers() == (old(Delivers()) && h.delegates)
      ensures states == old(states) && defaultOptions == old(defaultOptions) && optionObjs == old(optionObjs)
      ensures View() == old(View())
    {
      if head == null {
        LinkFirst(h);
      } else {
        LinkFront(h);
      }
      assert registered[|registered| - 1] == h.View();
      assert forall i :: 0 <= i < |old(registered)| ==> registered[i] == old(registered)[i];
      MiddlewareAdded();
    }

    /** The linking done by the first `UseMiddleware`: the handler is
        linked to a fresh terminal handler. */
    method LinkFirst(h: Handler)
      requires head == null && chain == [] && registered == [] && this !in Repr && h !in Repr && !h.terminal
      modifies this, h
      ensures ChainValid(head, chain, registered) && forall i :: 0 <= i < |chain| ==> chain[i] in Repr
      ensures old(Repr) + {h} <= Repr && this !in Repr && fresh(Repr - old(Repr) - {h})
      ensures head == h && registered == [h.View()]
      ensures h.next != null && h.next.View() == RunView
      ensures states == old(states) && entry == old(entry) && exit == old(exit) && callbacks == old(callbacks)
      ensures defaultOptions == old(defaultOptions) && optionObjs == old(optionObjs)
    {
      var run := new Handler.Run();
      h.SetNext(run);
      head, chain, registered, Repr := h, [h, run], [h.View()], Repr + {h, run};
      ChainStart(h, run);
    }

    /** The linking done by a later `UseMiddleware`: the handler is linked
        to the previous head. */
    method LinkFront(h: Handler)
      requires head != null && ChainValid(head, chain, registered) && this !in Repr
      requires (forall i :: 0 <= i < |chain| ==> chain[i] in Repr) && h !in Repr && !h.terminal
      modifies this, h
      ensures ChainValid(head, chain, registered) && forall i :: 0 <= i < |chain| ==> chain[i] in Repr
      ensures Repr == old(Repr) + {h} && this !in Repr
      ensures head == h && registered == old(registered) + [h.View()] && h.next == old(head)
      ensures states == old(states) && entry == old(entry) && exit == old(exit) && callbacks == old(callbacks)
      ensures defaultOptions == old(defaultOptions) && optionObjs == old(optionObjs)
    {
      var prev := head;
      ghost var oldChain, oldRegistered := chain, registered;
      h.SetNext(prev);
      head, chain, registered, Repr := h, [h] + chain, registered + [h.View()], Repr + {h};
      assert ChainValid(prev, oldChain, oldRegistered);
      ChainPush(prev, oldChain, oldRegistered, h);
    }

    /** Handlers joined the chain and nothing else the invariant or the
        snapshot speaks of changed. */
    twostate lemma MiddlewareAdded()
      requires old(Valid()) && old(Repr) <= Repr && this !in Repr
      requires forall x :: x in old(Repr) ==> unchanged(x)
      requires states == old(states) && entry == old(entry) && exit == old(exit) && callbacks == old(callbacks)
      requires defaultOptions == old(defaultOptions) && optionObjs == old(optionObjs)
      requires forall i :: 0 <= i < |chain| ==> chain[i] in Repr
      requires ChainValid(head, chain, registered)
      ensures Valid() && View() == old(View())
    {
      assert old(Parts(states, optionObjs, shared, defaultOptions, head, chain, registered, Repr));
      forall s | s in states
        ensures states[s].current == s && RecordValid(states[s], optionObjs)
      {
        assert old(RecordValid(states[s], optionObjs));
      }
      StatesSeen(states, old(StateViews(states)));
      FlagsSeen(optionObjs, old(Flags(optionObjs)));
    }

    /** `InitDefaultStateTransitionOptions<TOptions>`: a new options object
        of type `kind`, with the optional lambda applied, becomes the default.
        Resolvers configured earlier keep their options. */
    method InitDefaultStateTransitionOptions(kind: OptionsType, mutation: Option<Mutation>)
      requires Valid()
      modifies this
      ensures Valid() && fresh(Repr - old(Repr)) && old(Repr) <= Repr
      ensures defaultOptions != null && fresh(defaultOptions) && defaultOptions.Built(kind, mutation)
      ensures states == old(states) && head == old(head) && registered == old(registered)
      ensures View() == old(View()).(autofire := old(View()).autofire[defaultOptions := defaultOptions.isAutofire])
    {
      var o := NewOptions(kind, mutation);
      defaultOptions := o;
      optionObjs := optionObjs + {o};
      Repr := Repr + {o};
      OptionsJoined(o);
    }

    /** A fresh options object of type `kind`, the optional lambda applied,
        joins the objects resolvers may use; the default is left as it is. */
    method AddOptions(kind: OptionsType, mutation: Option<Mutation>) returns (o: TransitionOptions)
      requires Valid()
      modifies this
      ensures Valid() && Repr == old(Repr) + {o} && optionObjs == old(optionObjs) + {o}
      ensures fresh(o) && o.Built(kind, mutation)
      ensures states == old(states) && head == old(head) && registered == old(registered)
      ensures defaultOptions == old(defaultOptions)
      ensures View() == old(View()).(autofire := old(View()).autofire[o := o.isAutofire])
    {
      o := NewOptions(kind, mutation);
      optionObjs := optionObjs + {o};
      Repr := Repr + {o};
      OptionsJoined(o);
    }

    /** One known options object changed in place; the flags of the
        snapshot follow it and nothing else changed. */
    twostate lemma OptionsChanged(o: TransitionOptions)
      requires old(Valid()) && unchanged(this) && o in optionObjs
      requires forall x :: x in old(Repr) && x != o ==> unchanged(x)
      ensures Valid()
      ensures View() == old(View()).(autofire := old(View()).autofire[o := o.isAutofire])
    {
      OptionsKeptValid(o);
      RecordsKept();
      FlagsSeen(optionObjs, old(Flags(optionObjs))[o := o.isAutofire]);
    }

    /** The invariant does not look inside options objects. */
    twostate lemma OptionsKeptValid(o: TransitionOptions)
      requires old(Valid()) && unchanged(this) && o in optionObjs
      requires forall x :: x in old(Repr) && x != o ==> unchanged(x)
      ensures Valid()
    {
      assert old(Parts(states, optionObjs, shared, defaultOptions, head, chain, registered, Repr));
      assert forall s :: s in states ==> states[s] in old(Repr);
      assert forall i :: 0 <= i < |chain| ==> chain[i] in old(Repr);
      assert old(ChainValid(head, chain, registered));
      forall s | s in states
        ensures states[s].current == s && RecordValid(states[s], optionObjs)
      {
        assert old(RecordValid(states[s], optionObjs));
      }
    }

    /** Unchanged records give the same snapshot of the registry. */
    twostate lemma RecordsKept()
      requires old(Valid()) && unchanged(this)
      requires forall s :: s in states ==> unchanged(states[s])
      ensures StateViews(states) == old(StateViews(states))
    {
      StatesSeen(states, old(StateViews(states)));
    }

    /** The options lambda run on the default options object itself: every
        resolver that uses the default sees the new values. */
    method MutateDefault(m: Mutation)
      requires Valid() && defaultOptions != null
      modifies defaultOptions
      ensures Valid()
      ensures defaultOptions.isAutofire == (if m.autofire.Some? then m.autofire.value else old(defaultOptions.isAutofire))
      ensures defaultOptions.properties == old(defaultOptions.properties) + m.properties
      ensures defaultOptions.transitionArgs ==
        if old(defaultOptions.transitionArgs).Some? then Some(old(defaultOptions.transitionArgs).value + m.args) else None
      ensures View() == old(View()).(autofire := old(View()).autofire[defaultOptions := defaultOptions.isAutofire])
    {
      defaultOptions.Apply(m);
      OptionsChanged(defaultOptions);
    }

    /** One registered record changed and is still well formed; the
        invariant still holds. */
    twostate lemma RecordKeptValid(st: State<S, T>)
      requires old(Valid()) && unchanged(this)
      requires st.current in states && states[st.current] == st
      requires forall x :: x in old(Repr) && x != st ==> unchanged(x)
      requires Keyed(st.View()) && OptionsKnown(st, optionObjs)
      ensures Valid()
    {
      assert old(Parts(states, optionObjs, shared, defaultOptions, head, chain, registered, Repr));
      forall s | s in states
        ensures states[s].current == s && RecordValid(states[s], optionObjs)
      {
        if s != st.current {
          assert old(RecordValid(states[s], optionObjs));
        }
      }
      assert forall i :: 0 <= i < |chain| ==> chain[i] in old(Repr);
      assert old(ChainValid(head, chain, registered));
    }

    /** One registered record changed and is still well formed; the
        snapshot shows its new view and nothing else changed. */
    twostate lemma RecordChanged(st: State<S, T>)
      requires old(Valid()) && unchanged(this)
      requires st.current in states && states[st.current] == st
      requires forall x :: x in old(Repr) && x != st ==> unchanged(x)
      requires Keyed(st.View()) && OptionsKnown(st, optionObjs)
      ensures Valid()
      ensures View() == old(View()).(states := old(View()).states[st.current := st.View()])
    {
      RecordKeptValid(st);
      RecordViews(st);
      FlagsKept();
    }

    /** Only `st` changed among the records: the registry's snapshot
        shows its new view. */
    twostate lemma RecordViews(st: State<S, T>)
      requires old(Valid()) && unchanged(this)
      requires st.current in states && states[st.current] == st
      requires forall x :: x in old(Repr) && x != st ==> unchanged(x)
      ensures StateViews(states) == old(StateViews(states))[st.current := st.View()]
    {
      assert old(forall s :: s in states ==> states[s] in Repr);
      StatesSeen(states, old(StateViews(states))[st.current := st.View()]);
    }

    /** Unchanged options objects give the same flags. */
    twostate lemma FlagsKept()
      requires old(Valid()) && unchanged(this)
      requires forall x :: x in old(optionObjs) ==> unchanged(x)
      ensures Flags(optionObjs) == old(Flags(optionObjs))
    {
      FlagsSeen(optionObjs, old(Flags(optionObjs)));
    }

    /** `state.MapTo` on a registered record, with a resolver whose options
        the machine knows. */
    method MapOn(st: State<S, T>, r: Resolver<S, T>)
      requires Valid() && st.current in states && states[st.current] == st && r.options in optionObjs
      modifies st
      ensures Valid() && st.View() == Mapped(old(st.View()), r)
      ensures View() == old(View()).(states := old(View()).states[st.current := st.View()])
    {
      assert old(View()).states[st.current] == st.View();
      assert RecordValid(st, optionObjs);
      st.MapTo(r);
      forall t, i | t in st.byTrigger && 0 <= i < |st.byTrigger[t]|
        ensures st.byTrigger[t][i].options in optionObjs
      {
        if t != r.trigger || i < |ResolversBy(old(st.View()), t)| {
          assert st.byTrigger[t][i] == old(st.byTrigger)[t][i];
        }
      }
      RecordChanged(st);
    }

    /** `AfterTransitionTo` with an action: the destination's record,
        registered first when it is new, gains the action for arrivals
        from `source`. */
    method AfterOnDestination(destination: S, source: S, a: TransitionAction)
      requires Valid()
      modifies this, Repr
      ensures Valid()
      ensures destination in old(states) ==> unchanged(this)
      ensures destination !in old(states) ==>
        && destination in states && fresh(states[destination])
        && states == old(states)[destination := states[destination]]
      ensures View() == old(View()).(states := old(View()).states[destination :=
        WithAfter(if destination in old(states) then old(View()).states[destination] else Unconfigured(destination), source, a)])
    {
      if destination in states {
        AfterOn(states[destination], source, a);
      } else {
        var dst := AfterOnNew(destination, source, a);
      }
    }

    /** `AddTransitionTo<TOptions>` without a default: the custom lambda
        runs on a fresh `kind` object, and the new resolver uses it. */
    method MapOnFresh(st: State<S, T>, kind: OptionsType, m: Mutation,
                      destination: S, trigger: T, action: Option<ActionId>, guard: Option<Snapshot<S> -> bool>)
      returns (o: TransitionOptions)
      requires Valid() && st.current in states && states[st.current] == st && defaultOptions == null
      modifies this, st
      ensures Valid() && fresh(o) && o in optionObjs && defaultOptions == null && states == old(states)
      ensures o.Built(kind, Some(m))
      ensures st.View() == Mapped(old(st.View()), MapTransition(trigger, destination, action, guard, o, null, shared))
      ensures View() == old(View()).(
        states := old(View()).states[st.current := st.View()],
        autofire := old(View()).autofire[o := o.isAutofire])
    {
      o := AddOptions(kind, Some(m));
      var r := MapTransition(trigger, destination, action, guard, o, null, shared);
      MapOn(st, r);
    }

    /** `AddTransitionTo<TOptions>` with a default: the custom lambda runs
        on the default object itself, and the new resolver uses it. */
    method MapOnDefault(st: State<S, T>, o: TransitionOptions, m: Mutation,
                        destination: S, trigger: T, action: Option<ActionId>, guard: Option<Snapshot<S> -> bool>)
      requires Valid() && st.current in states && states[st.current] == st && defaultOptions == o
      modifies o, st
      ensures Valid()
      ensures o.isAutofire == (if m.autofire.Some? then m.autofire.value else old(o.isAutofire))
      ensures o.properties == old(o.properties) + m.properties
      ensures o.transitionArgs == if old(o.transitionArgs).Some? then Some(old(o.transitionArgs).value + m.args) else None
      ensures st.View() == Mapped(old(st.View()), MapTransition(trigger, destination, action, guard, o, o, shared))
      ensures View() == old(View()).(
        states := old(View()).states[st.current := st.View()],
        autofire := old(View()).autofire[o := o.isAutofire])
    {
      ghost var sv := st.View();
      MutateDefault(m);
      assert st.View() == sv;
      var r := MapTransition(trigger, destination, action, guard, o, o, shared);
      MapOn(st, r);
    }

    /** `state.BeforeTransitionTo` on a registered record. */
    method BeforeOn(st: State<S, T>, destination: S, a: TransitionAction)
      requires Valid() && st.current in states && states[st.current] == st
      modifies st
      ensures Valid() && st.View() == WithBefore(old(st.View()), destination, a)
      ensures View() == old(View()).(states := old(View()).states[st.current := st.View()])
    {
      assert old(View()).states[st.current] == st.View();
      assert RecordValid(st, optionObjs);
      st.BeforeTransitionTo(destination, a);
      RecordChanged(st);
    }

    /** `state.AfterTransitionFrom` on a registered record. */
    method AfterOn(st: State<S, T>, source: S, a: TransitionAction)
      requires Valid() && st.current in states && states[st.current] == st
      modifies st
      ensures Valid() && st.View() == WithAfter(old(st.View()), source, a)
      ensures View() == old(View()).(states := old(View()).states[st.current := WithAfter(old(View()).states[st.current], source, a)])
    {
      assert old(View()).states[st.current] == st.View();
      assert RecordValid(st, optionObjs);
      st.AfterTransitionFrom(source, a);
      RecordChanged(st);
    }

    /** `AfterTransitionFrom` on the record that `GetOrConfigure` registers
        for a new `destination`. */
    method AfterOnNew(destination: S, source: S, a: TransitionAction) returns (dst: State<S, T>)
      requires Valid() && destination !in states
      modifies this
      ensures Valid() && Repr == old(Repr) + {dst} && fresh(dst) && states == old(states)[destination := dst]
      ensures dst.View() == WithAfter(Unconfigured(destination), source, a)
      ensures View() == old(View()).(states := old(View()).states[destination := WithAfter(Unconfigured(destination), source, a)])
    {
      dst := new State(destination, false);
      dst.AfterTransitionFrom(source, a);
      states := states[destination := dst];
      Repr := Repr + {dst};
      RecordFiled(destination);
      RecordAdded(destination);
    }

    /** Filing a fresh well-formed record under a new value keeps the
        invariant. */
    twostate lemma RecordFiled(d: S)
      requires old(Valid()) && ListsKept() && d !in old(states) && d in states
      requires states == old(states)[d := states[d]] && Repr == old(Repr) + {states[d]}
      requires states[d] !in old(Repr) && forall o :: o in old(Repr) ==> unchanged(o)
      requires states[d].current == d && RecordValid(states[d], optionObjs)
      ensures Valid()
    {
      assert old(Parts(states, optionObjs, shared, defaultOptions, head, chain, registered, Repr));
      forall s | s in states
        ensures states[s].current == s && RecordValid(states[s], optionObjs)
      {
        if s != d {
          assert old(RecordValid(states[s], optionObjs));
        }
      }
      assert forall i :: 0 <= i < |chain| ==> chain[i] in old(Repr);
      assert old(ChainValid(head, chain, registered));
    }

    /** A record was filed under the new value `d` and nothing the
        machine owned before changed: the snapshot gains `d`'s view. */
    twostate lemma RecordAdded(d: S)
      requires old(Valid()) && Valid() && d !in old(states) && d in states
      requires states == old(states)[d := states[d]] && states[d] !in old(Repr)
      requires forall o :: o in old(Repr) ==> unchanged(o)
      requires entry == old(entry) && exit == old(exit) && callbacks == old(callbacks) && optionObjs == old(optionObjs)
      ensures View() == old(View()).(states := old(View()).states[d := states[d].View()])
    {
      assert forall s :: s in old(states) ==> old(states)[s] in old(Repr);
      StatesSeen(states, old(StateViews(states))[d := states[d].View()]);
      FlagsSeen(optionObjs, old(Flags(optionObjs)));
    }

    // ----- firing ------------------------------------------------------

    /** The fields a fire reads. */
    function Fields(): Config<S, T>
      reads this
    {
      Config(states, entry, exit, callbacks, head)
    }

    /** A valid machine's fields show its snapshot, and its chain hands a
        call on exactly when every registered handler does. */
    lemma Mirrored()
      requires Valid()
      ensures Mirrors(View(), Fields(), optionObjs, Repr) && Routes(Fields(), chain, Delivers(), Repr)
    {
      assert ChainValid(head, chain, registered);
      if head != null {
        PipelineDelivers(registered);
      }
      forall s | s in states
        ensures Keyed(View().states[s]) && OptionsIn(View().states[s].byTrigger, optionObjs)
      {
        assert RecordValid(states[s], optionObjs);
      }
    }

    /** Nothing the machine owns changed: the invariant and the snapshot
        are those of the earlier state. */
    twostate lemma Kept()
      requires old(Valid()) && unchanged(this)
      requires forall o :: o in old(Repr) ==> unchanged(o)
      ensures Valid() && View() == old(View()) && Delivers() == old(Delivers())
    {
      assert old(Parts(states, optionObjs, shared, defaultOptions, head, chain, registered, Repr));
      assert forall i :: 0 <= i < |chain| ==> chain[i] in old(Repr);
      StatesSeen(states, old(StateViews(states)));
      FlagsSeen(optionObjs, old(Flags(optionObjs)));
    }

    /** `Fire` on this machine: what `Engine.Fire` says of the snapshot
        taken when it starts; the configuration is left as it was. */
    method Fire(e: Entity<S>, req: Request<S, T>, token: CancellationToken, beh: Behaviour, fuel: nat)
      returns (res: FireResult<S, T>)
      requires Valid() && e !in Repr && token !in Repr
      modifies e, token
      ensures Valid() && View() == old(View()) && Delivers() == old(Delivers())
      ensures res == Engine.Fire(View(), Delivers(), old(e.Snap()), req, old(token.requested), beh, fuel)
      ensures e.state == res.state && e.data == old(e.data) && token.requested == res.cancelled
    {
      Mirrored();
      res := FireOn(View(), Fields(), optionObjs, Repr, chain, Delivers(), e, req, token, beh, fuel);
      Kept();
    }
  }
  /** `StateTransitionManager`: the configuration handle of one state. */
  class StateTransitionManager<S(==), T(==)> {
    const state: State<S, T>
    const machine: StateMachine<S, T>

    constructor (state: State<S, T>, machine: StateMachine<S, T>)
      ensures this.state == state && this.machine == machine
    {
      this.state := state;
      this.machine := machine;
    }

    /** The handle's state is the machine's record of it. */
    ghost predicate Valid()
      reads machine, machine.Repr
    {
      machine.Valid() && state.current in machine.states && machine.states[state.current] == state
    }

    /** `AddTransitionTo` without custom options: the state gains a
        resolver to `destination` that uses the machine's default options
        when they are set and the shared instance otherwise. */
    method AddTransitionTo(destination: S, trigger: T, action: Option<ActionId>, guard: Option<Snapshot<S> -> bool>)
      requires Valid()
      modifies state
      ensures Valid()
      ensures state.View() == Mapped(old(state.View()),
        MapTransition(trigger, destination, action, guard, null, machine.defaultOptions, machine.shared))
      ensures machine.View() == old(machine.View()).(states := old(machine.View()).states[state.current := state.View()])
    {
      var r := MapTransition(trigger, destination, action, guard, null, machine.defaultOptions, machine.shared);
      machine.MapOn(state, r);
    }

    /** `AddTransitionTo<TOptions>`: with a default set, the default must be
        a `kind`, and the custom lambda then runs on the default object
        itself; without one, it runs on a fresh `kind` object. The resolver
        uses the object the lambda ran on. A mismatching default fails
        before anything runs, and a missing lambda fails once the object is
        chosen; both leave the machine as it was. */
    method AddTransitionToWith(destination: S, trigger: T, kind: OptionsType, mutation: Option<Mutation>,
                               action: Option<ActionId>, guard: Option<Snapshot<S> -> bool>)
      returns (res: Result<TransitionOptions, ConfigError<S>>)
      requires Valid()
      modifies machine, machine.Repr
      ensures Valid()
      ensures var dflt := old(machine.defaultOptions);
        && (dflt != null && !IsA(dflt.kind, kind) ==> res == Failure(OptionsTypeMismatch(kind, dflt.kind)))
        && ((dflt == null || IsA(dflt.kind, kind)) && mutation.None? ==> res == Failure(NullReference("customTransitionOptions")))
        && (res.Success? <==> (dflt == null || IsA(dflt.kind, kind)) && mutation.Some?)
      ensures res.Failure? ==> unchanged(machine) && unchanged(old(machine.Repr))
      ensures res.Success? ==>
        && machine.defaultOptions == old(machine.defaultOptions)
        && (old(machine.defaultOptions) != null ==> res.value == old(machine.defaultOptions))
        && (old(machine.defaultOptions) == null ==> fresh(res.value) && res.value in machine.optionObjs)
        && state.View() == Mapped(old(state.View()),
             MapTransition(trigger, destination, action, guard, res.value, machine.defaultOptions, machine.shared))
        && machine.View() == old(machine.View()).(
             states := old(machine.View()).states[state.current := state.View()],
             autofire := old(machine.View()).autofire[res.value := res.value.isAutofire])
      ensures res.Success? && old(machine.defaultOptions) == null ==> res.value.Built(kind, mutation)
      ensures res.Success? && old(machine.defaultOptions) != null ==>
        var o := res.value;
        && o.isAutofire == (if mutation.value.autofire.Some? then mutation.value.autofire.value else old(o.isAutofire))
        && o.properties == old(o.properties) + mutation.value.properties
        && o.transitionArgs == if old(o.transitionArgs).Some? then Some(old(o.transitionArgs).value + mutation.value.args) else None
    {
      var dflt := machine.defaultOptions;
      if dflt != null && !IsA(dflt.kind, kind) {
        return Failure(OptionsTypeMismatch(kind, dflt.kind));
      }
      if mutation.None? {
        return Failure(NullReference("customTransitionOptions"));
      }
      var o: TransitionOptions;
      if dflt != null {
        machine.MapOnDefault(state, dflt, mutation.value, destination, trigger, action, guard);
        o := dflt;
      } else {
        o := machine.MapOnFresh(state, kind, mutation.value, destination, trigger, action, guard);
      }
      res := Success(o);
    }

    /** `BeforeTransitionTo`: a missing action raises ArgumentNullException
        and changes nothing; otherwise it joins the actions this state runs
        before leaving for `destination`. */
    method BeforeTransitionTo(destination: S, action: Option<ActionId>) returns (res: Result<(), ConfigError<S>>)
      requires Valid()
      modifies state
      ensures Valid()
      ensures action.None? <==> res.Failure?
      ensures action.None? ==> res == Failure(ArgumentNullError("action")) && unchanged(state)
      ensures action.Some? ==> state.View() == WithBefore(old(state.View()), destination, TransitionAction(action.value))
      ensures machine.View() == old(machine.View()).(states := old(machine.View()).states[state.current := state.View()])
    {
      if action.None? {
        return Failure(ArgumentNullError("action"));
      }
      machine.BeforeOn(state, destination, TransitionAction(action.value));
      res := Success(());
    }

    /** `AfterTransitionTo`: the destination's record is looked up first,
        registering it when it is new, even when the action then turns out
        to be missing; the action joins those the destination runs after
        arriving from this state. */
    method AfterTransitionTo(destination: S, action: Option<ActionId>) returns (res: Result<(), ConfigError<S>>)
      requires Valid()
      modifies machine, machine.Repr
      ensures Valid()
      ensures res == if action.None? then Failure(ArgumentNullError("action")) else Success(())
      ensures destination in old(machine.states) ==> machine.states == old(machine.states)
      ensures destination !in old(machine.states) ==>
        && destination in machine.states && fresh(machine.states[destination])
        && machine.states == old(machine.states)[destination := machine.states[destination]]
      ensures var before := if destination in old(machine.states) then old(machine.View()).states[destination]
                            else Unconfigured(destination);
        machine.View() == old(machine.View()).(states := old(machine.View()).states[destination :=
          if action.None? then before else WithAfter(before, state.current, TransitionAction(action.value))])
    {
      if action.None? {
        var dst := machine.GetOrConfigure(destination);
        res := Failure(ArgumentNullError("action"));
      } else {
        machine.AfterOnDestination(destination, state.current, TransitionAction(action.value));
        res := Success(());
      }
    }
  }
}
