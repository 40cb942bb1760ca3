/**
 * Transition options (src/StateTransition/Transitions/BaseTransitionOptions.cs).
 *
 * An options object is a mutable property bag: the `IsAutofire` flag, the
 * payload `TransitionArgs` of the generic subclass, and the properties that a
 * user-defined subclass adds (modelled as a map from property name to value).
 * The run-time type of an object is a type tag; `IsA` is the `is T` test.
 */
module Options {
  import opened Wrappers

  /** Run-time type of an options object: the base class, the generic
      subclass `BaseTransitionOptions<TArgs>` for the payload type named
      `args` (one distinct class per `TArgs`), or a user subclass of another
      type. */
  datatype OptionsType = Base | ArgsBase(args: string) | Derived(name: string, parent: OptionsType)

  function Parent(t: OptionsType): Option<OptionsType> {
    match t
    case Base => None
    case ArgsBase(_) => Some(Base)
    case Derived(_, p) => Some(p)
  }

  /** `t` is assignable to `u`: `u` is `t` itself or one of its ancestors. */
  predicate IsA(t: OptionsType, u: OptionsType)
    decreases t
  {
    t == u || (t.Derived? && IsA(t.parent, u)) || (t.ArgsBase? && u == Base)
  }

  /** Every options type derives from the base class. */
  lemma {:induction false} EveryTypeIsABase(t: OptionsType)
    ensures IsA(t, Base)
  {
    if t.Derived? {
      EveryTypeIsABase(t.parent);
    }
  }

  /** Assignability is transitive. */
  lemma {:induction false} IsATransitive(t: OptionsType, u: OptionsType, w: OptionsType)
    requires IsA(t, u) && IsA(u, w)
    ensures IsA(t, w)
  {
    if t == u {
    } else if t.Derived? && IsA(t.parent, u) {
      IsATransitive(t.parent, u, w);
    } else {
      assert t.ArgsBase? && u == Base;
      assert w == Base;
    }
  }

  /** The class at the top of `t`'s chain of user subclasses. */
  function Root(t: OptionsType): (r: OptionsType)
    ensures !r.Derived? && IsA(t, r)
    decreases t
  {
    if t.Derived? then Root(t.parent) else t
  }

  /** Types that inherit the `TransitionArgs` payload: those whose chain of
      user subclasses starts at some `BaseTransitionOptions<TArgs>`. */
  predicate CarriesArgs(t: OptionsType) {
    Root(t).ArgsBase?
  }

  /** A type is assignable to `BaseTransitionOptions<A>` exactly when its
      chain starts at that very class: the generic subclasses for two
      payload types are unrelated. */
  lemma {:induction false} IsAArgsBase(t: OptionsType, a: string)
    ensures IsA(t, ArgsBase(a)) <==> Root(t) == ArgsBase(a)
    decreases t
  {
    if t.Derived? {
      IsAArgsBase(t.parent, a);
    }
  }

  /** The types carrying a payload are exactly those assignable to some
      generic subclass. */
  lemma CarriesArgsMeaning(t: OptionsType)
    ensures CarriesArgs(t) <==> exists a :: IsA(t, ArgsBase(a))
  {
    if CarriesArgs(t) {
      IsAArgsBase(t, Root(t).args);
    } else {
      forall a ensures !IsA(t, ArgsBase(a)) {
        IsAArgsBase(t, a);
      }
    }
  }

  type Payload = map<string, int>

  /** The effect of a user options lambda: properties it assigns, in place. */
  datatype Mutation = Mutation(autofire: Option<bool>, properties: Payload, args: Payload)

  class TransitionOptions {
    const kind: OptionsType
    var isAutofire: bool
    var properties: Payload
    var transitionArgs: Option<Payload>

    /** `new TOptions()`: autofire off, no custom property set, and a non-null
        (empty) payload on the generic subclass. */
    constructor (kind: OptionsType)
      ensures this.kind == kind && !isAutofire && properties == map[]
      ensures transitionArgs == if CarriesArgs(kind) then Some(map[]) else None
    {
      this.kind := kind;
      isAutofire := false;
      properties := map[];
      transitionArgs := if CarriesArgs(kind) then Some(map[]) else None;
    }

    /** What `new TOptions()` followed by the optional user lambda leaves
        in a fresh object of type `kind`. */
    predicate Built(kind: OptionsType, mutation: Option<Mutation>)
      reads this
    {
      && this.kind == kind
      && isAutofire == (mutation.Some? && mutation.value.autofire == Some(true))
      && properties == (if mutation.Some? then mutation.value.properties else map[])
      && transitionArgs == if !CarriesArgs(kind) then None else Some(if mutation.Some? then mutation.value.args else map[])
    }

    /** Runs a user options lambda on this very object: what it assigns
        overrides, everything else keeps its value. */
    method Apply(m: Mutation)
      modifies this
      ensures isAutofire == (if m.autofire.Some? then m.autofire.value else old(isAutofire))
      ensures properties == old(properties) + m.properties
      ensures transitionArgs == (if old(transitionArgs).Some? then Some(old(transitionArgs).value + m.args) else None)
      ensures forall p :: p in properties ==>
                (p in m.properties && properties[p] == m.properties[p]) ||
                (p !in m.properties && p in old(properties) && properties[p] == old(properties)[p])
    {
      if m.autofire.Some? {
        isAutofire := m.autofire.value;
      }
      properties := properties + m.properties;
      if transitionArgs.Some? {
        transitionArgs := Some(transitionArgs.value + m.args);
      }
    }
  }
}
