/** The effect algebra of modules/effects.js: effect descriptions are inert
    values built by `none`, `promise`, `batch` and `constant`, rewritten by
    `map`, and turned into the settlement of a promise by `effectToPromise`.
    Calling a factory is a foreign call; it is replaced by an oracle that says
    how the promise the factory returns settles. */
module Effects {
  import opened Values

  const PROMISE: string := "PROMISE"
  const BATCH: string := "BATCH"
  const CONSTANT: string := "CONSTANT"
  const NONE: string := "NONE"

  /** The optional `map` property of a PROMISE or CONSTANT effect: absent,
      or a result mapper. */
  datatype MapField = Unset | MapTo(fn: Value -> Value)

  /** An effect description; a BATCH holds its children in order. */
  datatype Effect =
    | NoneEffect
    | PromiseEffect(factory: string, args: seq<Value>, mapper: MapField)
    | BatchEffect(effects: seq<Effect>)
    | ConstantEffect(action: Value, mapper: MapField)

  /** The `type` property of an effect. */
  function Tag(e: Effect): string
  {
    match e
    case NoneEffect => NONE
    case PromiseEffect(_, _, _) => PROMISE
    case BatchEffect(_) => BATCH
    case ConstantEffect(_, _) => CONSTANT
  }

  /** Any JavaScript value `isEffect` may be handed: an object built by one
      of the effect builders (it carries the private effect marker), or
      some other value (which cannot carry it, the marker symbol being
      private to the module). */
  datatype Candidate = EffectObject(effect: Effect) | Other(value: Value)

  /** `isEffect(object)`: falsy values are rejected outright, otherwise the
      effect marker decides. For a truthy value without the marker the
      source returns `undefined` rather than `false`; its callers only test
      the result's truthiness, so both are `false` here. */
  function IsEffect(x: Candidate): (r: bool)
    ensures r <==> x.EffectObject?
  {
    var truthy := x.EffectObject? || Truthy(x.value);
    if !truthy then false else x.EffectObject?
  }

  /** `none()`. */
  function None(): (e: Effect)
    ensures Tag(e) == NONE && IsEffect(EffectObject(e))
  {
    NoneEffect
  }

  /** `promise(factory, ...args)`: no mapper is set. */
  function Promise(factory: string, args: seq<Value>): (e: Effect)
    ensures Tag(e) == PROMISE && IsEffect(EffectObject(e))
    ensures e.PromiseEffect? && e.factory == factory && e.args == args && e.mapper == Unset
  {
    PromiseEffect(factory, args, Unset)
  }

  /** `batch(effects)`. */
  function Batch(effects: seq<Effect>): (e: Effect)
    ensures Tag(e) == BATCH && IsEffect(EffectObject(e))
    ensures e.BatchEffect? && e.effects == effects
  {
    BatchEffect(effects)
  }

  /** `constant(action)`: no mapper is set. */
  function Constant(action: Value): (e: Effect)
    ensures Tag(e) == CONSTANT && IsEffect(EffectObject(e))
    ensures e.ConstantEffect? && e.action == action && e.mapper == Unset
  {
    ConstantEffect(action, Unset)
  }

  /** `map(effect, mapFn)`: a PROMISE or CONSTANT gets `mapFn` as its mapper,
      replacing any earlier one; a BATCH is rebuilt with every child mapped;
      NONE is returned as it is. */
  function Map(e: Effect, f: Value -> Value): (r: Effect)
    ensures Tag(r) == Tag(e)
    ensures e.NoneEffect? ==> r == e
    ensures r.BatchEffect? ==> |r.effects| == |e.effects|
    decreases e, 1
  {
    match e
    case PromiseEffect(factory, args, _) => PromiseEffect(factory, args, MapTo(f))
    case BatchEffect(es) => BatchEffect(MapEach(es, f))
    case ConstantEffect(action, _) => ConstantEffect(action, MapTo(f))
    case NoneEffect => e
  }

  /** `effects.map((e) => map(e, mapFn))`. */
  function MapEach(es: seq<Effect>, f: Value -> Value): (r: seq<Effect>)
    ensures |r| == |es|
    ensures forall i :: 0 <= i < |es| ==> r[i] == Map(es[i], f)
    decreases es, 0
  {
    if es == [] then [] else [Map(es[0], f)] + MapEach(es[1..], f)
  }

  /** How a promise settles. */
  datatype Settlement<T> = Fulfilled(value: T) | Rejected(reason: Value)

  /** How the promise returned by calling a factory with the given
      arguments settles. */
  type Oracle = (string, seq<Value>) -> Settlement<Value>

  /** `effect.map || pureMap`, applied to a value. */
  function ApplyMapper(m: MapField, v: Value): Value
  {
    match m
    case Unset => v
    case MapTo(f) => f(v)
  }

  /** The factory calls, with their arguments, that resolving `e` makes, at
      any depth of nested batches. */
  function Calls(e: Effect): set<(string, seq<Value>)>
    decreases e, 1
  {
    match e
    case PromiseEffect(factory, args, _) => {(factory, args)}
    case BatchEffect(es) => CallsEach(es)
    case _ => {}
  }

  /** The factory calls the children of a batch make. */
  function CallsEach(es: seq<Effect>): set<(string, seq<Value>)>
    decreases es, 0
  {
    if es == [] then {} else Calls(es[0]) + CallsEach(es[1..])
  }

  /** `effectToPromise(effect)`, as the settlement of the returned promise.
      An effect that calls no factory never rejects. */
  function EffectToPromise(e: Effect, o: Oracle): (r: Settlement<Value>)
    ensures Calls(e) == {} ==> r.Fulfilled?
    decreases e, 1
  {
    match e
    case PromiseEffect(factory, args, m) =>
      (match o(factory, args)
       case Fulfilled(v) => Fulfilled(ApplyMapper(m, v))
       case Rejected(reason) => Rejected(reason))
    case BatchEffect(es) =>
      (match All(es, o)
       case Fulfilled(vs) => Fulfilled(Arr(Flatten(vs)))
       case Rejected(reason) => Rejected(reason))
    case ConstantEffect(action, m) => Fulfilled(ApplyMapper(m, action))
    case NoneEffect => Fulfilled(Undefined)
  }

  /** `Promise.all(effects.map(effectToPromise))`. Which rejection wins is
      a matter of timing in the source; here it is the first in order. */
  function All(es: seq<Effect>, o: Oracle): (r: Settlement<seq<Value>>)
    ensures r.Fulfilled? ==> |r.value| == |es|
    ensures CallsEach(es) == {} ==> r.Fulfilled?
    decreases es, 0
  {
    if es == [] then Fulfilled([])
    else
      match EffectToPromise(es[0], o)
      case Rejected(reason) => Rejected(reason)
      case Fulfilled(v) =>
        match All(es[1..], o)
        case Rejected(reason) => Rejected(reason)
        case Fulfilled(vs) => Fulfilled([v] + vs)
  }

  /** Every rejection is the rejection of one of the factory calls the
      effect makes: nothing else in the algebra fails. */
  lemma {:induction false} RejectionFromFactory(e: Effect, o: Oracle)
    ensures EffectToPromise(e, o).Rejected? ==>
      exists c :: c in Calls(e) && o(c.0, c.1) == Rejected(EffectToPromise(e, o).reason)
    decreases e, 1
  {
    if e.BatchEffect? {
      RejectionFromFactoryEach(e.effects, o);
    }
  }

  /** The same for the children of a batch under `Promise.all`. */
  lemma {:induction false} RejectionFromFactoryEach(es: seq<Effect>, o: Oracle)
    ensures All(es, o).Rejected? ==>
      exists c :: c in CallsEach(es) && o(c.0, c.1) == Rejected(All(es, o).reason)
    decreases es, 0
  {
    if es != [] {
      RejectionFromFactory(es[0], o);
      RejectionFromFactoryEach(es[1..], o);
    }
  }

  /** `map` keeps every field of a PROMISE or CONSTANT but the mapper, which
      becomes `f`; it maps the children of a BATCH one by one, in order. */
  lemma MapKeepsFields(e: Effect, f: Value -> Value)
    ensures e.PromiseEffect? ==>
      Map(e, f) == PromiseEffect(e.factory, e.args, MapTo(f))
    ensures e.ConstantEffect? ==>
      Map(e, f) == ConstantEffect(e.action, MapTo(f))
    ensures e.BatchEffect? ==>
      Map(e, f).BatchEffect? && |Map(e, f).effects| == |e.effects| &&
      forall i :: 0 <= i < |e.effects| ==> Map(e, f).effects[i] == Map(e.effects[i], f)
  {
  }

  /** Mapping twice is mapping once with the last mapper: mappers are
      overwritten, not composed, at every depth of nested batches. */
  lemma {:induction false} MapLastWins(e: Effect, f: Value -> Value, g: Value -> Value)
    ensures Map(Map(e, f), g) == Map(e, g)
    decreases e
  {
    match e
    case BatchEffect(es) =>
      var lhs := Map(Map(e, f), g);
      var rhs := Map(e, g);
      forall i | 0 <= i < |es|
        ensures lhs.effects[i] == rhs.effects[i]
      {
        MapLastWins(es[i], f, g);
      }
    case _ =>
  }

  /** `none()` resolves to `undefined`, which yields no action. */
  lemma ResolveNone(o: Oracle)
    ensures EffectToPromise(None(), o) == Fulfilled(Undefined)
    ensures Materialize(EffectToPromise(None(), o).value) == []
  {
    MaterializeCases(Undefined);
  }

  /** A CONSTANT resolves to its action when no mapper is set (the default
      mapper is the identity), and to `f(action)` once mapped with `f`; of
      two mappers only the last applies. */
  lemma ResolveConstant(a: Value, f: Value -> Value, g: Value -> Value, o: Oracle)
    ensures EffectToPromise(Constant(a), o) == Fulfilled(a)
    ensures EffectToPromise(Map(Constant(a), f), o) == Fulfilled(f(a))
    ensures EffectToPromise(Map(Map(Constant(a), f), g), o) == Fulfilled(g(a))
  {
  }

  /** A PROMISE settles as its factory's promise does; a fulfilled value
      passes through the mapper, a rejection passes through untouched. */
  lemma ResolvePromise(factory: string, args: seq<Value>, f: Value -> Value, o: Oracle)
    ensures o(factory, args).Fulfilled? ==>
      EffectToPromise(Promise(factory, args), o) == o(factory, args) &&
      EffectToPromise(Map(Promise(factory, args), f), o) == Fulfilled(f(o(factory, args).value))
    ensures o(factory, args).Rejected? ==>
      EffectToPromise(Map(Promise(factory, args), f), o) == o(factory, args)
  {
  }

  /** `Promise.all` fulfils exactly when every child does, with the
      children's values in order; otherwise it rejects with the reason of
      the first child that rejects. */
  lemma {:induction false} AllSettles(es: seq<Effect>, o: Oracle)
    ensures All(es, o).Fulfilled? <==>
      forall i :: 0 <= i < |es| ==> EffectToPromise(es[i], o).Fulfilled?
    ensures All(es, o).Fulfilled? ==>
      |All(es, o).value| == |es| &&
      forall i :: 0 <= i < |es| ==> All(es, o).value[i] == EffectToPromise(es[i], o).value
    ensures All(es, o).Rejected? ==>
      exists k :: 0 <= k < |es| && EffectToPromise(es[k], o) == Rejected(All(es, o).reason) &&
        forall i :: 0 <= i < k ==> EffectToPromise(es[i], o).Fulfilled?
    decreases es
  {
    if es != [] {
      AllSettles(es[1..], o);
      var rest := All(es[1..], o);
      if EffectToPromise(es[0], o).Fulfilled? && rest.Rejected? {
        var k :| 0 <= k < |es[1..]| && EffectToPromise(es[1..][k], o) == Rejected(rest.reason) &&
          forall i :: 0 <= i < k ==> EffectToPromise(es[1..][i], o).Fulfilled?;
        assert EffectToPromise(es[k + 1], o) == Rejected(All(es, o).reason);
        assert forall i :: 0 <= i < k + 1 ==> EffectToPromise(es[i], o).Fulfilled? by {
          forall i | 0 <= i < k + 1 ensures EffectToPromise(es[i], o).Fulfilled? {
            if i > 0 { assert es[i] == es[1..][i - 1]; }
          }
        }
      }
      if !EffectToPromise(es[0], o).Fulfilled? {
        assert !(forall i :: 0 <= i < |es| ==> EffectToPromise(es[i], o).Fulfilled?);
      }
      if EffectToPromise(es[0], o).Fulfilled? && rest.Fulfilled? {
        assert forall i :: 1 <= i < |es| ==> es[i] == es[1..][i - 1];
      }
    }
  }

  /** A BATCH whose children all fulfil resolves to the one-level
      flattening of their values in declared order, and the actions it
      yields are those each child yields on its own, concatenated in order. */
  lemma BatchYieldsInOrder(es: seq<Effect>, o: Oracle)
    requires forall i :: 0 <= i < |es| ==> EffectToPromise(es[i], o).Fulfilled?
    ensures var vs := seq(|es|, i requires 0 <= i < |es| => EffectToPromise(es[i], o).value);
      EffectToPromise(Batch(es), o) == Fulfilled(Arr(Flatten(vs))) &&
      Materialize(EffectToPromise(Batch(es), o).value) == MaterializeEach(vs)
  {
    var vs := seq(|es|, i requires 0 <= i < |es| => EffectToPromise(es[i], o).value);
    AllSettles(es, o);
    assert All(es, o).value == vs;
    MaterializeFlatten(vs);
  }

  /** A BATCH rejects exactly when one of its children rejects. */
  lemma BatchRejects(es: seq<Effect>, o: Oracle)
    ensures EffectToPromise(Batch(es), o).Rejected? <==>
      exists i :: 0 <= i < |es| && EffectToPromise(es[i], o).Rejected?
  {
    AllSettles(es, o);
  }

  /** Resolving a mapped BATCH is resolving each child mapped on its own:
      when all of them fulfil, the batch fulfils with the one-level
      flattening of their values in declared order; it rejects exactly when
      one of them rejects. */
  lemma MapDistributesOverBatch(es: seq<Effect>, f: Value -> Value, o: Oracle)
    ensures (forall i :: 0 <= i < |es| ==> EffectToPromise(Map(es[i], f), o).Fulfilled?) ==>
      EffectToPromise(Map(Batch(es), f), o) ==
        Fulfilled(Arr(Flatten(seq(|es|, i requires 0 <= i < |es| => EffectToPromise(Map(es[i], f), o).value))))
    ensures EffectToPromise(Map(Batch(es), f), o).Rejected? <==>
      exists i :: 0 <= i < |es| && EffectToPromise(Map(es[i], f), o).Rejected?
  {
    var mapped := MapEach(es, f);
    assert Map(Batch(es), f) == Batch(mapped);
    BatchRejects(mapped, o);
    if forall i :: 0 <= i < |es| ==> EffectToPromise(Map(es[i], f), o).Fulfilled? {
      BatchYieldsInOrder(mapped, o);
      assert seq(|mapped|, i requires 0 <= i < |mapped| => EffectToPromise(mapped[i], o).value) ==
        seq(|es|, i requires 0 <= i < |es| => EffectToPromise(Map(es[i], f), o).value);
    }
  }
}
