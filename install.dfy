/** The installer of modules/install.js: it lifts the reducer and the initial
    state to looped states, and wraps the store so that every dispatch
    reduces the action, resolves the effect of the new state, and
    dispatches every action that effect yields, recursively.

    The source runs the yielded actions' dispatches concurrently; here they
    run one after the other, depth first, and a fuel bound stands for the
    depth the source leaves unbounded. `Dispatched`, `EffectRan` and
    `AllDispatched` give the meaning of `dispatch`, `runEffect` and the
    `Promise.all` over the yielded actions; `LoopStore` runs them in place
    and is proved to agree with them. */
module Install {
  import opened Values
  import opened Effects
  import opened Loop

  /** An application reducer: `reducer(model, action)`. */
  type Reducer<!M> = (M, Value) -> Reduced<M>

  /** A reducer over looped states, as the wrapped store runs it. */
  type LiftedReducer<!M> = (LoopState<M>, Value) -> LoopState<M>

  /** `{ type: "@@ReduxLoop/INIT" }`, the head of the bootstrap chain. */
  const InitAction: Value := Obj("@@ReduxLoop/INIT", Undefined)

  /** `liftState(state)`: a looped state passes through, a bare model is
      paired with `none()`. */
  function LiftState<M>(s: Reduced<M>): (r: LoopState<M>)
    ensures IsLoop(s) ==> Looped(r) == s
    ensures !IsLoop(s) ==> r.model == s.value && r.effect == None()
  {
    if IsLoop(s) then s.state else LoopState(s.value, None())
  }

  /** Lifting a lifted state changes nothing. */
  lemma LiftStateIdempotent<M>(s: Reduced<M>)
    ensures LiftState(Looped(LiftState(s))) == LiftState(s)
  {
  }

  /** `liftReducer(reducer)`: the user reducer sees only the model half of
      the state, and its result is lifted. */
  function LiftReducer<M(!new)>(reducer: Reducer<M>): (lifted: LiftedReducer<M>)
    ensures forall s1: LoopState<M>, s2: LoopState<M>, a: Value ::
      s1.model == s2.model ==> lifted(s1, a) == lifted(s2, a)
    ensures forall s: LoopState<M>, a: Value :: IsLoop(reducer(s.model, a)) ==>
      lifted(s, a) == reducer(s.model, a).state
    ensures forall s: LoopState<M>, a: Value :: !IsLoop(reducer(s.model, a)) ==>
      lifted(s, a) == LoopState(reducer(s.model, a).value, NoneEffect)
  {
    (s: LoopState<M>, a: Value) => LiftState(reducer(s.model, a))
  }

  /** How the promise returned by a dispatch settles: fulfilled, rejected
      with an error, or not known within the fuel bound. */
  datatype Outcome = Settled | Threw(error: Value) | OutOfFuel

  /** The verdict of `Promise.all` over a first dispatch and the rest; of
      two rejections the first in order is kept. */
  function Both(first: Outcome, rest: Outcome): (r: Outcome)
    ensures r.Settled? <==> first.Settled? && rest.Settled?
    ensures r.Threw? ==> r == first || r == rest
  {
    if first.OutOfFuel? || rest.OutOfFuel? then OutOfFuel
    else if first.Threw? then first
    else rest
  }

  /** One call of the wrapped store's `dispatch(action, originalActions)`. */
  datatype Entry = Entry(action: Value, chain: seq<Value>)

  /** What a run of the loop changes: the wrapped store's state, the calls
      made to its dispatch, and the diagnostics written to the error sink. */
  datatype World<M> = World(state: LoopState<M>, trace: seq<Entry>, log: seq<string>)

  /** A world together with how the run that produced it settled. */
  datatype Step<M> = Step(world: World<M>, outcome: Outcome)

  /** The diagnostic written when a loop promise rejects: the types of the
      chain's actions joined by `' > '`. */
  function Diagnostic(chain: seq<Value>): string
  {
    "loop Promise caught when returned from action of type " + JoinTypes(chain, " > ") +
    ".\nloop Promises must not throw!"
  }

  /** The world with the diagnostic for `chain` written to the sink. */
  function Logged<M>(w: World<M>, chain: seq<Value>): World<M>
  {
    w.(log := w.log + [Diagnostic(chain)])
  }

  /** `dispatch(action, finalAction, chain)`: reduce through the wrapped
      store, then run the effect of the new state with the chain extended
      by the action. */
  ghost function Dispatched<M>(r: LiftedReducer<M>, o: Oracle, w: World<M>, action: Value,
                               final: Value, chain: seq<Value>, fuel: nat): Step<M>
    decreases fuel, 0, 0
  {
    if fuel == 0 then Step(w, OutOfFuel)
    else
      var s := r(w.state, action);
      EffectRan(r, o, World(s, w.trace + [Entry(action, chain)], w.log), s.effect, final,
                Concat(chain, action), fuel - 1)
  }

  /** `runEffect(effect, finalAction, chain)`: resolve the effect, dispatch
      every action it yields with a null final action, then dispatch
      `finalAction` if it is truthy (with an empty chain, and without waiting
      for it); on a rejection, write the diagnostic and reject again with
      the same error. */
  ghost function EffectRan<M>(r: LiftedReducer<M>, o: Oracle, w: World<M>, effect: Effect,
                              final: Value, chain: seq<Value>, fuel: nat): Step<M>
    decreases fuel, 2, 0
  {
    match EffectToPromise(effect, o)
    case Rejected(reason) => Step(Logged(w, chain), Threw(reason))
    case Fulfilled(v) =>
      var children := AllDispatched(r, o, w, Materialize(v), chain, fuel);
      match children.outcome
      case Threw(error) => Step(Logged(children.world, chain), Threw(error))
      case OutOfFuel => children
      case Settled =>
        if Truthy(final) then
          var last := Dispatched(r, o, children.world, final, Undefined, [], fuel);
          Step(last.world, if last.outcome.OutOfFuel? then OutOfFuel else Settled)
        else children
  }

  /** `Promise.all(actions.map((action) => dispatch(action, null, chain)))`:
      every action is dispatched, also after one of them has failed. */
  ghost function AllDispatched<M>(r: LiftedReducer<M>, o: Oracle, w: World<M>, actions: seq<Value>,
                                  chain: seq<Value>, fuel: nat): Step<M>
    decreases fuel, 1, |actions|
  {
    if actions == [] then Step(w, Settled)
    else
      var first := Dispatched(r, o, w, actions[0], Null, chain, fuel);
      var rest := AllDispatched(r, o, first.world, actions[1..], chain, fuel);
      Step(rest.world, Both(first.outcome, rest.outcome))
  }

  /** `b` starts with `a`. */
  ghost predicate IsPrefix<T>(a: seq<T>, b: seq<T>)
  {
    |a| <= |b| && b[..|a|] == a
  }

  /** A later world keeps the earlier one's trace and log as prefixes. */
  ghost predicate Extends<M>(w: World<M>, w': World<M>)
  {
    IsPrefix(w.trace, w'.trace) && IsPrefix(w.log, w'.log)
  }

  /** Appending in two runs is appending. */
  lemma ExtendsTransitive<M>(w1: World<M>, w2: World<M>, w3: World<M>)
    requires Extends(w1, w2) && Extends(w2, w3)
    ensures Extends(w1, w3)
  {
    PrefixTransitive(w1.trace, w2.trace, w3.trace);
    PrefixTransitive(w1.log, w2.log, w3.log);
  }

  /** A dispatch only appends to the trace and to the log. */
  lemma {:induction false} DispatchedExtends<M>(r: LiftedReducer<M>, o: Oracle, w: World<M>, action: Value,
                                                final: Value, chain: seq<Value>, fuel: nat)
    ensures Extends(w, Dispatched(r, o, w, action, final, chain, fuel).world)
    decreases fuel, 0, 0
  {
    if fuel > 0 {
      var s := r(w.state, action);
      var w1 := World(s, w.trace + [Entry(action, chain)], w.log);
      EffectRanExtends(r, o, w1, s.effect, final, Concat(chain, action), fuel - 1);
      assert Extends(w, w1);
      ExtendsTransitive(w, w1, Dispatched(r, o, w, action, final, chain, fuel).world);
    }
  }

  /** Running an effect only appends to the trace and to the log. */
  lemma {:induction false} EffectRanExtends<M>(r: LiftedReducer<M>, o: Oracle, w: World<M>, effect: Effect,
                                               final: Value, chain: seq<Value>, fuel: nat)
    ensures Extends(w, EffectRan(r, o, w, effect, final, chain, fuel).world)
    decreases fuel, 2, 0
  {
    var res := EffectRan(r, o, w, effect, final, chain, fuel);
    match EffectToPromise(effect, o)
    case Rejected(_) =>
    case Fulfilled(v) =>
      var children := AllDispatched(r, o, w, Materialize(v), chain, fuel);
      AllDispatchedExtends(r, o, w, Materialize(v), chain, fuel);
      if children.outcome.Settled? && Truthy(final) {
        DispatchedExtends(r, o, children.world, final, Undefined, [], fuel);
        ExtendsTransitive(w, children.world, res.world);
      } else if children.outcome.Threw? {
        ExtendsTransitive(w, children.world, res.world);
      }
  }

  /** Dispatching a list of actions only appends to the trace and to the log. */
  lemma {:induction false} AllDispatchedExtends<M>(r: LiftedReducer<M>, o: Oracle, w: World<M>, actions: seq<Value>,
                                                   chain: seq<Value>, fuel: nat)
    ensures Extends(w, AllDispatched(r, o, w, actions, chain, fuel).world)
    decreases fuel, 1, |actions|
  {
    if actions != [] {
      var first := Dispatched(r, o, w, actions[0], Null, chain, fuel);
      DispatchedExtends(r, o, w, actions[0], Null, chain, fuel);
      AllDispatchedExtends(r, o, first.world, actions[1..], chain, fuel);
      ExtendsTransitive(w, first.world, AllDispatched(r, o, w, actions, chain, fuel).world);
    }
  }

  /** A dispatch reduces its action through the wrapped store before
      anything else: the first call it records is that of its own action
      with the chain it was given, and the effect it runs is the one of the
      state that reduction produced. */
  lemma DispatchReducesFirst<M>(r: LiftedReducer<M>, o: Oracle, w: World<M>, action: Value,
                                final: Value, chain: seq<Value>, fuel: nat)
    requires fuel > 0
    ensures var res := Dispatched(r, o, w, action, final, chain, fuel).world;
      |res.trace| > |w.trace| && res.trace[..|w.trace|] == w.trace &&
      res.trace[|w.trace|] == Entry(action, chain)
    ensures var s := r(w.state, action);
      Dispatched(r, o, w, action, final, chain, fuel) ==
      EffectRan(r, o, World(s, w.trace + [Entry(action, chain)], w.log), s.effect, final,
                Concat(chain, action), fuel - 1)
  {
    var s := r(w.state, action);
    var w1 := World(s, w.trace + [Entry(action, chain)], w.log);
    EffectRanExtends(r, o, w1, s.effect, final, Concat(chain, action), fuel - 1);
    var res := Dispatched(r, o, w, action, final, chain, fuel).world;
    assert res.trace[..|w1.trace|] == w1.trace;
    assert res.trace[|w.trace|] == res.trace[..|w1.trace|][|w.trace|];
    assert res.trace[..|w.trace|] == res.trace[..|w1.trace|][..|w.trace|];
  }

  /** A prefix of a prefix is a prefix. */
  lemma PrefixTransitive<T>(a: seq<T>, b: seq<T>, c: seq<T>)
    requires IsPrefix(a, b) && IsPrefix(b, c)
    ensures IsPrefix(a, c)
  {
    assert c[..|a|] == c[..|b|][..|a|];
  }

  /** Every call recorded after `w` carries a chain that starts with `chain`. */
  ghost predicate ChainsStartWith<M>(w: World<M>, w': World<M>, chain: seq<Value>)
  {
    forall k :: |w.trace| <= k < |w'.trace| ==> IsPrefix(chain, w'.trace[k].chain)
  }

  /** Without a truthy final action, every call a dispatch makes to the
      wrapped store carries a chain that starts with the chain the dispatch
      was given: the causal chain only grows along the recursion. */
  lemma {:induction false} DispatchedChains<M>(r: LiftedReducer<M>, o: Oracle, w: World<M>, action: Value,
                                               final: Value, chain: seq<Value>, fuel: nat)
    requires !Truthy(final)
    ensures ChainsStartWith(w, Dispatched(r, o, w, action, final, chain, fuel).world, chain)
    decreases fuel, 0, 0
  {
    if fuel > 0 {
      var s := r(w.state, action);
      var w1 := World(s, w.trace + [Entry(action, chain)], w.log);
      var chain' := Concat(chain, action);
      var res := Dispatched(r, o, w, action, final, chain, fuel).world;
      EffectRanChains(r, o, w1, s.effect, final, chain', fuel - 1);
      EffectRanExtends(r, o, w1, s.effect, final, chain', fuel - 1);
      forall k | |w.trace| <= k < |res.trace|
        ensures IsPrefix(chain, res.trace[k].chain)
      {
        if k == |w.trace| {
          assert res.trace[k] == res.trace[..|w1.trace|][k] == w1.trace[k];
        } else {
          PrefixTransitive(chain, chain', res.trace[k].chain);
        }
      }
    }
  }

  /** Without a truthy final action, every call made while running an
      effect carries a chain that starts with the effect's chain. */
  lemma {:induction false} EffectRanChains<M>(r: LiftedReducer<M>, o: Oracle, w: World<M>, effect: Effect,
                                              final: Value, chain: seq<Value>, fuel: nat)
    requires !Truthy(final)
    ensures ChainsStartWith(w, EffectRan(r, o, w, effect, final, chain, fuel).world, chain)
    decreases fuel, 2, 0
  {
    match EffectToPromise(effect, o)
    case Rejected(_) =>
    case Fulfilled(v) =>
      AllDispatchedChains(r, o, w, Materialize(v), chain, fuel);
  }

  /** Every call made while dispatching a list of yielded actions carries a
      chain that starts with the chain they were yielded under. */
  lemma {:induction false} AllDispatchedChains<M>(r: LiftedReducer<M>, o: Oracle, w: World<M>, actions: seq<Value>,
                                                  chain: seq<Value>, fuel: nat)
    ensures ChainsStartWith(w, AllDispatched(r, o, w, actions, chain, fuel).world, chain)
    decreases fuel, 1, |actions|
  {
    if actions != [] {
      var first := Dispatched(r, o, w, actions[0], Null, chain, fuel);
      var res := AllDispatched(r, o, w, actions, chain, fuel).world;
      DispatchedChains(r, o, w, actions[0], Null, chain, fuel);
      AllDispatchedChains(r, o, first.world, actions[1..], chain, fuel);
      AllDispatchedExtends(r, o, first.world, actions[1..], chain, fuel);
      DispatchedExtends(r, o, w, actions[0], Null, chain, fuel);
      forall k | |w.trace| <= k < |res.trace|
        ensures IsPrefix(chain, res.trace[k].chain)
      {
        if k < |first.world.trace| {
          assert res.trace[k] == res.trace[..|first.world.trace|][k] == first.world.trace[k];
        }
      }
    }
  }

  /** `ps` places every action at its own position of `trace`, after `from`,
      with `chain`, in increasing order. */
  ghost predicate Placed(ps: seq<nat>, actions: seq<Value>, chain: seq<Value>, from: nat, trace: seq<Entry>)
  {
    |ps| == |actions| &&
    (forall i :: 0 <= i < |ps| ==> from <= ps[i] < |trace| && trace[ps[i]] == Entry(actions[i], chain)) &&
    (forall i, j :: 0 <= i < j < |ps| ==> ps[i] < ps[j])
  }

  /** Placing the first action in front of the positions of the others. */
  lemma PlacedPrepend(ps: seq<nat>, actions: seq<Value>, chain: seq<Value>, at: nat,
                      first: seq<Entry>, trace: seq<Entry>)
    requires |actions| > 0 && at < |first| && first[at] == Entry(actions[0], chain)
    requires IsPrefix(first, trace)
    requires Placed(ps, actions[1..], chain, |first|, trace)
    ensures Placed([at] + ps, actions, chain, at, trace)
  {
    var qs := [at] + ps;
    assert trace[at] == trace[..|first|][at];
    forall i | 1 <= i < |qs|
      ensures at <= qs[i] < |trace| && trace[qs[i]] == Entry(actions[i], chain)
    {
      assert qs[i] == ps[i - 1] && actions[i] == actions[1..][i - 1];
    }
    forall i, j | 0 <= i < j < |qs|
      ensures qs[i] < qs[j]
    {
      if i > 0 { assert qs[i] == ps[i - 1] && qs[j] == ps[j - 1]; }
    }
  }

  /** Every yielded action is dispatched, in order, at its own position of
      the trace, with the chain it was yielded under; the first one is the
      first call made. */
  lemma {:induction false} EachActionDispatched<M>(r: LiftedReducer<M>, o: Oracle, w: World<M>, actions: seq<Value>,
                                                   chain: seq<Value>, fuel: nat) returns (ps: seq<nat>)
    requires fuel > 0
    ensures var res := AllDispatched(r, o, w, actions, chain, fuel).world;
      |ps| == |actions| &&
      (actions != [] ==> ps[0] == |w.trace|) &&
      (forall i :: 0 <= i < |ps| ==> |w.trace| <= ps[i] < |res.trace| && res.trace[ps[i]] == Entry(actions[i], chain)) &&
      (forall i, j :: 0 <= i < j < |ps| ==> ps[i] < ps[j]) &&
      ((forall i :: 0 <= i < |actions| ==> actions[i] != Arr([])) ==>
        |res.trace| >= |w.trace| && AtChain(res.trace[|w.trace|..], chain) == actions)
    decreases |actions|
  {
    if forall i :: 0 <= i < |actions| ==> actions[i] != Arr([]) {
      AllDispatchedOnceAtChain(r, o, w, actions, chain, fuel);
    }
    if actions == [] {
      ps := [];
    } else {
      var first := Dispatched(r, o, w, actions[0], Null, chain, fuel).world;
      var res := AllDispatched(r, o, first, actions[1..], chain, fuel).world;
      assert res == AllDispatched(r, o, w, actions, chain, fuel).world;
      DispatchReducesFirst(r, o, w, actions[0], Null, chain, fuel);
      var rest := EachActionDispatched(r, o, first, actions[1..], chain, fuel);
      AllDispatchedExtends(r, o, first, actions[1..], chain, fuel);
      assert Placed(rest, actions[1..], chain, |first.trace|, res.trace);
      PlacedPrepend(rest, actions, chain, |w.trace|, first.trace, res.trace);
      ps := [|w.trace|] + rest;
      assert Placed(ps, actions, chain, |w.trace|, res.trace);
    }
  }

  /** The actions of the calls in `t` whose chain is exactly `chain`, in
      order. */
  ghost function AtChain(t: seq<Entry>, chain: seq<Value>): seq<Value>
  {
    if t == [] then []
    else (if t[0].chain == chain then [t[0].action] else []) + AtChain(t[1..], chain)
  }

  /** Selecting by chain distributes over concatenation. */
  lemma {:induction false} AtChainAppend(a: seq<Entry>, b: seq<Entry>, chain: seq<Value>)
    ensures AtChain(a + b, chain) == AtChain(a, chain) + AtChain(b, chain)
  {
    if a == [] {
      assert a + b == b;
    } else {
      assert (a + b)[1..] == a[1..] + b;
      AtChainAppend(a[1..], b, chain);
    }
  }

  /** No call whose chain extends a strictly longer chain has `chain` as
      its chain. */
  lemma {:induction false} AtChainNone(t: seq<Entry>, chain: seq<Value>, longer: seq<Value>)
    requires |longer| > |chain|
    requires forall k :: 0 <= k < |t| ==> IsPrefix(longer, t[k].chain)
    ensures AtChain(t, chain) == []
  {
    if t != [] {
      assert IsPrefix(longer, t[0].chain);
      AtChainNone(t[1..], chain, longer);
    }
  }

  /** A trace whose call at `from` has chain `chain`, and whose later calls
      all extend a strictly longer chain, has exactly that one call with
      `chain` from `from` on. */
  lemma AtChainHead(trace: seq<Entry>, from: nat, chain: seq<Value>, longer: seq<Value>)
    requires from < |trace| && trace[from].chain == chain && |longer| > |chain|
    requires forall k :: from < k < |trace| ==> IsPrefix(longer, trace[k].chain)
    ensures AtChain(trace[from..], chain) == [trace[from].action]
  {
    var later := trace[from + 1..];
    assert trace[from..] == [trace[from]] + later;
    forall k | 0 <= k < |later|
      ensures IsPrefix(longer, later[k].chain)
    {
      assert later[k] == trace[from + 1 + k];
    }
    AtChainNone(later, chain, longer);
    AtChainAppend([trace[from]], later, chain);
    assert AtChain([trace[from]], chain) == [trace[from].action];
  }

  /** A dispatch under `chain` of an action that is not an empty array makes
      exactly one call with the chain `chain`: its own; every later call it
      causes carries a longer chain. */
  lemma DispatchedOnceAtChain<M>(r: LiftedReducer<M>, o: Oracle, w: World<M>, action: Value,
                                 chain: seq<Value>, fuel: nat)
    requires fuel > 0 && action != Arr([])
    ensures var res := Dispatched(r, o, w, action, Null, chain, fuel).world;
      |res.trace| >= |w.trace| && AtChain(res.trace[|w.trace|..], chain) == [action]
  {
    var s := r(w.state, action);
    var w1 := World(s, w.trace + [Entry(action, chain)], w.log);
    var chain' := Concat(chain, action);
    var res := Dispatched(r, o, w, action, Null, chain, fuel).world;
    DispatchReducesFirst(r, o, w, action, Null, chain, fuel);
    EffectRanChains(r, o, w1, s.effect, Null, chain', fuel - 1);
    assert |chain'| > |chain| by {
      if action.Arr? { assert action.items != []; }
    }
    AtChainHead(res.trace, |w.trace|, chain, chain');
  }

  /** The calls with `chain` after `from` in a trace that extends `first` are
      those in `first` after `from`, then those `trace` adds to `first`. */
  lemma AtChainSplit(first: seq<Entry>, trace: seq<Entry>, from: nat, chain: seq<Value>)
    requires from <= |first| && IsPrefix(first, trace)
    ensures AtChain(trace[from..], chain) == AtChain(first[from..], chain) + AtChain(trace[|first|..], chain)
  {
    assert trace[from..] == first[from..] + trace[|first|..] by {
      assert trace[..|first|] == first;
    }
    AtChainAppend(first[from..], trace[|first|..], chain);
  }

  /** Dispatching yielded actions that are not empty arrays makes, with the
      chain they were yielded under, exactly the calls for those actions, in
      order: each is dispatched once. */
  lemma {:induction false} AllDispatchedOnceAtChain<M>(r: LiftedReducer<M>, o: Oracle, w: World<M>,
                                                       actions: seq<Value>, chain: seq<Value>, fuel: nat)
    requires fuel > 0
    requires forall i :: 0 <= i < |actions| ==> actions[i] != Arr([])
    ensures var res := AllDispatched(r, o, w, actions, chain, fuel).world;
      |res.trace| >= |w.trace| && AtChain(res.trace[|w.trace|..], chain) == actions
    decreases |actions|
  {
    if actions != [] {
      var first := Dispatched(r, o, w, actions[0], Null, chain, fuel).world;
      var res := AllDispatched(r, o, first, actions[1..], chain, fuel).world;
      assert res == AllDispatched(r, o, w, actions, chain, fuel).world;
      DispatchedOnceAtChain(r, o, w, actions[0], chain, fuel);
      assert forall i :: 0 <= i < |actions[1..]| ==> actions[1..][i] == actions[i + 1];
      AllDispatchedOnceAtChain(r, o, first, actions[1..], chain, fuel);
      AllDispatchedExtends(r, o, first, actions[1..], chain, fuel);
      AtChainSplit(first.trace, res.trace, |w.trace|, chain);
      assert [actions[0]] + actions[1..] == actions;
    }
  }

  /** Dispatching an action whose reducer returns a bare model reduces that
      one action and settles, with no further dispatch and no diagnostic. */
  lemma BareResultSettles<M(!new)>(reducer: Reducer<M>, o: Oracle, w: World<M>, action: Value,
                                   final: Value, chain: seq<Value>, fuel: nat)
    requires fuel > 0
    requires !IsLoop(reducer(w.state.model, action)) && !Truthy(final)
    ensures Dispatched(LiftReducer(reducer), o, w, action, final, chain, fuel) ==
      Step(World(LoopState(reducer(w.state.model, action).value, NoneEffect),
                 w.trace + [Entry(action, chain)], w.log), Settled)
  {
    var r := LiftReducer(reducer);
    var s := r(w.state, action);
    var w1 := World(s, w.trace + [Entry(action, chain)], w.log);
    ResolveNone(o);
    assert s.effect == NoneEffect;
    assert AllDispatched(r, o, w1, [], Concat(chain, action), fuel - 1) == Step(w1, Settled);
    assert EffectRan(r, o, w1, s.effect, final, Concat(chain, action), fuel - 1) == Step(w1, Settled);
  }

  /** Dispatching an action whose new state carries `constant(b)`, for a
      truthy `b` that is not an array and no final action, is reducing the
      action and then dispatching `b` exactly once, under the chain extended
      by the action; a failure there is written once more and passed on. */
  lemma ConstantDispatchedOnce<M>(r: LiftedReducer<M>, o: Oracle, w: World<M>, action: Value, b: Value,
                                  final: Value, chain: seq<Value>, fuel: nat)
    requires fuel > 1
    requires r(w.state, action).effect == Constant(b) && Truthy(b) && !b.Arr?
    requires !Truthy(final)
    ensures var w1 := World(r(w.state, action), w.trace + [Entry(action, chain)], w.log);
      var chain' := Concat(chain, action);
      var inner := Dispatched(r, o, w1, b, Null, chain', fuel - 1);
      Dispatched(r, o, w, action, final, chain, fuel) ==
        (if inner.outcome.Threw? then Step(Logged(inner.world, chain'), inner.outcome) else inner) &&
      |inner.world.trace| > |w.trace| + 1 && inner.world.trace[|w.trace| + 1] == Entry(b, chain')
  {
    var w1 := World(r(w.state, action), w.trace + [Entry(action, chain)], w.log);
    var chain' := Concat(chain, action);
    var inner := Dispatched(r, o, w1, b, Null, chain', fuel - 1);
    MaterializeCases(b);
    assert EffectToPromise(Constant(b), o) == Fulfilled(b);
    assert [b][1..] == [];
    assert AllDispatched(r, o, inner.world, [], chain', fuel - 1) == Step(inner.world, Settled);
    var children := AllDispatched(r, o, w1, [b], chain', fuel - 1);
    assert children == Step(inner.world, Both(inner.outcome, Settled));
    assert children == inner;
    DispatchReducesFirst(r, o, w1, b, Null, chain', fuel - 1);
  }

  /** A truthy final action is dispatched only once every yielded action's
      dispatch has settled, after all of their calls, with an empty chain;
      its failure does not reach the caller. When a yielded dispatch fails
      or the effect rejects, the final action is not dispatched at all. */
  lemma FinalDispatchedLast<M>(r: LiftedReducer<M>, o: Oracle, w: World<M>, effect: Effect,
                               final: Value, chain: seq<Value>, fuel: nat)
    ensures EffectToPromise(effect, o).Rejected? ==>
      EffectRan(r, o, w, effect, final, chain, fuel).world.trace == w.trace
    ensures EffectToPromise(effect, o).Fulfilled? ==>
      var children := AllDispatched(r, o, w, Materialize(EffectToPromise(effect, o).value), chain, fuel);
      var res := EffectRan(r, o, w, effect, final, chain, fuel);
      (children.outcome.Settled? && Truthy(final) && fuel > 0 ==>
        |res.world.trace| > |children.world.trace| &&
        res.world.trace[..|children.world.trace|] == children.world.trace &&
        res.world.trace[|children.world.trace|] == Entry(final, [])) &&
      (children.outcome.Settled? ==> !res.outcome.Threw?) &&
      (!children.outcome.Settled? || !Truthy(final) ==> res.world.trace == children.world.trace)
  {
    if EffectToPromise(effect, o).Fulfilled? && fuel > 0 {
      var children := AllDispatched(r, o, w, Materialize(EffectToPromise(effect, o).value), chain, fuel);
      DispatchReducesFirst(r, o, children.world, final, Undefined, [], fuel);
    }
  }

  /** A rejection is never absorbed: the effect's run rejects with the same
      error, and its last diagnostic names the chain that led to it. A
      failure of a yielded action's dispatch is passed on in the same way. */
  lemma FailureLoggedAndRethrown<M>(r: LiftedReducer<M>, o: Oracle, w: World<M>, effect: Effect,
                                    final: Value, chain: seq<Value>, fuel: nat)
    ensures EffectToPromise(effect, o).Rejected? ==>
      EffectRan(r, o, w, effect, final, chain, fuel) ==
      Step(Logged(w, chain), Threw(EffectToPromise(effect, o).reason))
    ensures var res := EffectRan(r, o, w, effect, final, chain, fuel);
      res.outcome.Threw? ==>
        |res.world.log| > |w.log| && res.world.log[..|w.log|] == w.log &&
        res.world.log[|res.world.log| - 1] == Diagnostic(chain)
    ensures EffectToPromise(effect, o).Fulfilled? ==>
      var children := AllDispatched(r, o, w, Materialize(EffectToPromise(effect, o).value), chain, fuel);
      children.outcome.Threw? ==> EffectRan(r, o, w, effect, final, chain, fuel).outcome == children.outcome
  {
    if EffectToPromise(effect, o).Fulfilled? {
      AllDispatchedExtends(r, o, w, Materialize(EffectToPromise(effect, o).value), chain, fuel);
    }
  }

  /** The bootstrap run at install time never reduces the synthetic INIT
      action: it only dispatches what the initial effect yields, the first
      of them first, and every call it makes carries a chain that starts
      with INIT. An initial effect that yields nothing changes nothing. */
  lemma BootstrapNeverReducesInit<M>(r: LiftedReducer<M>, o: Oracle, init: LoopState<M>, fuel: nat)
    ensures var res := EffectRan(r, o, World(init, [], []), init.effect, Null, [InitAction], fuel).world;
      forall k :: 0 <= k < |res.trace| ==> |res.trace[k].chain| > 0 && res.trace[k].chain[0] == InitAction
    ensures var res := EffectRan(r, o, World(init, [], []), init.effect, Null, [InitAction], fuel).world;
      EffectToPromise(init.effect, o).Fulfilled? && fuel > 0 ==>
      var yielded := Materialize(EffectToPromise(init.effect, o).value);
      (yielded == [] ==> res == World(init, [], [])) &&
      (yielded != [] ==> |res.trace| > 0 && res.trace[0] == Entry(yielded[0], [InitAction]))
  {
    var w := World(init, [], []);
    EffectRanChains(r, o, w, init.effect, Null, [InitAction], fuel);
    var res := EffectRan(r, o, w, init.effect, Null, [InitAction], fuel).world;
    forall k | 0 <= k < |res.trace|
      ensures |res.trace[k].chain| > 0 && res.trace[k].chain[0] == InitAction
    {
      assert IsPrefix([InitAction], res.trace[k].chain);
      assert res.trace[k].chain[0] == res.trace[k].chain[..1][0];
    }
    if EffectToPromise(init.effect, o).Fulfilled? && fuel > 0 {
      var yielded := Materialize(EffectToPromise(init.effect, o).value);
      var ps := EachActionDispatched(r, o, w, yielded, [InitAction], fuel);
    }
  }

  /** Grouping does not change the verdict of `Promise.all`, so a loop may
      fold the dispatches from the first one on. */
  lemma BothAssociative(a: Outcome, b: Outcome, c: Outcome)
    ensures Both(a, Both(b, c)) == Both(Both(a, b), c)
  {
  }

  /** The store `install()(next)(reducer, initialState)` returns: the wrapped
      store's state and reducer, with `dispatch`, `getState` and
      `replaceReducer` overridden. */
  class LoopStore<M(!new)> {
    /** The wrapped store's state: a model with its pending effect. */
    var state: LoopState<M>
    /** The reducer the wrapped store runs; always a lifted one. */
    var reducer: LiftedReducer<M>
    /** The calls made so far to the wrapped store's dispatch. */
    ghost var trace: seq<Entry>
    /** The diagnostics written so far to the error sink. */
    var log: seq<string>
    /** How the promises of effect factories settle. */
    const oracle: Oracle

    /** What a run of the loop has changed so far: the state, the calls
        made to the wrapped store and the diagnostics written. */
    ghost function Now(): World<M>
      reads this
    {
      World(state, trace, log)
    }

    /** Lift the reducer and the initial state, create the wrapped store, and
        run the initial state's effect under the chain `[INIT]`. */
    constructor (userReducer: Reducer<M>, initialState: Reduced<M>, oracle: Oracle, fuel: nat)
      ensures this.oracle == oracle && reducer == LiftReducer(userReducer)
      ensures var init := LiftState(initialState);
        Now() == EffectRan(reducer, oracle, World(init, [], []), init.effect, Null, [InitAction], fuel).world
    {
      var init := LiftState(initialState);
      this.oracle := oracle;
      reducer := LiftReducer(userReducer);
      state := init;
      trace := [];
      log := [];
      new;
      var _ := RunEffect(init.effect, Null, [InitAction], fuel);
    }

    /** `dispatch(action, finalAction, originalActions)`. */
    method Dispatch(action: Value, final: Value, chain: seq<Value>, fuel: nat) returns (out: Outcome)
      modifies this
      decreases fuel, 0, 0
      ensures reducer == old(reducer)
      ensures Step(Now(), out) == Dispatched(reducer, oracle, old(Now()), action, final, chain, fuel)
    {
      if fuel == 0 {
        return OutOfFuel;
      }
      state := reducer(state, action);
      trace := trace + [Entry(action, chain)];
      out := RunEffect(state.effect, final, Concat(chain, action), fuel - 1);
    }

    /** `runEffect(effect, finalAction, originalActions)`. */
    method RunEffect(effect: Effect, final: Value, chain: seq<Value>, fuel: nat) returns (out: Outcome)
      modifies this
      decreases fuel, 2, 0
      ensures reducer == old(reducer)
      ensures Step(Now(), out) == EffectRan(reducer, oracle, old(Now()), effect, final, chain, fuel)
    {
      ghost var w0 := Now();
      var settled := EffectToPromise(effect, oracle);
      ghost var spec := EffectRan(reducer, oracle, w0, effect, final, chain, fuel);
      if settled.Rejected? {
        assert spec == Step(Logged(w0, chain), Threw(settled.reason));
        log := log + [Diagnostic(chain)];
        out := Threw(settled.reason);
        return;
      }
      var all := DispatchEach(Materialize(settled.value), chain, fuel);
      ghost var children := AllDispatched(reducer, oracle, w0, Materialize(settled.value), chain, fuel);
      assert children == Step(Now(), all);
      if all.Threw? {
        assert spec == Step(Logged(children.world, chain), all);
        log := log + [Diagnostic(chain)];
        out := all;
      } else if all.OutOfFuel? {
        assert spec == children;
        out := OutOfFuel;
      } else if Truthy(final) {
        ghost var lastSpec := Dispatched(reducer, oracle, children.world, final, Undefined, [], fuel);
        assert spec == Step(lastSpec.world, if lastSpec.outcome.OutOfFuel? then OutOfFuel else Settled);
        var last := Dispatch(final, Undefined, [], fuel);
        out := if last.OutOfFuel? then OutOfFuel else Settled;
      } else {
        assert spec == children;
        out := Settled;
      }
    }

    /** `Promise.all(actions.map((action) => dispatch(action, null, originalActions)))`:
        every action is dispatched in turn, also after one has failed. */
    method DispatchEach(actions: seq<Value>, chain: seq<Value>, fuel: nat) returns (all: Outcome)
      modifies this
      decreases fuel, 1, |actions|
      ensures reducer == old(reducer)
      ensures Step(Now(), all) == AllDispatched(reducer, oracle, old(Now()), actions, chain, fuel)
    {
      all := Settled;
      var i := 0;
      while i < |actions|
        invariant 0 <= i <= |actions|
        invariant reducer == old(reducer)
        invariant AllDispatched(reducer, oracle, old(Now()), actions, chain, fuel) ==
          var rest := AllDispatched(reducer, oracle, Now(), actions[i..], chain, fuel);
          Step(rest.world, Both(all, rest.outcome))
      {
        ghost var before := Now();
        assert actions[i..][1..] == actions[i + 1..];
        var one := Dispatch(actions[i], Null, chain, fuel);
        ghost var rest := AllDispatched(reducer, oracle, Now(), actions[i + 1..], chain, fuel);
        assert AllDispatched(reducer, oracle, before, actions[i..], chain, fuel) ==
          Step(rest.world, Both(one, rest.outcome));
        BothAssociative(all, one, rest.outcome);
        all := Both(all, one);
        i := i + 1;
      }
      assert actions[i..] == [];
    }

    /** `getState()`: the model half of the wrapped store's state. */
    function GetState(): (m: M)
      reads this
      ensures m == state.model
    {
      state.model
    }

    /** `replaceReducer(r)`: the wrapped store gets the lifted form of `r`. */
    method ReplaceReducer(r: Reducer<M>)
      modifies this
      ensures reducer == LiftReducer(r)
      ensures state == old(state) && trace == old(trace) && log == old(log)
    {
      reducer := LiftReducer(r);
    }
  }
}
