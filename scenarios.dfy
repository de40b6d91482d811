/** Clients of the installed store: small applications whose runs the
    contracts of `LoopStore` determine completely. */
module Scenarios {
  import opened Values
  import opened Effects
  import opened Loop
  import opened Install

  const Increment: Value := Obj("INCREMENT", Undefined)
  const Fetch: Value := Obj("FETCH", Undefined)
  const Done: Value := Obj("DONE", Num(42))
  const First: Value := Obj("FIRST", Undefined)
  const Second: Value := Obj("SECOND", Undefined)

  /** A counter whose reducer never emits an effect. */
  function Counter(n: int, a: Value): Reduced<int>
  {
    if a == Increment then Bare(n + 1) else Bare(n)
  }

  /** FETCH asks for `fetchFn()`; DONE stores its payload. */
  function Fetcher(n: int, a: Value): Reduced<int>
  {
    if a == Fetch then Looped(LoopState(n, Promise("fetchFn", [])))
    else if a.Obj? && a.actionType == "DONE" && a.payload.Num? then Bare(a.payload.n)
    else Bare(n)
  }

  /** FIRST yields SECOND at once; SECOND asks for a factory that fails. */
  function Chained(n: int, a: Value): Reduced<int>
  {
    if a == First then Looped(LoopState(n, Constant(Second)))
    else if a == Second then Looped(LoopState(n, Promise("failing", [])))
    else Bare(n)
  }

  /** `fetchFn()` resolves to DONE with payload 42; `failing()` rejects. */
  function Backend(factory: string, args: seq<Value>): Settlement<Value>
  {
    if factory == "fetchFn" then Fulfilled(Done) else Rejected(Str("boom"))
  }

  /** Installed over the bare model 0, three INCREMENT dispatches settle,
      leave the model at 3, and reduce nothing but the three actions. */
  method CounterScenario() returns (model: int, outcomes: seq<Outcome>, ghost trace: seq<Entry>)
    ensures model == 3 && outcomes == [Settled, Settled, Settled]
    ensures trace == [Entry(Increment, []), Entry(Increment, []), Entry(Increment, [])]
  {
    ResolveNone(Backend);
    var store := new LoopStore(Counter, Bare(0), Backend, 1);
    assert store.trace == [] && store.GetState() == 0;
    var w0 := store.Now();
    var o1 := store.Dispatch(Increment, Undefined, [], 1);
    BareResultSettles(Counter, Backend, w0, Increment, Undefined, [], 1);
    var w1 := store.Now();
    var o2 := store.Dispatch(Increment, Undefined, [], 1);
    BareResultSettles(Counter, Backend, w1, Increment, Undefined, [], 1);
    var w2 := store.Now();
    var o3 := store.Dispatch(Increment, Undefined, [], 1);
    BareResultSettles(Counter, Backend, w2, Increment, Undefined, [], 1);
    model := store.GetState();
    outcomes := [o1, o2, o3];
    trace := store.trace;
  }

  /** FETCH's effect resolves to DONE, which is dispatched with the chain
      [FETCH] before the outer dispatch settles; the model then holds 42. */
  method FetchScenario() returns (model: int, out: Outcome, ghost trace: seq<Entry>)
    ensures model == 42 && out == Settled
    ensures trace == [Entry(Fetch, []), Entry(Done, [Fetch])]
  {
    ResolveNone(Backend);
    var store := new LoopStore(Fetcher, Bare(0), Backend, 1);
    var w0 := store.Now();
    out := store.Dispatch(Fetch, Undefined, [], 2);
    var r := store.reducer;
    var w1 := World(r(w0.state, Fetch), w0.trace + [Entry(Fetch, [])], w0.log);
    assert Materialize(Done) == [Done] by { MaterializeCases(Done); }
    BareResultSettles(Fetcher, Backend, w1, Done, Null, [Fetch], 1);
    assert AllDispatched(r, Backend, w1, [Done], [Fetch], 1) ==
      Dispatched(r, Backend, w1, Done, Null, [Fetch], 1);
    model := store.GetState();
    trace := store.trace;
  }

  /** A rejection two dispatches deep is re-thrown to the outer caller and
      written once by each enclosing effect run, innermost chain first. */
  method FailureScenario() returns (out: Outcome, log: seq<string>)
    ensures out == Threw(Str("boom"))
    ensures log == [Diagnostic([First, Second]), Diagnostic([First])]
  {
    ResolveNone(Backend);
    var store := new LoopStore(Chained, Bare(0), Backend, 1);
    assert store.Now() == World(LoopState(0, NoneEffect), [], []);
    out := store.Dispatch(First, Undefined, [], 3);
    FailureRun();
    log := store.log;
  }

  /** The run behind `FailureScenario`, on the specification functions. */
  lemma FailureRun()
    ensures var w0 := World(LoopState(0, NoneEffect), [], []);
      var res := Dispatched(LiftReducer(Chained), Backend, w0, First, Undefined, [], 3);
      res.outcome == Threw(Str("boom")) &&
      res.world.log == [Diagnostic([First, Second]), Diagnostic([First])] &&
      res.world.trace == [Entry(First, []), Entry(Second, [First])]
  {
    var r := LiftReducer(Chained);
    var w0 := World(LoopState(0, NoneEffect), [], []);
    ConstantDispatchedOnce(r, Backend, w0, First, Second, Undefined, [], 3);
    var w1 := World(r(w0.state, First), [Entry(First, [])], []);
    assert Concat([], First) == [First];
    SecondFails(w1);
  }

  /** SECOND, dispatched under [FIRST], reduces and then rejects with the
      diagnostic for [FIRST, SECOND]. */
  lemma SecondFails(w1: World<int>)
    ensures var r := LiftReducer(Chained);
      var w2 := World(r(w1.state, Second), w1.trace + [Entry(Second, [First])], w1.log);
      Dispatched(r, Backend, w1, Second, Null, [First], 2) ==
        Step(Logged(w2, [First, Second]), Threw(Str("boom")))
  {
    var r := LiftReducer(Chained);
    var s2 := r(w1.state, Second);
    var w2 := World(s2, w1.trace + [Entry(Second, [First])], w1.log);
    assert s2.effect == Promise("failing", []);
    assert EffectToPromise(s2.effect, Backend) == Rejected(Str("boom"));
    assert Concat([First], Second) == [First, Second];
    assert EffectRan(r, Backend, w2, s2.effect, Null, [First, Second], 1) ==
      Step(Logged(w2, [First, Second]), Threw(Str("boom")));
  }

  /** The diagnostic lists the action types of the chain, outermost first,
      joined by `' > '`. */
  lemma ChainTypesJoined()
    ensures JoinTypes([First, Second], " > ") == "FIRST > SECOND"
  {
    assert [First, Second][1..] == [Second];
  }

  /** An initial state that carries `constant(INCREMENT)` has INCREMENT
      dispatched once by the install-time run, under the chain [INIT], and INIT
      itself is never reduced. */
  method BootstrapScenario() returns (model: int, ghost trace: seq<Entry>)
    ensures model == 1 && trace == [Entry(Increment, [InitAction])]
  {
    var init := LoopState(0, Constant(Increment));
    var store := new LoopStore(Counter, Looped(init), Backend, 1);
    var r := store.reducer;
    var w := World(init, [], []);
    assert Materialize(Increment) == [Increment] by { MaterializeCases(Increment); }
    BareResultSettles(Counter, Backend, w, Increment, Null, [InitAction], 1);
    assert AllDispatched(r, Backend, w, [Increment], [InitAction], 1) ==
      Dispatched(r, Backend, w, Increment, Null, [InitAction], 1);
    model := store.GetState();
    trace := store.trace;
  }
}
