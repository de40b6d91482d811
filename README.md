# redux-loop effects and installer, in Dafny

This project models the core of redux-loop: the effect algebra
(`modules/effects.js`) and the store enhancer that runs effects
(`modules/install.js`).

A reducer returns a looped state, which is a model paired with an effect
description. An effect description is an inert value of one of four kinds:
NONE, CONSTANT (a known action), PROMISE (a factory and its arguments) or
BATCH (a list of effects). `map` rewrites an effect. `effectToPromise`
turns an effect into a promise of follow-up actions. The installed store
works like this:

- It lifts the reducer and the initial state so that every state is a looped state.
- Each `dispatch` reduces the action through the wrapped store.
- It then resolves the effect of the new state.
- The resolved value becomes a list of actions, and each is dispatched
  recursively with the causal chain of actions extended by the action
  (`concat`, which spreads an array action into its elements).
- An optional final action is dispatched afterwards.
- A rejection writes a diagnostic that names the chain, then is re-thrown.

Files:

- `values.dfy` (module `Values`): JavaScript values. It covers truthiness,
  `Array.prototype.concat`, which spreads an array argument one level, the
  `filter(a => a)` of truthy entries, and `join` of action types.
- `effects.dfy` (module `Effects`): the `Effect` datatype, the four builders,
  `isEffect`, `map` and `effectToPromise`. Each PROMISE factory is resolved
  through an oracle: a function from a factory name and its arguments to
  how the factory's promise settles.
- `loop.dfy` (module `Loop`): the looped-state shape the installer relies on.
- `install.dfy` (module `Install`): `liftState`, `liftReducer`, and three
  ghost functions that give the meaning of `dispatch`, `runEffect` and the
  `Promise.all` over yielded actions (`Dispatched`, `EffectRan`,
  `AllDispatched`). It also holds the lemmas about them, and the class
  `LoopStore`. `LoopStore` holds the wrapped store's state and reducer in
  fields, and its methods are proved equal to those functions.
- `scenarios.dfy` (module `Scenarios`): small client applications whose runs
  the contracts fix completely: a counter, a fetch, a failure and a bootstrap.

Dispatch runs sequentially and depth first. A `fuel` bound limits the
recursion depth, and an `OutOfFuel` outcome says the bound was reached.

Behaviour of the code that the model keeps, and that a reader might not
expect:

- `map` on a PROMISE or CONSTANT overwrites the mapper. It does not compose
  with an earlier one (`MapLastWins`, `ResolveConstant`).
- NONE resolves to `undefined`. The dispatch loop's `filter(a => a)` then
  drops it (`ResolveNone`). Flattening a BATCH keeps non-array child values,
  `undefined` included, as elements.
- `install()` takes no options.
- `dispatch` takes a `finalAction`. It is dispatched only after all yielded
  actions settle. It gets an empty chain. Its promise is not awaited, so its
  failure never reaches the caller.
- A rejection is logged by every enclosing `runEffect` on its way out.
  `FailureScenario` shows two diagnostics for a rejection two dispatches
  deep.
- The builder of factory effects is `promise`.

## Model

| member | source | states |
|---|---|---|
| `Values.CompactKeepsTruthy` | modules/install.js:52 | `filter(a => a)` keeps exactly the truthy entries and never lengthens the list |
| `Values.CompactAppend` | modules/install.js:52 | filtering distributes over concatenation |
| `Values.MaterializeCases` | modules/install.js:52 | a truthy non-array value becomes a singleton, a falsy one yields nothing, an array is kept with its falsy entries dropped |
| `Values.Concat` | modules/install.js:46-52 | `xs.concat(v)` keeps `xs` as its prefix; a value that is not an array is appended as one element, and an array's elements are appended in order |
| `Values.JoinTypes` | modules/install.js:59-61 | `originalActions.map((action) => action.type).join(' > ')`: the types in order with the separator between them (`JoinTypesSnoc`, `ChainTypesJoined`) |
| `Values.TypeName` | modules/install.js:59 | the text `action.type` contributes: the action type of an object, the empty string where there is none |
| `Values.JoinTypesSnoc` | modules/install.js:59-61 | extending a chain by one action extends its joined text by `' > '` and that action's type |
| `Values.Materialize` | modules/install.js:52 | the actions a resolved value yields are exactly its truthy entries: the value itself, or the elements of an array |
| `Values.Flatten` | modules/effects.js:33 | the `flatten` of a batch's values holds exactly the non-array values and the elements of the array values |
| `Values.MaterializeFlatten` | modules/effects.js:33 | the actions of a one-level flattening are, in order, the actions each flattened value yields on its own |
| `Effects.IsEffect` | modules/effects.js:46-48 | true exactly for objects built by an effect builder, so false for every falsy argument |
| `Effects.None` | modules/effects.js:54-59 | tag NONE, accepted by `isEffect` |
| `Effects.Promise` | modules/effects.js:66-73 | tag PROMISE, keeps factory and args, no mapper, accepted by `isEffect` |
| `Effects.Batch` | modules/effects.js:78-84 | tag BATCH, keeps the children, accepted by `isEffect` |
| `Effects.Constant` | modules/effects.js:89-95 | tag CONSTANT, keeps the action, no mapper, accepted by `isEffect` |
| `Effects.Map` | modules/effects.js:97-117 | never changes the tag; NONE is returned unchanged; a BATCH keeps its child count |
| `Effects.MapEach` | modules/effects.js:104-108 | child i of a mapped batch is child i mapped, same count and order |
| `Effects.MapKeepsFields` | modules/effects.js:99-113 | PROMISE keeps factory and args, CONSTANT keeps its action, and the mapper becomes `mapFn`; BATCH children are mapped in order |
| `Effects.MapLastWins` | modules/effects.js:99-113 | `map(map(e, f), g)` equals `map(e, g)` at every depth: the last mapper wins |
| `Effects.ResolveNone` | modules/effects.js:36-37 | NONE resolves to `undefined`, which yields no action |
| `Effects.ResolveConstant` | modules/effects.js:27-35 | a CONSTANT with no mapper resolves to its action (identity default), a mapped one to `mapFn(action)`, and only the last mapper applies |
| `Effects.ResolvePromise` | modules/effects.js:27-31 | a PROMISE settles as its factory's promise: its value goes through the mapper and a rejection passes through unchanged |
| `Effects.AllSettles` | modules/effects.js:33 | `Promise.all` fulfils iff every child fulfils, with the children's values in order; otherwise it rejects with a child's reason, and every child before that child fulfilled |
| `Effects.BatchYieldsInOrder` | modules/effects.js:32-33 | a BATCH resolves to the one-level flattening of its children's values in declared order; its actions are the children's actions concatenated in order |
| `Effects.BatchRejects` | modules/effects.js:32-33 | a BATCH rejects iff one of its children rejects |
| `Effects.MapDistributesOverBatch` | modules/effects.js:104-108 | resolving a mapped batch is resolving each child mapped on its own: when all fulfil, the batch fulfils with the flattening of their values in declared order; it rejects iff one of the mapped children rejects |
| `Effects.ApplyMapper` | modules/effects.js:27 | `effect.map`, or else `pureMap`: an unset mapper is the identity, a set one is applied (`ResolveConstant`, `ResolvePromise`) |
| `Effects.EffectToPromise` | modules/effects.js:19-39 | the settlement of the promise an effect turns into; an effect that calls no factory never rejects (the cases are the `Resolve*` and `Batch*` lemmas) |
| `Effects.All` | modules/effects.js:33 | `Promise.all` over the children: fulfilled values, one per child; no rejection without a factory call |
| `Effects.RejectionFromFactory` | modules/effects.js:19-39 | every rejection of a resolved effect is the rejection of one of the factory calls it makes, at any depth of batches |
| `Effects.RejectionFromFactoryEach` | modules/effects.js:33 | the same for the children of a batch under `Promise.all` |
| `Install.LiftState` | modules/install.js:18-22 | a looped state passes through unchanged; a bare model is paired with `none()` |
| `Install.LiftStateIdempotent` | modules/install.js:18-22 | lifting twice is lifting once |
| `Install.LiftReducer` | modules/install.js:27-32 | the lifted reducer depends only on `state.model`; a looped result passes through, a bare one gets the NONE effect |
| `Install.Both` | modules/install.js:53 | `Promise.all` over dispatches settles iff all settle; a rejection is one of the parts' rejections |
| `Install.Diagnostic` | modules/install.js:59-63 | the text written to the error sink for a chain: the chain's action types joined by `' > '` between the fixed sentences (`ChainTypesJoined`, `FailureLoggedAndRethrown`) |
| `Install.Dispatched` | modules/install.js:43-47 | the meaning of `dispatch`: reduce the action, then run the new state's effect under the extended chain; its properties are the lemmas `DispatchedExtends`, `DispatchReducesFirst`, `DispatchedChains`, `BareResultSettles`, `ConstantDispatchedOnce` |
| `Install.EffectRan` | modules/install.js:49-66 | the meaning of `runEffect`: resolve, dispatch the yielded actions, then the final action, logging and re-throwing a rejection; its properties are `EffectRanExtends`, `EffectRanChains`, `FinalDispatchedLast`, `FailureLoggedAndRethrown` |
| `Install.AllDispatched` | modules/install.js:52-53 | the meaning of `Promise.all` over the yielded dispatches: every action is dispatched, also after a failure; its properties are `AllDispatchedExtends`, `AllDispatchedChains`, `EachActionDispatched` |
| `Install.DispatchedExtends` | modules/install.js:43-47 | a dispatch only appends to the wrapped store's call trace and to the diagnostics |
| `Install.EffectRanExtends` | modules/install.js:49-66 | running an effect only appends to the call trace and to the diagnostics |
| `Install.AllDispatchedExtends` | modules/install.js:53 | dispatching the yielded actions only appends to the call trace and to the diagnostics |
| `Install.DispatchReducesFirst` | modules/install.js:43-46 | the first thing a dispatch does is reduce its own action with the chain it was given; the effect it runs is the new state's, under the chain extended by the action |
| `Install.DispatchedChains` | modules/install.js:43-46 | with no final action, every call a dispatch causes carries a chain starting with the chain it was given |
| `Install.EffectRanChains` | modules/install.js:49-53 | with no final action, every call made while running an effect carries a chain starting with the effect's chain |
| `Install.AllDispatchedChains` | modules/install.js:53 | every call made for the yielded actions carries a chain starting with their chain |
| `Install.EachActionDispatched` | modules/install.js:52-53 | each yielded action is reduced at its own trace position, in order, with the chain of the effect that yielded it, the first one first; when no action is an empty array, the calls carrying exactly that chain are those actions, in order, so each is dispatched once |
| `Install.DispatchedOnceAtChain` | modules/install.js:43-46 | a dispatch makes exactly one call with its own chain, its own reduction; every call it causes carries a longer chain |
| `Install.AllDispatchedOnceAtChain` | modules/install.js:53 | the calls carrying the yielding chain are exactly the yielded actions, in order: each is dispatched once |
| `Install.BareResultSettles` | modules/install.js:43-53 | when the reducer returns a bare model, with no final action (`null` or `undefined`) the dispatch reduces that one action and settles with no further dispatch and no diagnostic |
| `Install.ConstantDispatchedOnce` | modules/install.js:43-53 | when the new state carries `constant(b)` and there is no final action, the dispatch is: reduce, then dispatch `b` once under the extended chain; a failure there is logged again and passed on |
| `Install.FinalDispatchedLast` | modules/install.js:55-57 | a truthy final action is dispatched after every yielded action settles, after all their calls, with an empty chain, and its failure never reaches the caller; after a failure or a rejection it is not dispatched |
| `Install.FailureLoggedAndRethrown` | modules/install.js:58-65 | a rejection re-throws the same error and the last diagnostic names the chain; a failed yielded dispatch is passed on unchanged |
| `Install.BootstrapNeverReducesInit` | modules/install.js:76 | the install-time run never reduces INIT: every call it makes has INIT at the head of its chain, the first call is the initial effect's first action, and an initial effect with no actions changes nothing |
| `Install.LoopStore.constructor` | modules/install.js:40-76 | the store holds the lifted reducer; its state, trace and diagnostics are those of running the lifted initial state's effect under `[INIT]` |
| `Install.LoopStore.Dispatch` | modules/install.js:43-47 | the new state, trace, diagnostics and outcome are those `Dispatched` gives; the reducer is unchanged |
| `Install.LoopStore.RunEffect` | modules/install.js:49-66 | the new state, trace, diagnostics and outcome are those `EffectRan` gives |
| `Install.LoopStore.DispatchEach` | modules/install.js:52-53 | dispatching the materialised actions in turn agrees with `AllDispatched` |
| `Install.LoopStore.GetState` | modules/install.js:68-70 | returns only the model half of the wrapped store's state |
| `Install.LoopStore.ReplaceReducer` | modules/install.js:72-74 | the wrapped store gets the lifted form of the new reducer; nothing else changes |
| `Scenarios.CounterScenario` | modules/install.js:43-47 | three INCREMENT dispatches with a reducer that emits no effect leave the model at 3 and all settle, and the only calls made are the three reductions, each with an empty chain |
| `Scenarios.FetchScenario` | modules/install.js:43-57 | FETCH's PROMISE yields DONE, which is dispatched under the chain `[FETCH]` before the outer dispatch settles; the trace is exactly those two calls and the model reflects DONE |
| `Scenarios.FailureScenario` | modules/install.js:58-65 | a rejection two dispatches deep reaches the outer caller with the same error and is logged by both enclosing runs, innermost chain first |
| `Scenarios.FailureRun` | modules/install.js:58-65 | the trace, diagnostics and outcome of that failing run |
| `Scenarios.ChainTypesJoined` | modules/install.js:59-61 | the chain's action types are joined by `' > '` |
| `Scenarios.BootstrapScenario` | modules/install.js:76 | an initial `constant(INCREMENT)` is dispatched once by the install-time run under the chain `[INIT]`, and that is the only call, so INIT is not reduced |

## Left out

- Promise scheduling. Yielded actions are dispatched one after the other, depth first. In the source they all start before any of them settles. Only the order of results and the fact that every yielded action is dispatched are modelled. In the source, all sibling actions are reduced before the follow-up actions of any of them. So when a yielded action's effect yields more actions, the model differs in three ways:
  - the order of the calls in the trace;
  - the state a later sibling's reduction sees, so a reducer whose result depends on order can end with a different model;
  - the order of diagnostics: in the source, a parent's diagnostic can be written before that of a sibling that fails later.
- When a run returns. The `LoopStore` constructor and `Dispatch` return after the whole recursive run has settled. In the source, the factories of the effect are called before `dispatch`/`install` return (`effectToPromise` calls them synchronously). Their results, and every yielded action's dispatch, come in later microtasks. So a `getState()` made straight after `install` or `dispatch` in the source sees the state before any yielded action was reduced. The model does not capture that intermediate state (for `BootstrapScenario`, the source would still report 0 there).
- Install.EachActionDispatched: "dispatched once" is stated for yielded actions that are not empty arrays. An empty array action leaves the chain unchanged under `concat`, so the calls it causes carry the same chain, and counting calls by chain cannot tell them apart.
- Effects.All: when several children reject, the source rejects with the first rejection in time. The model takes the first in declared order.
- The unbounded recursion depth. A `fuel` bound stands for it, and `OutOfFuel` marks a run that reached the bound.
- `console.error` is a sink, the `log` sequence of diagnostic strings.
- The development-only `throwInvariant` check in `effectToPromise`. Outside development builds its behaviour is unspecified anyway.
- The `Symbol` effect marker. `isEffect`'s argument is either an effect built by a builder or another value, and another value never carries the marker.
- `./loop`, `./utils` and the store built by `next(...)` are not part of this model. Their assumed shapes:
  - `loop`/`isLoop` are a looped-state datatype.
  - `flatten` is `[].concat(...values)`.
  - The wrapped store is a state field and a reducer field. Its second `dispatch` argument, the chain, is recorded in the trace.
  - Subscribers and notification are not modelled.
- The object-spread assembly of the returned store.
- Calling a factory. An oracle gives how the promise settles for each factory name and argument list, so a factory's result is fixed per arguments.
- A result mapper that throws. Mappers are total functions.
- A factory that throws synchronously. The oracle only answers fulfilled or rejected. In the source, `effect.factory(...)` runs before `.then`/`.catch` are attached. So the throw escapes that `runEffect`, and no diagnostic is written for its chain. Inside a yielded dispatch it also aborts the `.map`, so later sibling actions are not dispatched, and the enclosing `runEffect` logs it under its own chain. A top-level `dispatch`, or `install` itself, throws instead of returning a rejected promise. `AllDispatched` always dispatches every sibling.
- Actions that are thenables.
- A falsy `mapFn` passed to `map`.
- Reducer exceptions, and the wrapped store's own checks on actions.
- Objects are modelled by their `type` and an opaque payload. NaN is not a value.
- An array action spread by `originalActions.concat(action)` may place `null` or `undefined` in a chain. The source's `action.type` would then throw while building the diagnostic. The model renders such entries as the empty string.
- The final action's unawaited promise. Its rejection is dropped, and the resulting unhandled rejection is not modelled.
- `modules/index.js` only re-exports names. `combineReducers` is not part of this model.
