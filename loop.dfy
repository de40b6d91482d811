/** Looped states: a model paired with its pending effect, built by
    `loop(model, effect)` and recognised by `isLoop`. The module that defines
    them (./loop) is not part of this model; this is the shape the installer
    relies on. */
module Loop {
  import opened Effects

  /** `loop(model, effect)`: a model with its pending effect. */
  datatype LoopState<M> = LoopState(model: M, effect: Effect)

  /** What a reducer returns, or an initial state: a bare model, or a
      looped state. */
  datatype Reduced<M> = Bare(value: M) | Looped(state: LoopState<M>)

  /** `isLoop(state)`. */
  predicate IsLoop<M>(s: Reduced<M>)
  {
    s.Looped?
  }
}
