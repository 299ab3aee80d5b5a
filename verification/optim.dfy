/** Optimizer parameter groups and the learning rates written into them. */
module Optim {
  import opened Base

  /** A learning rate as the schedules produce it. Cosine annealing and the geometric
      sweep of `lr_find` involve transcendental functions, so they are kept symbolic:
      `Annealed(etaMin, initial, phase)` stands for
      `etaMin + (initial - etaMin) * (1 + cos(phase * pi)) / 2`, and
      `Geometric(base, ratio, exponent)` for `base * ratio ** exponent`. */
  datatype LearningRate =
    | Fixed(value: real)
    | Annealed(etaMin: real, initial: real, phase: real)
    | Geometric(base: real, ratio: real, exponent: real)

  /** One entry of `optimizer.param_groups`: its current `lr` and the `initial_lr` the
      scheduler recorded. */
  datatype Group = Group(lr: LearningRate, initialLr: real)

  /** Any stand-in for `t => cos(t * pi)` that keeps cosine's range. */
  ghost predicate CosineRange(cosPi: real -> real) {
    forall t :: -1.0 <= cosPi(t) <= 1.0
  }

  /** A stand-in that also agrees with cosine at the two ends of a half period. */
  ghost predicate CosineEnds(cosPi: real -> real) {
    CosineRange(cosPi) && cosPi(0.0) == 1.0 && cosPi(1.0) == -1.0
  }

  /** The value an `Annealed` rate denotes under a given cosine. */
  function AnnealedValue(etaMin: real, initial: real, phase: real, cosPi: real -> real): real {
    etaMin + (initial - etaMin) * (1.0 + cosPi(phase)) / 2.0
  }

  /** Whatever the cosine, an annealed rate stays between `eta_min` and the initial rate. */
  lemma AnnealedBetween(etaMin: real, initial: real, phase: real, cosPi: real -> real)
    requires CosineRange(cosPi)
    requires etaMin <= initial
    ensures etaMin <= AnnealedValue(etaMin, initial, phase, cosPi) <= initial
  {
    var c := cosPi(phase);
    assert -1.0 <= c <= 1.0;
    var f := (1.0 + c) / 2.0;
    assert 0.0 <= f <= 1.0;
    ProductNonNegative(initial - etaMin, f);
    assert (initial - etaMin) * f <= initial - etaMin by {
      assert (initial - etaMin) - (initial - etaMin) * f == (initial - etaMin) * (1.0 - f);
      ProductNonNegative(initial - etaMin, 1.0 - f);
    }
    assert AnnealedValue(etaMin, initial, phase, cosPi) == etaMin + (initial - etaMin) * f;
  }

  /** At phase 0 the annealed rate is the initial rate; at phase 1 it is `eta_min`. */
  lemma AnnealedEnds(etaMin: real, initial: real, cosPi: real -> real)
    requires CosineEnds(cosPi)
    ensures AnnealedValue(etaMin, initial, 0.0, cosPi) == initial
    ensures AnnealedValue(etaMin, initial, 1.0, cosPi) == etaMin
  {
  }
}
