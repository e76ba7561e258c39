/** The duration estimator seen from outside: a value built from a sample
    array and a fitting mode, evaluated through an oracle. */
module Estimation {

  /** How an estimator is asked to fit its samples: forced to a single
      exponential (the two-argument constructor with `true`), or left to its
      default gamma-mixture fit (the one-argument constructor). */
  datatype FitMode = ForcedExponential | Mixture

  /** A fitted duration model, identified by what it was built from. */
  datatype Estimator = Estimator(samples: seq<real>, mode: FitMode)

  /** A Java double as far as the scorer inspects it. */
  datatype Double = Finite(value: real) | PositiveInfinity | NegativeInfinity | NaN

  predicate IsFinite(d: Double) {
    d.Finite?
  }
}
