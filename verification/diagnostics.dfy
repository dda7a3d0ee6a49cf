/** Limits shared by the statistical diagnostics. */
module Diagnostics {
  const MAX_DIAGNOSTIC_CASES := 10_000

  predicate Probability(p: real) {
    0.0 <= p <= 1.0
  }
}
