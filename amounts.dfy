/** Money as the application handles it.  JavaScript numbers are only added,
    subtracted and compared here, so amounts are exact reals.  `parseFloat`
    is left abstract: every operation that parses receives the parser as a
    value, and `None` stands for NaN. */
module Amounts {
  import opened Wrappers

  type Amount = real

  /** The behaviour of `parseFloat` on a string, with NaN as `None`. */
  type Parser = seq<char> -> Option<Amount>

  /** JavaScript's `amount > 0`, which is false for NaN. */
  predicate IsPositive(parsed: Option<Amount>) {
    parsed.Some? && parsed.value > 0.0
  }
}
