module Floats {
  /** Conversion of a float to an integer drops the fraction. */
  function Truncate(x: real): int { if x >= 0.0 then x.Floor else -(-x).Floor }
}
