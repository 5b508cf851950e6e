/** Small value types shared by every module of the model. */
module Values {

  /** Kotlin's nullable values. */
  datatype Option<T> = None | Some(value: T)

  /** A computation that either yields a value or fails the way Kotlin's `error(...)` does. */
  datatype Result<T> = Ok(value: T) | Err(message: string)

  /** A statement that either completes or fails with `error(...)`. */
  datatype Outcome = Pass | Fail(message: string)

  /**
   * A Kotlin `Float` as far as this model needs one: a real number or NaN.
   * Rounding and the infinities are not modelled.
   */
  datatype Float = NaN | Num(value: real)

  /** IEEE equality: NaN is equal to nothing, not even to itself. */
  predicate FloatEquals(a: Float, b: Float) {
    a.Num? && b.Num? && a.value == b.value
  }

  function Min(a: real, b: real): real {
    if a <= b then a else b
  }

  function Max(a: real, b: real): real {
    if a <= b then b else a
  }

  /** `Math.round` (and so Kotlin's `roundToInt`/`roundToLong`): round half up. */
  function RoundHalfUp(x: real): int {
    (x + 0.5).Floor
  }
}
