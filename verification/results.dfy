/** Failure values of the level generator. Every `require(...)` of the Kotlin
    generator throws; here each one becomes a `Failure` carrying which check
    failed. */
module Results {

  datatype Error =
    | NoRows          // a piece was built from an empty array of rows
    | RaggedRows      // a piece was built from rows of unequal length
    | EndTooSmall     // the exit segment was asked for with fewer than 3 columns
    | NotEnoughSpace  // fewer than 10 columns are left once the mid pieces are trimmed
    | WidthMismatch   // the placed widths do not add up to the level width

  datatype Result<+T> = Success(value: T) | Failure(error: Error) {

    predicate IsFailure() {
      Failure?
    }

    function PropagateFailure<U>(): Result<U>
      requires Failure?
    {
      Failure(error)
    }

    function Extract(): T
      requires Success?
    {
      value
    }
  }
}
