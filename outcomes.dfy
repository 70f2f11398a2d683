/** The ways the bar-chart pipeline can fail, and the result type that carries them. */
module Outcomes {

  /**
   * One constructor per exception `bars` can raise while computing what it
   * draws. Reordering, the length check, broadcasting and `data.max()` fail
   * before any drawing; the multicolor loop, `min(offsets)`, the bar-text
   * loop (reading past the data, or the unbound `y_offset`) and the
   * autoscaling `max(data)` fail after the figure exists.
   */
  datatype BarsError =
    | IndexOutOfRange   // IndexError: an index past the end of an array, or an empty float index array
    | LabelMismatch     // ValueError: labels and data differ in length
    | ShapeMismatch     // ValueError: scale_by cannot be broadcast against data
    | EmptySequence     // ValueError: max() or min() of an empty sequence
    | UnboundYOffset    // UnboundLocalError: y_offset read although scale_by was None

  datatype Option<+T> = None | Some(value: T)

  /** Success or the error that stopped the pipeline; usable with `:-`. */
  datatype Result<+T> = Success(value: T) | Failure(error: BarsError) {
    predicate IsFailure() {
      Failure?
    }

    function PropagateFailure<U>(): Result<U>
      requires Failure?
    {
      Failure(error)
    }

    function Extract(): T
      requires Success?
    {
      value
    }
  }
}
