/** The ways a benchmark run can end early, and the result wrappers that carry
    them. Every error aborts the run; none is recovered. */
module Outcomes {

  datatype Option<T> = None | Some(value: T)

  datatype Result<T> = Success(value: T) | Failure(error: Error)

  datatype Error =
    /** `ValueError` raised by the command-line entry when the query heads are
        not a multiple of the key/value heads. */
    | HeadsValueError
    /** `AssertionError` from the same test repeated inside `main`. */
    | HeadsAssertionError
    /** `ZeroDivisionError` from `%` or `//` with a zero right operand. */
    | ZeroDivision
    /** `ValueError` from `max` of the empty list of sequence lengths. */
    | EmptyBatch
    /** A sequence length that does not fit the int32 `seq_lens` tensor. */
    | Int32Overflow
    /** torch refusing a scratch buffer with a negative dimension. */
    | NegativeDimension
    /** `ValueError` for a kernel version other than "v1" or "v2". */
    | InvalidVersion(version: string)
}
