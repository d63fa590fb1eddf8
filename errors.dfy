/** Failure values shared by the view algebra.

    Python signals every failure of `views.py` by raising an exception; here
    each exception class becomes one constructor of `Error`, and every
    operation that may raise returns a `Result`.
 */
module Errors {

  datatype Option<+T> = None | Some(value: T)

  /** The exceptions the view algebra can raise.
      - TypeError: a non-sequence where a sequence is required, a tuple
        subscript, or a subscript that is neither an integer nor a slice;
      - ValueError: a slice whose step is zero (raised by `slice.indices`);
      - IndexError: an integer index outside the view;
      - LengthChangedError: a backing sequence changed length after a view
        over it was built;
      - SyntaxError: a malformed marker in the `seq[...]` literal syntax. */
  datatype Error =
    | TypeError
    | ValueError
    | IndexError
    | LengthChangedError
    | SyntaxError

  datatype Result<+R> = Ok(value: R) | Err(error: Error)
}
