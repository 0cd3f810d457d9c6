/** Failure-compatible wrappers used for the `Option` and `Result` values of the
    grid entities: `:-` plays the role of Rust's `?` operator. */
module Wrappers {

  datatype Option<+T> = None | Some(value: T)

  datatype Result<+R, +E> = Success(value: R) | Failure(error: E) {

    predicate IsFailure() {
      Failure?
    }

    function PropagateFailure<U>(): Result<U, E>
      requires Failure?
    {
      Failure(error)
    }

    function Extract(): R
      requires Success?
    {
      value
    }

    /** Replaces whatever error this result carries by `e`, keeping a success
        as it is (Rust's `map_err(|_| e)`). */
    function WithError<NewE>(e: NewE): (r: Result<R, NewE>)
      ensures r.Success? <==> Success?
      ensures Success? ==> r.value == value
      ensures Failure? ==> r.error == e
    {
      match this
      case Success(v) => Success(v)
      case Failure(_) => Failure(e)
    }
  }
}

/** The fixed-width integers of the source, as subsets of `int`. */
module Ints {

  newtype u8 = x: int | 0 <= x < 0x100

  newtype i32 = x: int | -0x8000_0000 <= x < 0x8000_0000

  newtype i64 = x: int | -0x8000_0000_0000_0000 <= x < 0x8000_0000_0000_0000
}
