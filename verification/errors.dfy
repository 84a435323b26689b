/**
 The error values the post layer returns, and the result type every
 operation of the model uses in place of Rust's `Result<_, MyError>`.
 */
module Errors {

  /** The code the post layer attaches to a refused request: liking twice,
      withdrawing a reaction that is not there, or deleting a post that the
      relational delete did not return (not found or not owned). */
  const RejectCode: int := 201

  /** The errors the modelled operations can produce. All but `CacheError`
      are variants of the source's `MyError`; `CacheError` stands for
      whatever error a failed Redis `exec` call returns, which reaches the
      caller through a `From` conversion defined outside the post layer. */
  datatype MyError =
    | Code(code: int)          // `MyError::code(n)`, a client-visible refusal
    | PoisonError              // the id generator's lock was poisoned
    | PGError                  // statement preparation or query failure in the relational store
    | NotFound                 // a query that should return a row returned none
    | CacheError               // the Redis `exec` call failed
    | InternalServerError      // the notice insert returned no row

  datatype Option<T> = None | Some(value: T)

  datatype Result<T> = Ok(value: T) | Err(error: MyError)
}
