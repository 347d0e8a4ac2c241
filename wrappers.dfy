/** Failure-carrying values shared by the other modules. The source writes its results as
    `{ Ok: ... }` / `{ Err: ... }` objects; here they are a tagged sum. */
module Wrappers {

  datatype Option<+T> = None | Some(value: T)

  datatype Result<+T, +E> = Ok(value: T) | Err(error: E)

  /** An awaited remote call: the promise rejected, or it resolved to a value. */
  datatype Call<+T> = Rejected | Resolved(value: T)
}
