/** Stand-ins for the source's absent values and thrown errors. */
module Wrappers {
  /** Random ids and slugs (tenants, roles, task types, tasks): the code modelled here only ever compares them. */
  type Id = nat

  datatype Option<+T> = None | Some(value: T)

  datatype Result<+T, +E> = Ok(value: T) | Err(error: E)

  /**
   * How an awaited call on a store ends for its caller: heard from, never carried out, or carried out but never heard
   * from.
   */
  datatype Link = Heard | NotDone | AnswerLost
}
