/** Result and trace types shared by both clients. */
module Outcomes {

  /** An optional value; in the clients `None` stands for JavaScript's `undefined`. */
  datatype Option<+T> = None | Some(value: T)

  /** The value an operation resolves to, or the error it throws. */
  datatype Result<+T, +E> = Ok(value: T) | Err(error: E)

  /** The outcome of one client operation together with the upstream requests it
      issued, in the order it issued them. */
  datatype Traced<+T, +E, +C> = Traced(result: Result<T, E>, calls: seq<C>)
}
