/** Shared vocabulary: optional values, and the ways a database commit can end. */
module Prelude {

  datatype Option<+T> = None | Some(value: T)

  /**
   * How a commit ends for the process that issued it. `AckLost` and `Dropped` both surface as an
   * exception; only the first one became durable. The issuer cannot tell them apart without reading
   * the database again.
   */
  datatype Commit = Acked | AckLost | Dropped {

    predicate Durable() {
      Acked? || AckLost?
    }
  }
}
