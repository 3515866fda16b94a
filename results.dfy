/** Failure-carrying results shared by the builder model. */
module Results {

  datatype Option<+T> = None | Some(value: T)

  /** Why a call on the builder produced no value. */
  datatype Error =
      /**
       * A validation error the builder throws itself. Mostly this happens before anything reaches the
       * channel; in `getPaginated`, `offset` and `limit` can throw after the count statement was sent.
       */
    | Invalid(message: string)
      /** An error reported by the execution channel, forwarded unchanged. */
    | Execution(message: string)
      /** A run-time type error while shaping a reply (reading a row that is not there). */
    | Fault(message: string)

  datatype Outcome<+T> = Ok(value: T) | Err(error: Error)
}
