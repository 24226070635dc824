/** Values shared by the connection pool's model and its class. */
module PoolTypes {

  datatype Option<T> = None | Some(value: T)

  /** A connection as the pool sees it: which open produced it (the value of
      the `created` counter at that moment), the server it talks to, and how
      many operations have gone through it (`op_count`). */
  datatype Conn = Conn(id: nat, server: string, opCount: nat)

  /** The three counters returned by `stats()`. */
  datatype Counters = Counters(created: nat, failed: nat, recycled: nat)

  /** What invoking an operation on the client can do: return a reply, or
      raise one of the three exceptions the retry loop catches, or raise
      anything else. */
  datatype Outcome =
    | Success(reply: string)
    | TimedOut     // cassandra_TimedOutException
    | Unavailable  // cassandra_UnavailableException
    | Transport    // TTransportException
    | Other        // any other exception

  /** The three exception kinds the retry loop recovers from. */
  predicate IsRetryable(o: Outcome) {
    o.TimedOut? || o.Unavailable? || o.Transport?
  }

  /** What a pool operation can end with instead of a value. */
  datatype PoolError =
    | NoServerAvailable                  // every server was tried twice
    | MaxRetriesExceeded(last: Outcome)  // every try failed retryably
    | Raised(kind: Outcome)              // a non-retryable failure, passed through
    | PoolExhausted                      // a checkout found the queue empty

  datatype Result<T> = Ok(value: T) | Err(error: PoolError)
}
