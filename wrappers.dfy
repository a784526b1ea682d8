/** Optional values and error-carrying results, used for every nullable field,
    every repository lookup and every operation that can throw. */
module Wrappers {

  datatype Option<+T> = None | Some(value: T) {
    function GetOr(default: T): T {
      match this
      case Some(v) => v
      case None => default
    }
  }

  datatype Result<+T, +E> = Ok(value: T) | Err(error: E)

  /** The outcome of an operation that returns nothing (a Java `void` method that may throw). */
  datatype Outcome<+E> = Pass | Fail(error: E)

  /** Some element of a non-empty set: the order in which a repository's
      findAll returns rows is not part of the model. */
  method Pick<T>(s: set<T>) returns (x: T)
    requires s != {}
    ensures x in s
  {
    x :| x in s;
  }

  lemma AppendThree<T>(s: seq<T>, a: seq<T>, b: seq<T>, c: seq<T>)
    ensures s + a + b + c == s + (a + b + c)
  {
  }

  /** A prefix grown by one element, as loops over a sequence need it. */
  lemma TakeOneMore<T>(s: seq<T>, i: nat)
    requires i < |s|
    ensures s[..i + 1] == s[..i] + [s[i]]
    ensures (s[..i] + [s[i]])[..i] == s[..i]
  {
  }
}

/** Identifiers and the clock. Customers, providers and admins are all rows of
    the one `users` table, so they share the integer id space of User.id. */
module Ids {
  type UserId = int
  type CustomerId = UserId
  type ProviderId = UserId
  type ServiceId = int
  type BookingId = int
  type ReviewId = int
  /** A reading of LocalDateTime.now(), in seconds; each request reads the clock once. */
  type Instant = int
}
