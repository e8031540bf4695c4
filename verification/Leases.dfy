/** A lease as the workers pass it around, and how long it may stand still. */
module Leases {
  import opened Options
  import opened Words

  datatype LeaseState = LeaseState(
    key: string, owner: Option<string>, token: Option<string>, lastIncrement: Option<nat>, counter: Option<nat>,
    checkpoint: Option<string>, subCheckpoint: Option<string>, switches: Option<nat>, parents: set<string>)

  /** 365 days in nanoseconds. */
  const MAX_LEASE_AGE: nat := 365 * 24 * 60 * 60 * 1_000_000_000

  /** `isExpired`: the age is an unsigned difference. */
  predicate IsExpired(l: LeaseState, duration: nat, asOf: nat) {
    match l.lastIncrement
    case None => true
    case Some(at) =>
      var age := Wrap(asOf - at);
      age > MAX_LEASE_AGE || age > duration
  }

  /** `copySharedWithIncrementedCounter`; the counter does not wrap around. */
  function WithIncrementedCounter(l: LeaseState): LeaseState {
    l.(counter := Some(match l.counter case None => 1 case Some(c) => c + 1))
  }
}
