/** The election's constants, in seconds. */
module ElectionTimes {
  const LEASE_DURATION := 30
  const RENEW_INTERVAL := 10
  const OBSERVE_INTERVAL := 5
  const MAX_DELAY := 15
  /** delete_self sleeps this long after asking for its own deletion. */
  const DELETE_PAUSE := 60
}
