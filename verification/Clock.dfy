/** Instants and time differences, in seconds. */
module Clock {
  /** Time differences saturate at zero, as those of `Instant` do. */
  function Elapsed(since: real, now: real): real {
    if since <= now then now - since else 0.0
  }
}
