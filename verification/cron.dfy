/** Cron expressions, by the one promise the scheduler relies on. */
module Cron {
  import opened Options
  import opened Schema

  /** The next fire time of an expression in a timezone after a base, or an error. */
  type Clockwork = (string, string, Time) -> Option<Time>

  ghost predicate StrictlyLater(nextFire: Clockwork) {
    forall c, z, t :: nextFire(c, z, t).Some? ==> nextFire(c, z, t).value > t
  }
}
