/**
 * The arithmetic between the three displayed fields and the remaining total:
 * `startTimer` composes, `updateTimeFromTotal` decomposes.
 */
module Clock {

  const SECONDS_PER_HOUR: nat := 3600
  const SECONDS_PER_MINUTE: nat := 60

  /** Largest value of each field the editor lets through. */
  const MAX_HOURS: nat := 99
  const MAX_MINUTES: nat := 59
  const MAX_SECONDS: nat := 59

  /** The longest countdown the editor can set up: 99:59:59. */
  const MAX_TOTAL: nat := MAX_HOURS * SECONDS_PER_HOUR + MAX_MINUTES * SECONDS_PER_MINUTE + MAX_SECONDS

  datatype Hms = Hms(hours: nat, minutes: nat, seconds: nat)

  /** `hours * 3600 + minutes * 60 + seconds`; fields in range never exceed 99:59:59. */
  function Compose(hours: nat, minutes: nat, seconds: nat): (total: nat)
    ensures hours <= MAX_HOURS && minutes <= MAX_MINUTES && seconds <= MAX_SECONDS ==> total <= MAX_TOTAL
    ensures total == 0 <==> hours == 0 && minutes == 0 && seconds == 0
  {
    hours * SECONDS_PER_HOUR + minutes * SECONDS_PER_MINUTE + seconds
  }

  /**
   * The integer divisions of `updateTimeFromTotal`. (For a non-negative total,
   * `Math.floor` of the quotient and JavaScript's `%` agree with Dafny's.)
   */
  function Decompose(total: nat): (r: Hms)
    ensures Compose(r.hours, r.minutes, r.seconds) == total
    ensures r.minutes < 60 && r.seconds < 60
    ensures total <= MAX_TOTAL ==> r.hours <= MAX_HOURS
  {
    Hms(total / SECONDS_PER_HOUR, (total % SECONDS_PER_HOUR) / SECONDS_PER_MINUTE, total % SECONDS_PER_MINUTE)
  }

  /** Decomposing a composed total gives back fields that were already normalised. */
  lemma DecomposeCompose(hours: nat, minutes: nat, seconds: nat)
    requires minutes < 60 && seconds < 60
    ensures Decompose(Compose(hours, minutes, seconds)) == Hms(hours, minutes, seconds)
  {
  }
}
