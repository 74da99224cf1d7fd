/** The closed vocabulary of gateway job states and physical outcomes. */
module JobStatus {
  import opened Wrappers
  import opened Markers

  /** Milliseconds of the database clock. */
  type Time = int

  datatype Status = Queued | Claimed | Printing | Success | Failed | Expired

  predicate IsTerminal(s: Status) {
    s == Success || s == Failed || s == Expired
  }

  /** Claimed or printing: some agent may be working on the job. */
  predicate IsLive(s: Status) {
    s == Claimed || s == Printing
  }

  function AllowedTransitions(from: Status): set<Status> {
    match from
    case Queued => {}
    case Claimed => {Printing, Failed, Queued}
    case Printing => {Success, Failed}
    case _ => {}
  }

  predicate CanTransition(from: Status, to: Status, allowLateSuccess: bool) {
    if IsTerminal(from) then
      allowLateSuccess && from == Failed && to == Success
    else
      to in AllowedTransitions(from)
  }

  datatype PhysicalOutcome = NotPrinted | Printed | Unknown

  function DerivePhysicalOutcome(status: Status, error: Option<string>): PhysicalOutcome {
    if status == Success then Printed
    else if error.Some? && HasUnknownOutcomeMarker(error.value) then Unknown
    else NotPrinted
  }

  const LATE_SUCCESS_MAX_AGE_MS: int := 24 * 60 * 60 * 1000
  const EXPIRED_LATE_SUCCESS_GRACE_MS: int := 5 * 60 * 1000
  const PRINTED_POST_EXPIRATION_MARKER := "PRINTED_POST_EXPIRATION"

  /** Only a failure that says "the gateway stopped waiting" may become a success later, and only for a day. */
  predicate IsLateSuccessAllowed(status: Status, error: Option<string>, updatedAt: Time, now: Time) {
    && status == Failed
    && error.Some?
    && (AGENT_EXECUTION_TIMEOUT <= error.value || AGENT_RESTART_DURING_PRINT <= error.value)
    && 0 <= now - updatedAt <= LATE_SUCCESS_MAX_AGE_MS
  }

  predicate IsExpiredLateSuccessAllowed(status: Status, expiresAt: Time, now: Time) {
    status == Expired && 0 <= now - expiresAt <= EXPIRED_LATE_SUCCESS_GRACE_MS
  }

  /** A late success never overrides a failure that proves nothing was printed. */
  lemma LateSuccessOnlyFromUnknown(status: Status, error: Option<string>, updatedAt: Time, now: Time)
    requires IsLateSuccessAllowed(status, error, updatedAt, now)
    ensures DerivePhysicalOutcome(status, error) == Unknown
  {
    if AGENT_EXECUTION_TIMEOUT <= error.value {
      assert OUTCOME_MARKERS[0] <= error.value;
    } else {
      assert OUTCOME_MARKERS[1] <= error.value;
    }
  }
}
