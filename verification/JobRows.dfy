/**
  One row of the gateway's print_jobs table and every statement that can change it.
  Each statement is a guard (its WHERE clause) and an effect (its SET clause); a row the
  guard refuses is left as it is.
 */
module JobRows {
  import opened Wrappers
  import opened Markers
  import opened JobStatus
  import opened JsText

  const STALE_CLAIM_MS: int := 90 * 1000
  const STALE_PRINTING_MS: int := 10 * 60 * 1000
  const MAX_RETRIES: int := 5
  const MAX_DELIVERY_ATTEMPTS: int := 5
  const MAX_AGENT_IN_FLIGHT_JOBS: int := 500
  const MAX_ERROR_LENGTH: int := 2000

  type Token = string

  datatype Row = Row(
    tenant: string,
    agent: string,
    printer: Text,
    status: Status,
    token: Option<Token>,
    deliveredAt: Option<Time>,
    ackedAt: Option<Time>,
    updatedAt: Time,
    expiresAt: Time,
    attempts: nat,
    retries: nat,
    error: Option<string>
  ) {
    predicate Live() { IsLive(status) }

    /** The gateway knows that the current claim reached the agent. */
    predicate Evidenced() { deliveredAt.Some? || ackedAt.Some? }

    /** This row is currently held under claim t. */
    predicate HeldUnder(t: Token) { Live() && token == Some(t) }

    function Outcome(): PhysicalOutcome { DerivePhysicalOutcome(status, error) }
  }

  /** A row as insertQueuedJobAtomically writes it. */
  function NewRow(tenant: string, agent: string, printer: Text, now: Time, expiresAt: Time): Row {
    Row(tenant, agent, printer, Queued, None, None, None, now, expiresAt, 0, 0, None)
  }

  function Coalesce(a: Option<Time>, now: Time): Option<Time> {
    if a.Some? then a else Some(now)
  }

  // ------------------------------------------------------------ claims

  predicate ClaimMatches(r: Row, now: Time) {
    r.status == Queued && now < r.expiresAt && r.attempts < MAX_DELIVERY_ATTEMPTS && r.retries < MAX_RETRIES
  }

  /** claimJobForDelivery, past the ceiling and the online checks. */
  function Claim(r: Row, now: Time, minted: Token): Row {
    if ClaimMatches(r, now) then
      r.(status := Claimed, updatedAt := now, token := Some(minted), deliveredAt := None, ackedAt := None,
         attempts := r.attempts + 1)
    else r
  }

  predicate StaleClaimMatches(r: Row, now: Time) {
    && now < r.expiresAt && r.status == Claimed && !r.Evidenced()
    && r.updatedAt < now - STALE_CLAIM_MS
    && r.retries < MAX_RETRIES && r.attempts < MAX_DELIVERY_ATTEMPTS
  }

  /** The poll route claims queued rows and re-claims stale, never delivered claims in one statement. */
  function PollClaim(r: Row, now: Time, minted: Token): Row {
    if ClaimMatches(r, now) || StaleClaimMatches(r, now) then
      r.(status := Claimed, updatedAt := now, token := Some(minted), ackedAt := None,
         attempts := r.attempts + 1,
         retries := if r.status == Claimed then r.retries + 1 else r.retries)
    else r
  }

  // ------------------------------------------------------------ fencing

  /** `claim_token IS NOT DISTINCT FROM t` together with id, agent and observed status. */
  predicate FencedJobWrite(r: Row, agent: string, expected: Status, t: Option<Token>) {
    r.agent == agent && r.status == expected && r.token == t
  }

  /** A missing or empty token matches only rows without a token. */
  predicate FencedDeliveryWrite(r: Row, agent: string, t: Option<Token>) {
    && r.agent == agent && r.Live()
    && (if t.Some? && t.value != "" then r.token == t else r.token == None)
  }

  function MarkDelivered(r: Row, agent: string, t: Option<Token>, now: Time): Row {
    if FencedDeliveryWrite(r, agent, t) then r.(deliveredAt := Some(now), updatedAt := now) else r
  }

  function RecordAck(r: Row, agent: string, t: Option<Token>, now: Time): Row {
    if FencedDeliveryWrite(r, agent, t) then
      r.(ackedAt := Coalesce(r.ackedAt, now), deliveredAt := Coalesce(r.deliveredAt, now), updatedAt := now)
    else r
  }

  /** The heartbeat's keep-alive: refreshes the lease of the claim it names, and of no other. */
  function KeepAlive(r: Row, agent: string, t: Option<Token>, now: Time): Row {
    if r.agent == agent && r.Live() && r.token == t then r.(updatedAt := now) else r
  }

  // ------------------------------------------------------------ release

  predicate UndeliveredClaim(r: Row, agent: string, t: Option<Token>) {
    r.agent == agent && r.status == Claimed && r.token == t && !r.Evidenced()
  }

  predicate ReleaseRequeueMatches(r: Row, agent: string, t: Option<Token>) {
    UndeliveredClaim(r, agent, t) && r.attempts < MAX_DELIVERY_ATTEMPTS
  }

  function ReleaseRequeue(r: Row, agent: string, t: Option<Token>, reason: string, now: Time): Row {
    if ReleaseRequeueMatches(r, agent, t) then
      r.(status := Queued, token := None, updatedAt := now, error := Some(reason))
    else r
  }

  predicate ReleaseFailMatches(r: Row, agent: string, t: Option<Token>) {
    UndeliveredClaim(r, agent, t) && r.attempts >= MAX_DELIVERY_ATTEMPTS
  }

  function ReleaseFail(r: Row, agent: string, t: Option<Token>, reason: string, now: Time): Row {
    if ReleaseFailMatches(r, agent, t) then
      r.(status := Failed, updatedAt := now, error := Some(reason + " (giving up)"))
    else r
  }

  // ------------------------------------------------------------ sweep

  // The readable tails of the fixed messages are abbreviated; their prefixes are what counts.
  const EXPIRED_TEXT := ": expired"
  const SILENT_TEXT := ": silent"
  const TIMEOUT_TEXT := ": lease"
  const EXHAUSTED_TEXT := "exceeded max retries"

  predicate ExpireMatches(r: Row, now: Time) { !IsTerminal(r.status) && r.expiresAt <= now }

  function SweepExpire(r: Row, now: Time): Row {
    if ExpireMatches(r, now) then
      r.(status := Expired, updatedAt := now,
         error := if r.status == Printing then Some(JOB_EXPIRED_DURING_PRINT + EXPIRED_TEXT)
                  else if r.status == Claimed && r.Evidenced() then Some(UNKNOWN_PARTIAL_DELIVERY + EXPIRED_TEXT)
                  else None)
    else r
  }

  predicate RequeueMatches(r: Row, now: Time) {
    && r.status == Claimed && !r.Evidenced() && r.updatedAt < now - STALE_CLAIM_MS
    && r.retries < MAX_RETRIES && now < r.expiresAt
  }

  function SweepRequeue(r: Row, now: Time): Row {
    if RequeueMatches(r, now) then
      r.(status := Queued, token := None, deliveredAt := None, ackedAt := None, retries := r.retries + 1,
         updatedAt := now)
    else r
  }

  predicate SilentMatches(r: Row, now: Time) {
    r.status == Claimed && r.Evidenced() && r.updatedAt < now - STALE_CLAIM_MS
  }

  function SweepSilent(r: Row, now: Time): Row {
    if SilentMatches(r, now) then
      r.(status := Failed, error := Some(UNKNOWN_PARTIAL_DELIVERY + SILENT_TEXT), updatedAt := now)
    else r
  }

  predicate StalePrintingMatches(r: Row, now: Time) {
    r.status == Printing && r.updatedAt < now - STALE_PRINTING_MS
  }

  function SweepPrinting(r: Row, now: Time): Row {
    if StalePrintingMatches(r, now) then
      r.(status := Failed, updatedAt := now,
         error := Some(if r.expiresAt <= now then JOB_EXPIRED_DURING_PRINT + EXPIRED_TEXT
                       else AGENT_EXECUTION_TIMEOUT + TIMEOUT_TEXT))
    else r
  }

  predicate ExhaustedMatches(r: Row, now: Time) {
    && r.status == Claimed && !r.Evidenced() && r.updatedAt < now - STALE_CLAIM_MS
    && r.retries >= MAX_RETRIES
  }

  function SweepExhausted(r: Row, now: Time): Row {
    if ExhaustedMatches(r, now) then r.(status := Failed, error := Some(EXHAUSTED_TEXT), updatedAt := now) else r
  }

  // ------------------------------------------------------------ status reports (PATCH)

  datatype RequeueReason = PendingFull | AgentShuttingDown | LedgerUnavailable | OtherReason

  datatype Report = Report(status: Status, token: Option<Token>, error: Option<string>, reason: RequeueReason)

  /** The write a report turns into once the row has been read; it lands later, if the fence still matches. */
  datatype Plan =
    | PlanExpire(token: Option<Token>, observed: Status, error: Option<string>)
    | PlanReject(token: Option<Token>, why: RequeueReason)
    | PlanPostExpiry(token: Option<Token>, note: string)
    | PlanMove(token: Option<Token>, observed: Status, to: Status, error: Option<string>)

  function Truncated(s: string): string {
    if |s| > MAX_ERROR_LENGTH then s[..MAX_ERROR_LENGTH] else s
  }

  function ReportedError(rep: Report): Option<string> {
    if rep.error.Some? && rep.error.value != "" then Some(Truncated(rep.error.value)) else None
  }

  /** The read half of a report: what it will try to write, or nothing when it is refused. */
  function Decide(r: Row, agent: string, rep: Report, now: Time): Option<Plan> {
    if r.agent != agent then None
    else if rep.status != Expired && r.token.Some? && r.token != rep.token then None
    else if rep.status == Expired then
      Some(PlanExpire(rep.token, r.status,
        if r.status == Printing then Some(JOB_EXPIRED_DURING_PRINT + EXPIRED_TEXT)
        else if r.status == Claimed && r.Evidenced() then
          Some(UNKNOWN_PARTIAL_DELIVERY + EXPIRED_TEXT)
        else None))
    else if rep.status == Queued && r.status == Claimed then
      if rep.reason == OtherReason then None else Some(PlanReject(rep.token, rep.reason))
    else if r.status == Failed && rep.status == Success
            && !IsLateSuccessAllowed(r.status, r.error, r.updatedAt, now) then None
    else if r.status == Expired && rep.status == Success then
      if IsExpiredLateSuccessAllowed(r.status, r.expiresAt, now) then
        Some(PlanPostExpiry(rep.token, Truncated(PRINTED_POST_EXPIRATION_MARKER
          + ": late"
          + (if ReportedError(rep).Some? then " (" + ReportedError(rep).value + ")" else ""))))
      else None
    else
      var late := r.status == Failed && rep.status == Success;
      if CanTransition(r.status, rep.status, late) then
        Some(PlanMove(rep.token, r.status, rep.status,
          if late then Some("LATE_SUCCESS: " + (if r.error.Some? then r.error.value else AGENT_EXECUTION_TIMEOUT))
          else ReportedError(rep)))
      else None
  }

  predicate PlanMatches(r: Row, agent: string, p: Plan, now: Time) {
    match p
    case PlanExpire(t, observed, _) => FencedJobWrite(r, agent, observed, t) && r.expiresAt <= now
    case PlanReject(t, _) => FencedJobWrite(r, agent, Claimed, t)
    case PlanPostExpiry(t, _) => FencedJobWrite(r, agent, Expired, t)
    case PlanMove(t, observed, _, _) => FencedJobWrite(r, agent, observed, t)
  }

  function ReasonText(why: RequeueReason): string {
    match why
    case PendingFull => "pending_full"
    case AgentShuttingDown => "agent_shutting_down"
    case LedgerUnavailable => "ledger_unavailable"
    case OtherReason => ""
  }

  /** The write half of a report: one fenced UPDATE. */
  function ApplyPlan(r: Row, agent: string, p: Plan, now: Time): Row {
    if !PlanMatches(r, agent, p, now) then r
    else
      match p
      case PlanExpire(_, _, e) =>
        r.(status := Expired, error := e, updatedAt := now,
           deliveredAt := if r.Live() then Coalesce(r.deliveredAt, now) else r.deliveredAt)
      case PlanReject(_, why) =>
        r.(status := Queued, token := None, deliveredAt := None, ackedAt := None, updatedAt := now,
           error := Some("returned (" + ReasonText(why) + ")"),
           attempts := if r.attempts == 0 then 0 else r.attempts - 1,
           retries := r.retries + 1)
      case PlanPostExpiry(_, e) =>
        r.(status := Success, error := Some(e), updatedAt := now, deliveredAt := Coalesce(r.deliveredAt, now))
      case PlanMove(_, _, to, e) =>
        r.(status := to, error := e, updatedAt := now, deliveredAt := Coalesce(r.deliveredAt, now))
  }
}
