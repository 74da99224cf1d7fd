/**
  Creating a print job: one transaction that looks for an earlier create under the same
  idempotency key, enforces the tenant's plan, the agent's backlog and the key's rate, and
  inserts the row.  A refused transaction leaves no trace.
 */
module Admission {
  import opened Wrappers
  import opened JobStatus
  import opened JobRows
  import opened JobRuns
  import opened PrintJobs
  import opened JsText
  import opened JsonObjects
  import opened Fingerprint
  import opened RateWindows

  const MAX_AGENT_QUEUED_JOBS: int := 1000
  const MAX_TENANT_LENGTH: int := 128

  /** A row with the columns that the creating request leaves in it. */
  datatype Stored = Stored(job: Job, key: Option<string>, idem: Option<Text>, ask: Ask, createdAt: Time)

  type Jobs = map<JobId, Stored>

  /** `lower` is the runtime's toLowerCase. */
  datatype Store = Store(jobs: Jobs, limits: map<string, Limits>, lower: Text -> Text)

  /** `kept` is the payload as the jsonb column gives it back: the same value, its keys in any order. */
  datatype Create = Create(
    id: JobId,
    tenant: string,
    agent: string,
    key: Option<string>,
    idem: Option<Text>,
    ask: Ask,
    kept: Json,
    expiresAt: Time)

  /** The plan of the tenant; None where the plan sets no limit. */
  datatype Plan = Plan(perMinute: Option<nat>, concurrent: Option<nat>)

  datatype Refusal =
    | BadTenant | IdempotencyConflict | JobsPerMinute | ConcurrentJobs
    | AgentQueueFull | AgentInFlightFull | RateLimited(retryAfter: int) | UniqueViolation

  datatype Outcome = Created(id: JobId) | Reused(id: JobId, status: Status) | Refused(why: Refusal)

  predicate KeyGiven(c: Create) { c.key.Some? && c.key.value != "" }
  predicate IdemGiven(c: Create) { c.idem.Some? && c.idem.value != [] }

  // ------------------------------------------------------------ the questions the transaction asks

  predicate MatchesKey(s: Stored, c: Create) {
    && s.job.row.tenant == c.tenant && s.idem == c.idem
    && s.key == if KeyGiven(c) then c.key else None
  }

  function Earlier(jobs: Jobs, c: Create): set<JobId> { set id | id in jobs && MatchesKey(jobs[id], c) }

  /** Whose rows are counted. */
  datatype Scope = OfTenant(tenant: string) | OfAgent(tenant: string, agent: string)

  predicate Within(r: Row, s: Scope) {
    match s
    case OfTenant(t) => r.tenant == t
    case OfAgent(t, a) => r.tenant == t && r.agent == a
  }

  predicate Open(r: Row, now: Time) { !IsTerminal(r.status) && now < r.expiresAt }

  /** Jobs neither finished nor past their time. */
  function Backlog(jobs: Jobs, s: Scope, now: Time): set<JobId> {
    set id | id in jobs && Within(jobs[id].job.row, s) && Open(jobs[id].job.row, now)
  }

  function QueuedOf(jobs: Jobs, s: Scope, now: Time): set<JobId> {
    set id | id in jobs && Within(jobs[id].job.row, s) && jobs[id].job.row.status == Queued
        && now < jobs[id].job.row.expiresAt
  }

  function InFlightOf(jobs: Jobs, s: Scope, now: Time): set<JobId> {
    set id | id in jobs && Within(jobs[id].job.row, s) && IsLive(jobs[id].job.row.status)
        && now < jobs[id].job.row.expiresAt
  }

  function RecentOf(jobs: Jobs, tenant: string, now: Time): set<JobId> {
    set id | id in jobs && jobs[id].job.row.tenant == tenant && now - 60 * 1000 <= jobs[id].createdAt
  }

  predicate Reaches(n: nat, limit: Option<nat>) { limit.Some? && n >= limit.value }

  predicate ClashesWith(s: Stored, c: Create) {
    c.idem.Some? && s.idem == c.idem && s.key == c.key
  }

  /** The two unique indexes on idempotency keys and the primary key. */
  predicate Clashes(jobs: Jobs, c: Create) {
    c.id in jobs || exists id :: id in jobs && ClashesWith(jobs[id], c)
  }

  function LimitsOf(limits: map<string, Limits>, c: Create): Option<Limits> {
    if KeyGiven(c) && c.key.value in limits then Some(limits[c.key.value]) else None
  }

  function RateFor(limits: map<string, Limits>, c: Create, now: Time): Result<Limits, int> {
    TakeRate(LimitsOf(limits, c), now)
  }

  // ------------------------------------------------------------ the transaction

  /** What stops a create that no earlier row answers, in the order of the checks. */
  function Obstacle(s: Store, c: Create, plan: Plan, now: Time): Option<Refusal> {
    if Reaches(|RecentOf(s.jobs, c.tenant, now)|, plan.perMinute) then Some(JobsPerMinute)
    else if Reaches(|Backlog(s.jobs, OfTenant(c.tenant), now)|, plan.concurrent) then Some(ConcurrentJobs)
    else if |QueuedOf(s.jobs, OfAgent(c.tenant, c.agent), now)| >= MAX_AGENT_QUEUED_JOBS then Some(AgentQueueFull)
    else if |InFlightOf(s.jobs, OfAgent(c.tenant, c.agent), now)| >= MAX_AGENT_IN_FLIGHT_JOBS then
      Some(AgentInFlightFull)
    else if KeyGiven(c) && RateFor(s.limits, c, now).Err? then Some(RateLimited(RateFor(s.limits, c, now).error))
    else if Clashes(s.jobs, c) then Some(UniqueViolation)
    else None
  }

  function NewJob(c: Create, now: Time): Stored {
    Stored(Fresh(NewRow(c.tenant, c.agent, c.ask.printer, now, c.expiresAt)), c.key, c.idem,
           c.ask.(payload := c.kept), now)
  }

  function Inserted(s: Store, c: Create, now: Time): Store {
    s.(jobs := s.jobs[c.id := NewJob(c, now)],
       limits := if KeyGiven(c) && RateFor(s.limits, c, now).Ok?
                 then s.limits[c.key.value := RateFor(s.limits, c, now).value]
                 else s.limits)
  }

  /** What an earlier row under the same key answers. */
  function Answer(lower: Text -> Text, id: JobId, row: Stored, c: Create): Outcome {
    if IdempotencyFingerprint(lower, row.ask) == IdempotencyFingerprint(lower, c.ask) then
      Reused(id, row.job.row.status)
    else Refused(IdempotencyConflict)
  }

  predicate TenantOk(t: string) { t != "" && |t| <= MAX_TENANT_LENGTH }

  /** The outcome and the store after it; `hit` is the row LIMIT 1 returns, if any matches. */
  function Admit(s: Store, c: Create, plan: Plan, now: Time, hit: Option<JobId>): (Store, Outcome) {
    if !TenantOk(c.tenant) then (s, Refused(BadTenant))
    else if hit.Some? && hit.value in s.jobs then (s, Answer(s.lower, hit.value, s.jobs[hit.value], c))
    else if Obstacle(s, c, plan, now).Some? then (s, Refused(Obstacle(s, c, plan, now).value))
    else (Inserted(s, c, now), Created(c.id))
  }

  predicate ValidHit(jobs: Jobs, c: Create, hit: Option<JobId>) {
    if hit.Some? then IdemGiven(c) && hit.value in Earlier(jobs, c)
    else !IdemGiven(c) || Earlier(jobs, c) == {}
  }

  class PrintJobService {
    var jobs: Jobs
    var limits: map<string, Limits>
    const lower: Text -> Text

    function Abs(): Store
      reads this
    {
      Store(jobs, limits, lower)
    }

    constructor (lower: Text -> Text)
      ensures Abs() == Store(map[], map[], lower)
    {
      jobs, limits, this.lower := map[], map[], lower;
    }

    method InsertQueuedJobAtomically(c: Create, plan: Plan, now: Time) returns (o: Outcome, ghost hit: Option<JobId>)
      modifies this
      ensures ValidHit(old(jobs), c, hit) || !TenantOk(c.tenant)
      ensures (Abs(), o) == Admit(old(Abs()), c, plan, now, hit)
    {
      hit := None;
      if !TenantOk(c.tenant) {
        return Refused(BadTenant), None;
      }
      if IdemGiven(c) && Earlier(jobs, c) != {} {
        var id :| id in Earlier(jobs, c);
        return Answer(lower, id, jobs[id], c), Some(id);
      }
      var refusal := Check(c, plan, now);
      if refusal.Some? {
        return Refused(refusal.value), None;
      }
      Insert(c, now);
      return Created(c.id), None;
    }

    method Check(c: Create, plan: Plan, now: Time) returns (refusal: Option<Refusal>)
      ensures refusal == Obstacle(Abs(), c, plan, now)
    {
      if Reaches(|RecentOf(jobs, c.tenant, now)|, plan.perMinute) {
        return Some(JobsPerMinute);
      }
      if Reaches(|Backlog(jobs, OfTenant(c.tenant), now)|, plan.concurrent) {
        return Some(ConcurrentJobs);
      }
      if |QueuedOf(jobs, OfAgent(c.tenant, c.agent), now)| >= MAX_AGENT_QUEUED_JOBS {
        return Some(AgentQueueFull);
      }
      if |InFlightOf(jobs, OfAgent(c.tenant, c.agent), now)| >= MAX_AGENT_IN_FLIGHT_JOBS {
        return Some(AgentInFlightFull);
      }
      if KeyGiven(c) {
        var rate := RateFor(limits, c, now);
        if rate.Err? {
          return Some(RateLimited(rate.error));
        }
      }
      if Clashes(jobs, c) {
        return Some(UniqueViolation);
      }
      return None;
    }

    method Insert(c: Create, now: Time)
      requires KeyGiven(c) ==> RateFor(limits, c, now).Ok?
      modifies this
      ensures Abs() == Inserted(old(Abs()), c, now)
    {
      if KeyGiven(c) {
        limits := limits[c.key.value := RateFor(limits, c, now).value];
      }
      jobs := jobs[c.id := NewJob(c, now)];
    }
  }
}
