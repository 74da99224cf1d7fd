/**
  Admission over whole runs of the table: creates interleaved with every statement that can
  change a row.  The backlog bounds, and what repeating a create answers.
 */
module AdmissionRuns {
  import opened Wrappers
  import opened JobStatus
  import opened JobRows
  import opened JobRuns
  import opened PrintJobs
  import opened JsText
  import opened JsonObjects
  import opened Canonical
  import opened Fingerprint
  import opened RateWindows
  import opened Admission

  datatype Act = DoCreate(c: Create, plan: Admission.Plan, now: Time, hit: Option<JobId>) | DoStep(id: JobId, e: Event)

  function Act1(s: Store, a: Act): Store {
    match a
    case DoCreate(c, plan, now, hit) => Admit(s, c, plan, now, hit).0
    case DoStep(id, e) =>
      if id in s.jobs then s.(jobs := s.jobs[id := s.jobs[id].(job := Step(s.jobs[id].job, e))]) else s
  }

  /** The payload is a JavaScript value and jsonb keeps it; the earlier row is one the query can return. */
  predicate FairCreate(s: Store, c: Create, hit: Option<JobId>) {
    Proper(c.ask.payload) && Proper(c.kept) && Same(c.ask.payload, c.kept) && ValidHit(s.jobs, c, hit)
  }

  /** A run the clock allows: creates read it in order. */
  predicate Fair(s: Store, acts: seq<Act>, clock: Time)
    decreases |acts|
  {
    acts == [] ||
    (&& (acts[0].DoCreate? ==> clock <= acts[0].now && FairCreate(s, acts[0].c, acts[0].hit))
     && Fair(Act1(s, acts[0]), acts[1..], ClockAfter(acts[0], clock)))
  }

  function ClockAfter(a: Act, clock: Time): Time { if a.DoCreate? then a.now else clock }

  function AfterActs(s: Store, acts: seq<Act>): Store
    decreases |acts|
  {
    if acts == [] then s else AfterActs(Act1(s, acts[0]), acts[1..])
  }

  function LastClock(acts: seq<Act>, clock: Time): Time
    decreases |acts|
  {
    if acts == [] then clock else LastClock(acts[1..], ClockAfter(acts[0], clock))
  }

  // ------------------------------------------------------------ rows in the table

  predicate RowOk(s: Stored) { Inv(s.job) && Proper(s.ask.payload) }

  predicate SameSlot(s: Stored, t: Stored) { s.idem.Some? && s.idem == t.idem && s.key == t.key }

  predicate NoTwins(jobs: Jobs) {
    forall a, b :: a in jobs && b in jobs && a != b ==> !SameSlot(jobs[a], jobs[b])
  }

  ghost predicate TableOk(jobs: Jobs) { (forall id :: id in jobs ==> RowOk(jobs[id])) && NoTwins(jobs) }

  lemma NewRowOk(c: Create, now: Time)
    requires Proper(c.kept)
    ensures RowOk(NewJob(c, now))
  {}

  lemma CreateKeepsTable(s: Store, c: Create, plan: Admission.Plan, now: Time, hit: Option<JobId>)
    requires TableOk(s.jobs) && FairCreate(s, c, hit)
    ensures TableOk(Admit(s, c, plan, now, hit).0.jobs)
  {
    NewRowOk(c, now);
    if Obstacle(s, c, plan, now) == None {
      InsertKeepsTable(s.jobs, c, now);
    }
  }

  lemma InsertKeepsTable(jobs: Jobs, c: Create, now: Time)
    requires TableOk(jobs) && RowOk(NewJob(c, now)) && !Clashes(jobs, c)
    ensures TableOk(jobs[c.id := NewJob(c, now)])
  {
    forall id | id in jobs
      ensures !SameSlot(jobs[id], NewJob(c, now)) && !SameSlot(NewJob(c, now), jobs[id])
    {
      assert !ClashesWith(jobs[id], c);
    }
  }

  lemma ActKeepsTable(s: Store, a: Act)
    requires TableOk(s.jobs) && (a.DoCreate? ==> FairCreate(s, a.c, a.hit))
    ensures TableOk(Act1(s, a).jobs)
  {
    match a
    case DoCreate(c, plan, now, hit) => CreateKeepsTable(s, c, plan, now, hit);
    case DoStep(id, e) => if id in s.jobs { StepKeepsInv(s.jobs[id].job, e); }
  }

  // ------------------------------------------------------------ backlog

  /** No statement moves a row to another tenant, agent or deadline. */
  lemma RowStaysPut(j: Job, e: Event)
    ensures Step(j, e).row.tenant == j.row.tenant && Step(j, e).row.agent == j.row.agent
            && Step(j, e).row.expiresAt == j.row.expiresAt
  {}

  /** No statement opens a row that is closed. */
  lemma ClosedStaysClosed(j: Job, e: Event, now: Time)
    requires Inv(j) && Open(Step(j, e).row, now)
    ensures Open(j.row, now)
  {
    RowStaysPut(j, e);
    if IsTerminal(j.row.status) {
      TerminalSteps(j, e);
    }
  }

  lemma SubsetSize<T>(a: set<T>, b: set<T>)
    requires a <= b
    ensures |a| <= |b|
  {
    assert b == a + (b - a);
  }

  lemma StepKeepsBacklog(s: Store, id: JobId, e: Event, scope: Scope, now: Time)
    requires TableOk(s.jobs)
    ensures |Backlog(Act1(s, DoStep(id, e)).jobs, scope, now)| <= |Backlog(s.jobs, scope, now)|
  {
    if id in s.jobs {
      RowStaysPut(s.jobs[id].job, e);
      if Open(Step(s.jobs[id].job, e).row, now) { ClosedStaysClosed(s.jobs[id].job, e, now); }
      RowKeepsBacklog(s.jobs, id, Step(s.jobs[id].job, e), scope, now);
    }
  }

  lemma RowKeepsBacklog(jobs: Jobs, id: JobId, to: Job, scope: Scope, now: Time)
    requires id in jobs && (Open(to.row, now) ==> Open(jobs[id].job.row, now))
    requires to.row.tenant == jobs[id].job.row.tenant && to.row.agent == jobs[id].job.row.agent
    ensures |Backlog(jobs[id := jobs[id].(job := to)], scope, now)| <= |Backlog(jobs, scope, now)|
  {
    SubsetSize(Backlog(jobs[id := jobs[id].(job := to)], scope, now), Backlog(jobs, scope, now));
  }

  lemma BacklogShrinks(jobs: Jobs, scope: Scope, earlier: Time, later: Time)
    requires earlier <= later
    ensures |Backlog(jobs, scope, later)| <= |Backlog(jobs, scope, earlier)|
  {
    SubsetSize(Backlog(jobs, scope, later), Backlog(jobs, scope, earlier));
  }

  lemma BacklogParts(jobs: Jobs, scope: Scope, now: Time)
    ensures |Backlog(jobs, scope, now)| == |QueuedOf(jobs, scope, now)| + |InFlightOf(jobs, scope, now)|
  {
    assert Backlog(jobs, scope, now) == QueuedOf(jobs, scope, now) + InFlightOf(jobs, scope, now);
    assert QueuedOf(jobs, scope, now) !! InFlightOf(jobs, scope, now);
  }

  lemma InsertGrowsByOne(s: Store, c: Create, now: Time, scope: Scope, at: Time)
    requires c.id !in s.jobs
    ensures |Backlog(Inserted(s, c, now).jobs, scope, at)| <= |Backlog(s.jobs, scope, at)| + 1
    ensures !Within(NewJob(c, now).job.row, scope) ==>
            |Backlog(Inserted(s, c, now).jobs, scope, at)| <= |Backlog(s.jobs, scope, at)|
  {
    var was, after := Backlog(s.jobs, scope, at), Backlog(Inserted(s, c, now).jobs, scope, at);
    if Within(NewJob(c, now).job.row, scope) {
      SubsetSize(after, was + {c.id});
    } else {
      SubsetSize(after, was);
    }
  }

  const MAX_BACKLOG: int := 1499

  /** What the transaction enforces for the scope at the moment of the create. */
  predicate Enforces(scope: Scope, bound: int, c: Create, plan: Admission.Plan) {
    match scope
    case OfAgent(_, _) => bound == MAX_BACKLOG
    case OfTenant(t) => t == c.tenant ==> plan.concurrent.Some? && plan.concurrent.value <= bound
  }

  lemma CreateKeepsBacklog(
      s: Store, c: Create, plan: Admission.Plan, now: Time, hit: Option<JobId>, scope: Scope, bound: int)
    requires |Backlog(s.jobs, scope, now)| <= bound && Enforces(scope, bound, c, plan)
    ensures |Backlog(Admit(s, c, plan, now, hit).0.jobs, scope, now)| <= bound
  {
    if Admit(s, c, plan, now, hit).1.Created? {
      InsertGrowsByOne(s, c, now, scope, now);
      BacklogParts(s.jobs, scope, now);
    }
  }

  predicate AllEnforce(acts: seq<Act>, scope: Scope, bound: int) {
    forall k :: 0 <= k < |acts| && acts[k].DoCreate? ==> Enforces(scope, bound, acts[k].c, acts[k].plan)
  }

  /**
    Backlog bound.  Over every run of creates and row statements, the open jobs of one agent
    never exceed 1499, and the open jobs of a tenant never exceed a plan limit that stays in force.
   */
  lemma {:induction false} BacklogIsBounded(s: Store, acts: seq<Act>, clock: Time, scope: Scope, bound: int)
    requires TableOk(s.jobs) && Fair(s, acts, clock) && AllEnforce(acts, scope, bound)
    requires |Backlog(s.jobs, scope, clock)| <= bound
    ensures |Backlog(AfterActs(s, acts).jobs, scope, LastClock(acts, clock))| <= bound
    decreases |acts|
  {
    if acts != [] {
      ActKeepsTable(s, acts[0]);
      OneActKeepsBacklog(s, acts[0], clock, scope, bound);
      assert forall k :: 0 <= k < |acts[1..]| ==> acts[1..][k] == acts[k + 1];
      BacklogIsBounded(Act1(s, acts[0]), acts[1..], ClockAfter(acts[0], clock), scope, bound);
    }
  }

  lemma OneActKeepsBacklog(s: Store, a: Act, clock: Time, scope: Scope, bound: int)
    requires TableOk(s.jobs) && |Backlog(s.jobs, scope, clock)| <= bound
    requires a.DoCreate? ==> clock <= a.now && Enforces(scope, bound, a.c, a.plan)
    ensures |Backlog(Act1(s, a).jobs, scope, ClockAfter(a, clock))| <= bound
  {
    match a
    case DoCreate(c, plan, now, hit) =>
      BacklogShrinks(s.jobs, scope, clock, now);
      CreateKeepsBacklog(s, c, plan, now, hit, scope, bound);
    case DoStep(id, e) => StepKeepsBacklog(s, id, e, scope, clock);
  }

  // ------------------------------------------------------------ the queue limit

  /**
    The limit on queued jobs binds creates only: taking back a stale, undelivered claim adds a
    queued job whatever their number is.
   */
  lemma RequeueIgnoresTheQueueLimit(s: Store, id: JobId, at: Time, scope: Scope)
    requires id in s.jobs && Within(s.jobs[id].job.row, scope) && RequeueMatches(s.jobs[id].job.row, at)
    ensures |QueuedOf(Act1(s, DoStep(id, EvRequeue(at))).jobs, scope, at)| == |QueuedOf(s.jobs, scope, at)| + 1
  {
    QueuedGains(s.jobs, id, Step(s.jobs[id].job, EvRequeue(at)), scope, at);
  }

  /** The statement takes a claim back into the queue: the sweep's, a release, or an agent's rejection. */
  predicate TakesBack(j: Job, e: Event) {
    match e
    case EvRequeue(at) => RequeueMatches(j.row, at)
    case EvReleaseRequeue(agent, token, _, _) => ReleaseRequeueMatches(j.row, agent, token)
    case EvReportWrite(agent, plan, at) =>
      (agent, plan) in j.plans && plan.PlanReject? && PlanMatches(j.row, agent, plan, at)
    case _ => false
  }

  /** A row comes into the queue exactly by being taken back. */
  lemma QueuesExactly(j: Job, e: Event)
    requires Inv(j) && j.row.status != Queued
    ensures Step(j, e).row.status == Queued <==> TakesBack(j, e)
  {}

  /** The act takes back an unexpired claim of the scope. */
  predicate RefillsQueue(s: Store, a: Act, scope: Scope, now: Time) {
    && a.DoStep? && a.id in s.jobs && Within(s.jobs[a.id].job.row, scope) && now < s.jobs[a.id].job.row.expiresAt
    && TakesBack(s.jobs[a.id].job, a.e)
  }

  /**
    An act passes the limit if and only if the queue is full and the act takes a claim back; so no
    create ever does.
   */
  lemma LimitIsPassedExactly(s: Store, a: Act, tenant: string, agent: string, now: Time)
    requires TableOk(s.jobs) && |QueuedOf(s.jobs, OfAgent(tenant, agent), now)| <= MAX_AGENT_QUEUED_JOBS
    requires a.DoCreate? ==> a.now == now
    ensures |QueuedOf(Act1(s, a).jobs, OfAgent(tenant, agent), now)| > MAX_AGENT_QUEUED_JOBS
            <==> |QueuedOf(s.jobs, OfAgent(tenant, agent), now)| == MAX_AGENT_QUEUED_JOBS
                 && RefillsQueue(s, a, OfAgent(tenant, agent), now)
  {
    match a
    case DoCreate(c, plan, _, hit) => CreateKeepsLimit(s, c, plan, now, hit, OfAgent(tenant, agent));
    case DoStep(id, e) => if id in s.jobs { StepFillsQueue(s.jobs, id, e, OfAgent(tenant, agent), now); }
  }

  lemma CreateKeepsLimit(s: Store, c: Create, plan: Admission.Plan, now: Time, hit: Option<JobId>, scope: Scope)
    requires scope.OfAgent? && |QueuedOf(s.jobs, scope, now)| <= MAX_AGENT_QUEUED_JOBS
    ensures |QueuedOf(Admit(s, c, plan, now, hit).0.jobs, scope, now)| <= MAX_AGENT_QUEUED_JOBS
  {
    if Admit(s, c, plan, now, hit).1.Created? {
      InsertAddsOne(s, c, now, scope);
    }
  }

  lemma InsertAddsOne(s: Store, c: Create, now: Time, scope: Scope)
    ensures |QueuedOf(Inserted(s, c, now).jobs, scope, now)| <= |QueuedOf(s.jobs, scope, now)| + 1
    ensures !Within(NewJob(c, now).job.row, scope) ==>
              |QueuedOf(Inserted(s, c, now).jobs, scope, now)| <= |QueuedOf(s.jobs, scope, now)|
  {
    if Within(NewJob(c, now).job.row, scope) {
      SubsetSize(QueuedOf(Inserted(s, c, now).jobs, scope, now), QueuedOf(s.jobs, scope, now) + {c.id});
    } else {
      SubsetSize(QueuedOf(Inserted(s, c, now).jobs, scope, now), QueuedOf(s.jobs, scope, now));
    }
  }

  /** One statement adds a queued job exactly when it takes one back, and else adds none. */
  lemma StepFillsQueue(jobs: Jobs, id: JobId, e: Event, scope: Scope, now: Time)
    requires id in jobs && Inv(jobs[id].job)
    ensures if jobs[id].job.row.status != Queued && TakesBack(jobs[id].job, e)
                 && Within(jobs[id].job.row, scope) && now < jobs[id].job.row.expiresAt
            then |QueuedOf(jobs[id := jobs[id].(job := Step(jobs[id].job, e))], scope, now)|
                 == |QueuedOf(jobs, scope, now)| + 1
            else |QueuedOf(jobs[id := jobs[id].(job := Step(jobs[id].job, e))], scope, now)|
                 <= |QueuedOf(jobs, scope, now)|
    ensures TakesBack(jobs[id].job, e) ==> jobs[id].job.row.status != Queued
  {
    RowStaysPut(jobs[id].job, e);
    if jobs[id].job.row.status != Queued {
      QueuesExactly(jobs[id].job, e);
    }
    if jobs[id].job.row.status != Queued && TakesBack(jobs[id].job, e)
       && Within(jobs[id].job.row, scope) && now < jobs[id].job.row.expiresAt {
      QueuedGains(jobs, id, Step(jobs[id].job, e), scope, now);
    } else {
      QueuedKeeps(jobs, id, Step(jobs[id].job, e), scope, now);
    }
  }

  lemma QueuedKeeps(jobs: Jobs, id: JobId, to: Job, scope: Scope, now: Time)
    requires id in jobs && to.row.tenant == jobs[id].job.row.tenant && to.row.agent == jobs[id].job.row.agent
    requires to.row.expiresAt == jobs[id].job.row.expiresAt
    requires Within(to.row, scope) && now < to.row.expiresAt && to.row.status == Queued ==>
             jobs[id].job.row.status == Queued
    ensures |QueuedOf(jobs[id := jobs[id].(job := to)], scope, now)| <= |QueuedOf(jobs, scope, now)|
  {
    SubsetSize(QueuedOf(jobs[id := jobs[id].(job := to)], scope, now), QueuedOf(jobs, scope, now));
  }

  lemma QueueShrinks(jobs: Jobs, scope: Scope, earlier: Time, later: Time)
    requires earlier <= later
    ensures |QueuedOf(jobs, scope, later)| <= |QueuedOf(jobs, scope, earlier)|
  {
    SubsetSize(QueuedOf(jobs, scope, later), QueuedOf(jobs, scope, earlier));
  }

  /** No act of the run takes a claim back while the agent's queue is full. */
  predicate NeverOverfills(s: Store, acts: seq<Act>, clock: Time, scope: Scope)
    decreases |acts|
  {
    acts == [] ||
    (&& !(|QueuedOf(s.jobs, scope, ClockAfter(acts[0], clock))| == MAX_AGENT_QUEUED_JOBS
          && RefillsQueue(s, acts[0], scope, ClockAfter(acts[0], clock)))
     && NeverOverfills(Act1(s, acts[0]), acts[1..], ClockAfter(acts[0], clock), scope))
  }

  /** The agent's queue is within the limit after every act of the run. */
  predicate AlwaysWithin(s: Store, acts: seq<Act>, clock: Time, scope: Scope)
    decreases |acts|
  {
    acts == [] ||
    (&& |QueuedOf(Act1(s, acts[0]).jobs, scope, ClockAfter(acts[0], clock))| <= MAX_AGENT_QUEUED_JOBS
     && AlwaysWithin(Act1(s, acts[0]), acts[1..], ClockAfter(acts[0], clock), scope))
  }

  /**
    Over a run, the queue of an agent stays within its limit if and only if no claim is taken back
    while it is full.
   */
  lemma {:induction false} QueueStaysWithinExactly(s: Store, acts: seq<Act>, clock: Time, tenant: string, agent: string)
    requires TableOk(s.jobs) && Fair(s, acts, clock)
    requires |QueuedOf(s.jobs, OfAgent(tenant, agent), clock)| <= MAX_AGENT_QUEUED_JOBS
    ensures AlwaysWithin(s, acts, clock, OfAgent(tenant, agent))
            <==> NeverOverfills(s, acts, clock, OfAgent(tenant, agent))
    decreases |acts|
  {
    if acts != [] {
      QueueShrinks(s.jobs, OfAgent(tenant, agent), clock, ClockAfter(acts[0], clock));
      LimitIsPassedExactly(s, acts[0], tenant, agent, ClockAfter(acts[0], clock));
      ActKeepsTable(s, acts[0]);
      if |QueuedOf(Act1(s, acts[0]).jobs, OfAgent(tenant, agent), ClockAfter(acts[0], clock))|
        <= MAX_AGENT_QUEUED_JOBS {
        QueueStaysWithinExactly(Act1(s, acts[0]), acts[1..], ClockAfter(acts[0], clock), tenant, agent);
      }
    }
  }

  lemma QueuedGains(jobs: Jobs, id: JobId, to: Job, scope: Scope, at: Time)
    requires id in jobs && jobs[id].job.row.status != Queued && to.row.status == Queued && at < to.row.expiresAt
    requires Within(to.row, scope)
    ensures |QueuedOf(jobs[id := jobs[id].(job := to)], scope, at)| == |QueuedOf(jobs, scope, at)| + 1
  {
    assert QueuedOf(jobs[id := jobs[id].(job := to)], scope, at) == QueuedOf(jobs, scope, at) + {id};
  }

  // ------------------------------------------------------------ repeating a create

  /** A row keeps what its create put there. */
  predicate SameOrigin(s: Stored, t: Stored) {
    s.key == t.key && s.idem == t.idem && s.ask == t.ask && s.job.row.tenant == t.job.row.tenant
  }

  lemma ActKeepsOrigin(s: Store, a: Act, id: JobId)
    requires id in s.jobs
    ensures id in Act1(s, a).jobs && SameOrigin(Act1(s, a).jobs[id], s.jobs[id])
  {
    match a
    case DoCreate(c, plan, now, hit) => assert Obstacle(s, c, plan, now) == None ==> c.id !in s.jobs;
    case DoStep(k, e) => if k in s.jobs { RowStaysPut(s.jobs[k].job, e); }
  }

  lemma {:induction false} RunKeepsOrigin(s: Store, acts: seq<Act>, id: JobId)
    requires id in s.jobs
    ensures id in AfterActs(s, acts).jobs && SameOrigin(AfterActs(s, acts).jobs[id], s.jobs[id])
    decreases |acts|
  {
    if acts != [] {
      ActKeepsOrigin(s, acts[0], id);
      RunKeepsOrigin(Act1(s, acts[0]), acts[1..], id);
    }
  }

  lemma {:induction false} RunKeepsTable(s: Store, acts: seq<Act>, clock: Time)
    requires TableOk(s.jobs) && Fair(s, acts, clock)
    ensures TableOk(AfterActs(s, acts).jobs)
    decreases |acts|
  {
    if acts != [] {
      ActKeepsTable(s, acts[0]);
      RunKeepsTable(Act1(s, acts[0]), acts[1..], ClockAfter(acts[0], clock));
    }
  }

  lemma {:induction false} RunKeepsLower(s: Store, acts: seq<Act>)
    ensures AfterActs(s, acts).lower == s.lower
    decreases |acts|
  {
    if acts != [] {
      RunKeepsLower(Act1(s, acts[0]), acts[1..]);
    }
  }

  /** Two creates of one tenant under one idempotency key of one API key. */
  predicate SameKey(c: Create, d: Create) {
    && IdemGiven(c) && d.idem == c.idem && d.tenant == c.tenant && d.key == c.key && (c.key.Some? ==> KeyGiven(c))
  }

  lemma SameIsTransitive(a: Json, b: Json, c: Json)
    requires Proper(a) && Proper(b) && Proper(c) && Same(b, a)
    ensures Same(a, c) <==> Same(b, c)
  {
    CanonDecidesSame(b, a);
    CanonDecidesSame(a, c);
    CanonDecidesSame(b, c);
  }

  lemma KeptAskIsSame(lower: Text -> Text, c: Create, d: Ask)
    requires Proper(c.ask.payload) && Proper(c.kept) && Same(c.ask.payload, c.kept) && Proper(d.payload)
    ensures SameAsk(lower, c.ask.(payload := c.kept), d) <==> SameAsk(lower, c.ask, d)
  {
    SameIsTransitive(c.kept, c.ask.payload, d.payload);
  }

  /** The rows under one key are one row. */
  lemma OnlyOneEarlier(jobs: Jobs, c: Create, d: Create, id: JobId)
    requires NoTwins(jobs) && SameKey(c, d)
    requires id in jobs && jobs[id].key == c.key && jobs[id].idem == c.idem && jobs[id].job.row.tenant == c.tenant
    ensures Earlier(jobs, d) == {id}
  {
    assert MatchesKey(jobs[id], d);
    forall k | k in Earlier(jobs, d)
      ensures k == id
    {
      assert SameSlot(jobs[k], jobs[id]);
    }
  }

  /**
    Once a create has made a row, every later create under the same key answers with that very
    row if it is the same request, and with a conflict if it is not, and changes nothing;
    whatever happened to the row and the table in between.
   */
  lemma RepeatIsReusedOrConflicts(
      s: Store, c: Create, plan: Admission.Plan, now: Time, acts: seq<Act>,
      d: Create, plan2: Admission.Plan, later: Time, hit: Option<JobId>)
    requires TableOk(s.jobs) && FairCreate(s, c, None) && Admit(s, c, plan, now, None).1 == Created(c.id)
    requires Fair(Admit(s, c, plan, now, None).0, acts, now)
    requires SameKey(c, d) && FairCreate(AfterActs(Admit(s, c, plan, now, None).0, acts), d, hit)
    ensures Admit(AfterActs(Admit(s, c, plan, now, None).0, acts), d, plan2, later, hit).0
            == AfterActs(Admit(s, c, plan, now, None).0, acts)
    ensures SameAsk(s.lower, c.ask, d.ask) ==>
              (&& Admit(AfterActs(Admit(s, c, plan, now, None).0, acts), d, plan2, later, hit).1.Reused?
               && Admit(AfterActs(Admit(s, c, plan, now, None).0, acts), d, plan2, later, hit).1.id == c.id)
    ensures !SameAsk(s.lower, c.ask, d.ask) ==>
              Admit(AfterActs(Admit(s, c, plan, now, None).0, acts), d, plan2, later, hit).1
                  == Refused(IdempotencyConflict)
  {
    var s1 := Admit(s, c, plan, now, None).0;
    CreateKeepsTable(s, c, plan, now, None);
    RunKeepsTable(s1, acts, now);
    RunKeepsOrigin(s1, acts, c.id);
    RunKeepsLower(s1, acts);
    AnswerOfRow(AfterActs(s1, acts), c, d, plan2, later, hit);
  }

  lemma AnswerOfRow(s: Store, c: Create, d: Create, plan: Admission.Plan, later: Time, hit: Option<JobId>)
    requires TableOk(s.jobs) && c.id in s.jobs && SameOrigin(s.jobs[c.id], NewJob(c, 0))
    requires SameKey(c, d) && TenantOk(c.tenant) && FairCreate(s, d, hit)
    requires Proper(c.ask.payload) && Proper(c.kept) && Same(c.ask.payload, c.kept)
    ensures Admit(s, d, plan, later, hit)
            == (s,
                if SameAsk(s.lower, c.ask, d.ask) then Reused(c.id, s.jobs[c.id].job.row.status)
                else Refused(IdempotencyConflict))
  {
    OnlyOneEarlier(s.jobs, c, d, c.id);
    assert hit == Some(c.id);
    FingerprintMeaning(s.lower, s.jobs[c.id].ask, d.ask);
    KeptAskIsSame(s.lower, c, d.ask);
  }

  function EmptyStore(lower: Text -> Text): Store { Store(map[], map[], lower) }

  /** At most one row per key, in every run. */
  lemma AtMostOneRowPerKey(lower: Text -> Text, acts: seq<Act>, clock: Time, a: JobId, b: JobId)
    requires Fair(EmptyStore(lower), acts, clock)
    requires a in AfterActs(EmptyStore(lower), acts).jobs && b in AfterActs(EmptyStore(lower), acts).jobs
    requires SameSlot(AfterActs(EmptyStore(lower), acts).jobs[a], AfterActs(EmptyStore(lower), acts).jobs[b])
    ensures a == b
  {
    RunKeepsTable(EmptyStore(lower), acts, clock);
  }

  /**
    Keys of internal creates are looked up per tenant but unique across tenants: another
    tenant's create under the same key is neither reused nor a conflict, whatever else stops it.
   */
  lemma InternalKeyIsNotReused(s: Store, d: Create, plan: Admission.Plan, now: Time, id: JobId)
    requires id in s.jobs && s.jobs[id].key == None && d.key == None && IdemGiven(d) && s.jobs[id].idem == d.idem
    requires Earlier(s.jobs, d) == {} && TenantOk(d.tenant)
    ensures Admit(s, d, plan, now, None).1.Refused? && Admit(s, d, plan, now, None).0 == s
    ensures Admit(s, d, plan, now, None).1.why != IdempotencyConflict
  {
    assert ClashesWith(s.jobs[id], d);
  }

  /** A row that another tenant's internal create made under the same key. */
  predicate ForeignKey(t: Stored, d: Create) { t.key == None && t.idem == d.idem && t.job.row.tenant != d.tenant }

  /** The tenant's plan and the agent's load let the create through. */
  predicate LoadAllows(s: Store, d: Create, plan: Admission.Plan, now: Time) {
    && !Reaches(|RecentOf(s.jobs, d.tenant, now)|, plan.perMinute)
    && !Reaches(|Backlog(s.jobs, OfTenant(d.tenant), now)|, plan.concurrent)
    && |QueuedOf(s.jobs, OfAgent(d.tenant, d.agent), now)| < MAX_AGENT_QUEUED_JOBS
    && |InFlightOf(s.jobs, OfAgent(d.tenant, d.agent), now)| < MAX_AGENT_IN_FLIGHT_JOBS
  }

  /**
    An internal create that is new to its tenant and that nothing else stops fails on the
    unique index if and only if another tenant has used the key, and makes its row otherwise.
   */
  lemma InternalKeysClashAcrossTenants(s: Store, d: Create, plan: Admission.Plan, now: Time)
    requires d.key == None && IdemGiven(d) && TenantOk(d.tenant) && d.id !in s.jobs
    requires Earlier(s.jobs, d) == {} && LoadAllows(s, d, plan, now)
    ensures Admit(s, d, plan, now, None)
            == if exists id :: id in s.jobs && ForeignKey(s.jobs[id], d) then (s, Refused(UniqueViolation))
               else (Inserted(s, d, now), Created(d.id))
  {
    forall id | id in s.jobs
      ensures ClashesWith(s.jobs[id], d) <==> ForeignKey(s.jobs[id], d)
    {
      assert id !in Earlier(s.jobs, d);
    }
    assert Clashes(s.jobs, d) <==> exists id :: id in s.jobs && ForeignKey(s.jobs[id], d);
  }

  // ------------------------------------------------------------ rates

  /** The act makes a row of the key. */
  predicate MakesRow(s: Store, a: Act, key: string) {
    a.DoCreate? && a.c.key == Some(key) && Admit(s, a.c, a.plan, a.now, a.hit).1.Created?
  }

  /** The times at which a run makes rows of the key. */
  function CreateTimes(s: Store, acts: seq<Act>, key: string): seq<Time>
    decreases |acts|
  {
    if acts == [] then []
    else (if MakesRow(s, acts[0], key) then [acts[0].now] else []) + CreateTimes(Act1(s, acts[0]), acts[1..], key)
  }

  /** How many rows of the key a run makes between two instants, the second excluded. */
  function CreatesIn(s: Store, acts: seq<Act>, key: string, from: Time, to: Time): nat
    decreases |acts|
  {
    if acts == [] then 0
    else (if MakesRow(s, acts[0], key) && from <= acts[0].now < to then 1 else 0)
         + CreatesIn(Act1(s, acts[0]), acts[1..], key, from, to)
  }

  function KeyLimits(s: Store, key: string): Option<Limits> {
    if key in s.limits then Some(s.limits[key]) else None
  }

  /** Only a create that makes a row touches the counters: refusals and reuses cost nothing. */
  lemma OnlyRowsAreCounted(s: Store, a: Act, key: string)
    requires key != ""
    ensures KeyLimits(Act1(s, a), key)
            == if MakesRow(s, a, key) then AfterTake(KeyLimits(s, key), a.now) else KeyLimits(s, key)
    ensures MakesRow(s, a, key) ==> TakeRate(KeyLimits(s, key), a.now).Ok?
  {}

  /** The rows of a key are grants of its windows, at the same times. */
  lemma {:induction false} CreatesAreGrants(s: Store, acts: seq<Act>, clock: Time, key: string, from: Time, to: Time)
    requires key != "" && Fair(s, acts, clock)
    ensures Monotone(clock, CreateTimes(s, acts, key))
    ensures CreatesIn(s, acts, key, from, to) == GrantsIn(KeyLimits(s, key), CreateTimes(s, acts, key), from, to)
    decreases |acts|
  {
    if acts != [] {
      OnlyRowsAreCounted(s, acts[0], key);
      CreatesAreGrants(Act1(s, acts[0]), acts[1..], ClockAfter(acts[0], clock), key, from, to);
      var rest := CreateTimes(Act1(s, acts[0]), acts[1..], key);
      if MakesRow(s, acts[0], key) {
        assert ([acts[0].now] + rest)[1..] == rest;
      } else {
        assert CreateTimes(s, acts, key) == rest;
      }
    }
  }

  /**
    Over every run of the table from its beginning, with a monotone clock: any half-open minute
    sees at most 119 new rows of an API key and any hour at most 1999, whatever other creates
    and statements come in between.
   */
  lemma KeyRateIsBounded(lower: Text -> Text, acts: seq<Act>, clock: Time, key: string, u: Unit, from: Time)
    requires key != "" && Fair(EmptyStore(lower), acts, clock)
    ensures CreatesIn(EmptyStore(lower), acts, key, from, from + Width(u)) <= 2 * Cap(u) - 1
  {
    CreatesAreGrants(EmptyStore(lower), acts, clock, key, from, from + Width(u));
    AnyIntervalIsBounded(clock, CreateTimes(EmptyStore(lower), acts, key), u, from);
  }
}
