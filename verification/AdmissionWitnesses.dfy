/**
  What runs of the table from the empty one do reach: queues beyond the limit of admission up to
  the bound that holds instead, the most rows a key can get in one minute or hour, and an
  internal create that fails on the unique index.
 */
module AdmissionWitnesses {
  import opened Wrappers
  import opened JobStatus
  import opened JobRows
  import opened JobRuns
  import opened PrintJobs
  import opened JsText
  import opened JsonObjects
  import opened Fingerprint
  import opened RateWindows
  import opened Admission
  import opened AdmissionRuns

  /** A table reached from the empty one at time 0. */
  ghost predicate Reached(lower: Text -> Text, s: Store) {
    exists acts ::
      Fair(EmptyStore(lower), acts, 0) && LastClock(acts, 0) == 0 && AfterActs(EmptyStore(lower), acts) == s
  }

  predicate FairNext(s: Store, a: Act, clock: Time) {
    a.DoCreate? ==> clock <= a.now && FairCreate(s, a.c, a.hit)
  }

  lemma {:induction false} FairSnoc(s: Store, acts: seq<Act>, a: Act, clock: Time)
    requires Fair(s, acts, clock) && FairNext(AfterActs(s, acts), a, LastClock(acts, clock))
    ensures Fair(s, acts + [a], clock) && AfterActs(s, acts + [a]) == Act1(AfterActs(s, acts), a)
    ensures LastClock(acts + [a], clock) == ClockAfter(a, LastClock(acts, clock))
    decreases |acts|
  {
    if acts == [] {
      assert acts + [a] == [a] && [a][1..] == [];
    } else {
      assert (acts + [a])[0] == acts[0] && (acts + [a])[1..] == acts[1..] + [a];
      FairSnoc(Act1(s, acts[0]), acts[1..], a, ClockAfter(acts[0], clock));
    }
  }

  lemma Goes(lower: Text -> Text, s: Store, a: Act)
    requires Reached(lower, s) && FairNext(s, a, 0) && (a.DoCreate? ==> a.now == 0)
    ensures Reached(lower, Act1(s, a))
  {
    var acts :| Fair(EmptyStore(lower), acts, 0) && LastClock(acts, 0) == 0 && AfterActs(EmptyStore(lower), acts) == s;
    FairSnoc(EmptyStore(lower), acts, a, 0);
    assert AfterActs(EmptyStore(lower), acts + [a]) == Act1(s, a);
  }

  function Id(n: nat): (id: JobId)
    ensures |id| == n + 1
  {
    if n == 0 then "j" else Id(n - 1) + "j"
  }

  const AGENT: Scope := OfAgent("t", "a")
  const NO_PLAN: Admission.Plan := Admission.Plan(None, None)

  function Plain(id: JobId): Create {
    Create(id, "t", "a", None, None, Ask([], None, None, Null), Null, 1)
  }

  const NEW: Row := NewRow("t", "a", [], 0, 1)

  /** The job as its create left it, or as its first claim did, whose token is here the id. */
  predicate JustMade(j: Job) { j == Fresh(NEW) }

  predicate JustClaimed(j: Job, id: JobId) { j.row == NEW.(status := Claimed, token := Some(id), attempts := 1) }

  /** No id is longer than there are jobs, and those at the agent have just been claimed. */
  predicate Tidy(jobs: Jobs) {
    && (forall id :: id in jobs ==> 0 < |id| <= |jobs|)
    && (forall id :: id in InFlightOf(jobs, AGENT, 0) ==> JustClaimed(jobs[id].job, id))
  }

  function Waiting(jobs: Jobs): nat { |QueuedOf(jobs, AGENT, 0)| }

  function AtAgent(jobs: Jobs): nat { |InFlightOf(jobs, AGENT, 0)| }

  /** The jobs that wait have never been claimed. */
  predicate WaitingAreNew(jobs: Jobs) { forall id :: id in QueuedOf(jobs, AGENT, 0) ==> JustMade(jobs[id].job) }

  // ------------------------------------------------------------ one more job

  function More(s: Store, id: JobId): Store { Act1(s, DoCreate(Plain(id), NO_PLAN, 0, None)) }

  function With(jobs: Jobs, id: JobId): Jobs { jobs[id := NewJob(Plain(id), 0)] }

  /** Admission lets it in as long as fewer than 1000 wait and fewer than 500 are at the agent. */
  lemma NothingStops(s: Store, id: JobId)
    requires id !in s.jobs && |QueuedOf(s.jobs, AGENT, 0)| < 1000 && |InFlightOf(s.jobs, AGENT, 0)| < 500
    ensures More(s, id).jobs == With(s.jobs, id)
  {
    assert Obstacle(s, Plain(id), NO_PLAN, 0) == None;
  }

  lemma CreateHolds(jobs: Jobs, id: JobId, made: Stored)
    requires Tidy(jobs) && |id| == |jobs| + 1 && JustMade(made.job)
    ensures Tidy(jobs[id := made])
    ensures Waiting(jobs[id := made]) == Waiting(jobs) + 1 && AtAgent(jobs[id := made]) == AtAgent(jobs)
    ensures WaitingAreNew(jobs) ==> WaitingAreNew(jobs[id := made])
  {
    assert made.job.row.status == Queued && Within(made.job.row, AGENT) && 0 < made.job.row.expiresAt;
    assert |jobs[id := made]| == |jobs| + 1;
    assert QueuedOf(jobs[id := made], AGENT, 0) == QueuedOf(jobs, AGENT, 0) + {id};
    assert InFlightOf(jobs[id := made], AGENT, 0) == InFlightOf(jobs, AGENT, 0);
  }

  lemma OneMore(lower: Text -> Text, s: Store, id: JobId) returns (t: Store)
    requires Reached(lower, s) && id !in s.jobs
    requires |QueuedOf(s.jobs, AGENT, 0)| < 1000 && |InFlightOf(s.jobs, AGENT, 0)| < 500
    ensures Reached(lower, t) && t.jobs == With(s.jobs, id)
  {
    NothingStops(s, id);
    PlainIsFair(s, id);
    t := More(s, id);
    Goes(lower, s, DoCreate(Plain(id), NO_PLAN, 0, None));
  }

  lemma PlainIsFair(s: Store, id: JobId)
    ensures FairNext(s, DoCreate(Plain(id), NO_PLAN, 0, None), 0)
  {}

  /** So many more jobs. */
  lemma {:induction false} Fill(lower: Text -> Text, s: Store, more: nat) returns (t: Store)
    requires Reached(lower, s) && Tidy(s.jobs)
    requires Waiting(s.jobs) + more <= MAX_AGENT_QUEUED_JOBS && AtAgent(s.jobs) < MAX_AGENT_IN_FLIGHT_JOBS
    ensures Reached(lower, t) && Tidy(t.jobs) && (WaitingAreNew(s.jobs) ==> WaitingAreNew(t.jobs))
    ensures Waiting(t.jobs) == Waiting(s.jobs) + more && AtAgent(t.jobs) == AtAgent(s.jobs)
    decreases more
  {
    t := s;
    if more > 0 {
      var id := Id(|s.jobs|);
      t := OneMore(lower, s, id);
      CreateHolds(s.jobs, id, NewJob(Plain(id), 0));
      t := Fill(lower, t, more - 1);
    }
  }

  // ------------------------------------------------------------ claims and releases

  function Moved(jobs: Jobs, id: JobId, to: Job): Jobs
    requires id in jobs
  {
    jobs[id := jobs[id].(job := to)]
  }

  /** A job goes to the agent, or comes back from it. */
  lemma Moves(jobs: Jobs, id: JobId, to: Job)
    requires id in jobs && Within(to.row, AGENT) && Within(jobs[id].job.row, AGENT)
    requires 0 < to.row.expiresAt && 0 < jobs[id].job.row.expiresAt
    ensures jobs[id].job.row.status == Queued && to.row.status == Claimed ==>
              && QueuedOf(Moved(jobs, id, to), AGENT, 0) == QueuedOf(jobs, AGENT, 0) - {id}
              && InFlightOf(Moved(jobs, id, to), AGENT, 0) == InFlightOf(jobs, AGENT, 0) + {id}
    ensures jobs[id].job.row.status == Claimed && to.row.status == Queued ==>
              && QueuedOf(Moved(jobs, id, to), AGENT, 0) == QueuedOf(jobs, AGENT, 0) + {id}
              && InFlightOf(Moved(jobs, id, to), AGENT, 0) == InFlightOf(jobs, AGENT, 0) - {id}
  {}

  lemma ClaimHolds(jobs: Jobs, id: JobId, to: Job)
    requires Tidy(jobs) && WaitingAreNew(jobs) && id in QueuedOf(jobs, AGENT, 0) && JustClaimed(to, id)
    ensures Tidy(Moved(jobs, id, to)) && WaitingAreNew(Moved(jobs, id, to))
    ensures Waiting(Moved(jobs, id, to)) == Waiting(jobs) - 1 && AtAgent(Moved(jobs, id, to)) == AtAgent(jobs) + 1
  {
    assert Moved(jobs, id, to).Keys == jobs.Keys;
    Moves(jobs, id, to);
  }

  lemma ReleaseHolds(jobs: Jobs, id: JobId, to: Job)
    requires Tidy(jobs) && id in InFlightOf(jobs, AGENT, 0)
    requires to.row.status == Queued && to.row.expiresAt == 1 && Within(to.row, AGENT)
    ensures Tidy(Moved(jobs, id, to))
    ensures Waiting(Moved(jobs, id, to)) == Waiting(jobs) + 1 && AtAgent(Moved(jobs, id, to)) == AtAgent(jobs) - 1
  {
    assert JustClaimed(jobs[id].job, id);
    assert Moved(jobs, id, to).Keys == jobs.Keys;
    Moves(jobs, id, to);
  }

  function Back(id: JobId): Event { EvReleaseRequeue("a", Some(id), "no socket", 0) }

  lemma StepClaims(j: Job, id: JobId)
    requires JustMade(j) && id != ""
    ensures JustClaimed(Step(j, EvClaim(0, id)), id)
  {}

  lemma StepGivesBack(j: Job, id: JobId)
    requires JustClaimed(j, id)
    ensures Step(j, Back(id)).row.status == Queued && Step(j, Back(id)).row.expiresAt == 1
    ensures Within(Step(j, Back(id)).row, AGENT)
  {}

  lemma Statement(lower: Text -> Text, s: Store, id: JobId, e: Event) returns (t: Store)
    requires Reached(lower, s) && id in s.jobs
    ensures Reached(lower, t) && t.jobs == Moved(s.jobs, id, Step(s.jobs[id].job, e))
  {
    t := Act1(s, DoStep(id, e));
    Goes(lower, s, DoStep(id, e));
  }

  /** All waiting jobs are claimed. */
  lemma {:induction false} ClaimAll(lower: Text -> Text, s: Store) returns (t: Store)
    requires Reached(lower, s) && Tidy(s.jobs) && WaitingAreNew(s.jobs)
    ensures Reached(lower, t) && Tidy(t.jobs)
    ensures Waiting(t.jobs) == 0 && AtAgent(t.jobs) == AtAgent(s.jobs) + Waiting(s.jobs)
    decreases Waiting(s.jobs)
  {
    t := s;
    if Waiting(s.jobs) > 0 {
      assert QueuedOf(s.jobs, AGENT, 0) != {};
      var id :| id in QueuedOf(s.jobs, AGENT, 0);
      StepClaims(s.jobs[id].job, id);
      ClaimHolds(s.jobs, id, Step(s.jobs[id].job, EvClaim(0, id)));
      t := Statement(lower, s, id, EvClaim(0, id));
      t := ClaimAll(lower, t);
    }
  }

  /** All claims are released undelivered, and the jobs wait again. */
  lemma {:induction false} ReleaseAll(lower: Text -> Text, s: Store) returns (t: Store)
    requires Reached(lower, s) && Tidy(s.jobs)
    ensures Reached(lower, t) && Waiting(t.jobs) == Waiting(s.jobs) + AtAgent(s.jobs)
    decreases AtAgent(s.jobs)
  {
    t := s;
    if AtAgent(s.jobs) > 0 {
      assert InFlightOf(s.jobs, AGENT, 0) != {};
      var id :| id in InFlightOf(s.jobs, AGENT, 0);
      StepGivesBack(s.jobs[id].job, id);
      ReleaseHolds(s.jobs, id, Step(s.jobs[id].job, Back(id)));
      t := Statement(lower, s, id, Back(id));
      t := ReleaseAll(lower, t);
    }
  }

  lemma EmptyIsReached(lower: Text -> Text)
    ensures Reached(lower, EmptyStore(lower))
  {
    var s := EmptyStore(lower);
    assert Fair(s, [], 0) && LastClock([], 0) == 0 && AfterActs(s, []) == s;
  }

  lemma Start(lower: Text -> Text) returns (s: Store)
    ensures Reached(lower, s) && Tidy(s.jobs) && WaitingAreNew(s.jobs)
    ensures Waiting(s.jobs) == 0 && AtAgent(s.jobs) == 0
  {
    EmptyIsReached(lower);
    s := EmptyStore(lower);
    EmptyHolds(s.jobs);
  }

  lemma EmptyHolds(jobs: Jobs)
    requires jobs == map[]
    ensures Tidy(jobs) && WaitingAreNew(jobs) && Waiting(jobs) == 0 && AtAgent(jobs) == 0
  {
    assert QueuedOf(jobs, AGENT, 0) == {} && InFlightOf(jobs, AGENT, 0) == {};
  }

  lemma SomeWaiting(lower: Text -> Text, k: nat) returns (s: Store)
    requires k <= MAX_AGENT_QUEUED_JOBS
    ensures Reached(lower, s) && Tidy(s.jobs) && WaitingAreNew(s.jobs) && Waiting(s.jobs) == k && AtAgent(s.jobs) == 0
  {
    var empty := Start(lower);
    s := Fill(lower, empty, k);
  }

  lemma SomeAtTheAgent(lower: Text -> Text, k: nat) returns (s: Store)
    requires k <= MAX_AGENT_QUEUED_JOBS
    ensures Reached(lower, s) && Tidy(s.jobs) && Waiting(s.jobs) == 0 && AtAgent(s.jobs) == k
  {
    var waiting := SomeWaiting(lower, k);
    s := ClaimAll(lower, waiting);
  }

  /**
    Tables with 1001 up to 1499 queued jobs of one agent are reached, although admission
    refuses at 1000: some jobs are claimed, a thousand more are created, and the claims come back.
   */
  lemma QueueLimitIsPassed(lower: Text -> Text, extra: nat) returns (s: Store)
    requires extra < MAX_AGENT_IN_FLIGHT_JOBS
    ensures Reached(lower, s) && |QueuedOf(s.jobs, AGENT, 0)| == MAX_AGENT_QUEUED_JOBS + extra
  {
    s := SomeAtTheAgent(lower, extra);
    s := Fill(lower, s, MAX_AGENT_QUEUED_JOBS);
    s := ReleaseAll(lower, s);
  }

  /** What bounds the queue is the backlog: in every run at most 1499 jobs of an agent are queued. */
  lemma QueueIsBounded(lower: Text -> Text, acts: seq<Act>, clock: Time, tenant: string, agent: string)
    requires Fair(EmptyStore(lower), acts, clock)
    ensures |QueuedOf(AfterActs(EmptyStore(lower), acts).jobs, OfAgent(tenant, agent), LastClock(acts, clock))|
            <= MAX_BACKLOG
  {
    assert Backlog(EmptyStore(lower).jobs, OfAgent(tenant, agent), clock) == {};
    BacklogIsBounded(EmptyStore(lower), acts, clock, OfAgent(tenant, agent), MAX_BACKLOG);
    BacklogParts(AfterActs(EmptyStore(lower), acts).jobs, OfAgent(tenant, agent), LastClock(acts, clock));
  }

  // ------------------------------------------------------------ the rate bounds are met

  /** A create under one API key, each by an id and for an agent of its own. */
  function Once(n: nat, t: Time): Act {
    DoCreate(Create(Id(n), "t", Id(n), Some("k"), None, Ask([], None, None, Null), Null, t + 1), NO_PLAN, t, None)
  }

  predicate Small(s: Store, n: nat) {
    forall id :: id in s.jobs ==> |id| <= n && |s.jobs[id].job.row.agent| <= n
  }

  lemma NoneOfAgent(jobs: Jobs, agent: string, now: Time)
    requires forall id :: id in jobs ==> jobs[id].job.row.agent != agent
    ensures QueuedOf(jobs, OfAgent("t", agent), now) == {} && InFlightOf(jobs, OfAgent("t", agent), now) == {}
  {}

  lemma OnceIsFair(s: Store, n: nat, t: Time)
    ensures FairCreate(s, Once(n, t).c, None)
  {}

  /** Nothing but the key's rate stops it. */
  lemma OnceIsAGrant(s: Store, n: nat, t: Time)
    requires Small(s, n)
    ensures MakesRow(s, Once(n, t), "k") <==> TakeRate(KeyLimits(s, "k"), t).Ok?
  {
    NoneOfAgent(s.jobs, Id(n), t);
    assert !Clashes(s.jobs, Once(n, t).c);
  }

  lemma OnceStaysSmall(s: Store, n: nat, t: Time)
    requires Small(s, n)
    ensures Small(Act1(s, Once(n, t)), n + 1)
  {
    OnceAdds(s, n, t);
    StaysSmall(s, Act1(s, Once(n, t)), n, NewJob(Once(n, t).c, t));
  }

  lemma OnceAdds(s: Store, n: nat, t: Time)
    ensures Act1(s, Once(n, t)).jobs == s.jobs || Act1(s, Once(n, t)).jobs == s.jobs[Id(n) := NewJob(Once(n, t).c, t)]
  {}

  lemma StaysSmall(s: Store, t: Store, n: nat, made: Stored)
    requires Small(s, n) && |made.job.row.agent| == n + 1
    requires t.jobs == s.jobs || t.jobs == s.jobs[Id(n) := made]
    ensures Small(t, n + 1)
  {}

  /** The create, the store after it, and what it does to the key's counters. */
  lemma OnceCounts(s: Store, n: nat, t: Time) returns (a: Act, after: Store)
    requires Small(s, n)
    ensures a.DoCreate? && a.now == t && FairCreate(s, a.c, a.hit) && after == Act1(s, a) && Small(after, n + 1)
    ensures MakesRow(s, a, "k") <==> TakeRate(KeyLimits(s, "k"), t).Ok?
    ensures KeyLimits(after, "k") == AfterTake(KeyLimits(s, "k"), t)
  {
    a, after := Once(n, t), Act1(s, Once(n, t));
    OnceStaysSmall(s, n, t);
    OnceIsAGrant(s, n, t);
    OnceIsFair(s, n, t);
    OnlyRowsAreCounted(s, a, "k");
  }

  /** The run makes a row of the key for each of these requests that its windows grant. */
  ghost predicate Follows(s: Store, acts: seq<Act>, times: seq<Time>, clock: Time, from: Time, to: Time) {
    Fair(s, acts, clock) && CreatesIn(s, acts, "k", from, to) == GrantsIn(KeyLimits(s, "k"), times, from, to)
  }

  lemma {:induction false} GrantsAreCreates(s: Store, n: nat, times: seq<Time>, clock: Time, from: Time, to: Time)
      returns (acts: seq<Act>)
    requires Small(s, n) && Monotone(clock, times)
    ensures Follows(s, acts, times, clock, from, to)
    decreases |times|
  {
    acts := [];
    if times != [] {
      var a, after := OnceCounts(s, n, times[0]);
      var rest := GrantsAreCreates(after, n + 1, times[1..], times[0], from, to);
      OneMoreFollows(s, a, after, rest, times, clock, from, to);
      acts := [a] + rest;
    }
  }

  lemma OneMoreFollows(
      s: Store, a: Act, t: Store, rest: seq<Act>, times: seq<Time>, clock: Time, from: Time, to: Time)
    requires times != [] && clock <= times[0] && Follows(t, rest, times[1..], times[0], from, to)
    requires a.DoCreate? && a.now == times[0] && FairCreate(s, a.c, a.hit) && t == Act1(s, a)
    requires MakesRow(s, a, "k") <==> TakeRate(KeyLimits(s, "k"), times[0]).Ok?
    requires KeyLimits(t, "k") == AfterTake(KeyLimits(s, "k"), times[0])
    ensures Follows(s, [a] + rest, times, clock, from, to)
  {
    FirstAct(s, a, t, rest, clock, "k", from, to);
  }

  lemma FirstAct(s: Store, a: Act, t: Store, rest: seq<Act>, clock: Time, key: string, from: Time, to: Time)
    requires a.DoCreate? && clock <= a.now && FairCreate(s, a.c, a.hit) && t == Act1(s, a) && Fair(t, rest, a.now)
    ensures Fair(s, [a] + rest, clock)
    ensures CreatesIn(s, [a] + rest, key, from, to)
            == (if MakesRow(s, a, key) && from <= a.now < to then 1 else 0) + CreatesIn(t, rest, key, from, to)
  {
    assert ([a] + rest)[0] == a && ([a] + rest)[1..] == rest;
  }

  /** Both rate bounds are met by runs of the table: 119 rows of a key in one minute, and 1999 in one hour. */
  lemma RateBoundsAreMet(lower: Text -> Text, u: Unit) returns (acts: seq<Act>, from: Time)
    ensures Fair(EmptyStore(lower), acts, 0)
    ensures CreatesIn(EmptyStore(lower), acts, "k", from, from + Width(u)) == 2 * Cap(u) - 1
  {
    var times;
    times, from := BoundIsMet(u);
    acts := GrantsAreCreates(EmptyStore(lower), 0, times, 0, from, from + Width(u));
  }

  lemma BoundIsMet(u: Unit) returns (times: seq<Time>, from: Time)
    ensures Monotone(0, times) && GrantsIn(None, times, from, from + Width(u)) == 2 * Cap(u) - 1
  {
    if u == Minute {
      times, from := HundredNineteenHappen();
    } else {
      times, from := NineteenNinetyNineHappen();
    }
  }

  // ------------------------------------------------------------ internal keys

  function Internal(id: JobId, tenant: string): Create {
    Create(id, tenant, "a", None, Some([1]), Ask([], None, None, Null), Null, 1)
  }

  /** The first internal create under a key makes its row; another tenant's fails on the unique index. */
  lemma SecondTenantFails(lower: Text -> Text) returns (s: Store)
    ensures Reached(lower, s) && FairCreate(s, Internal("2", "u"), None)
    ensures Admit(EmptyStore(lower), Internal("1", "t"), NO_PLAN, 0, None) == (s, Created("1"))
    ensures Admit(s, Internal("2", "u"), NO_PLAN, 0, None) == (s, Refused(UniqueViolation))
  {
    var c, d := Internal("1", "t"), Internal("2", "u");
    FirstSucceeds(lower, c);
    s := Inserted(EmptyStore(lower), c, 0);
    EmptyIsReached(lower);
    assert Earlier(EmptyStore(lower).jobs, c) == {};
    Goes(lower, EmptyStore(lower), DoCreate(c, NO_PLAN, 0, None));
    SecondFails(s, c, d);
  }

  lemma SecondFails(s: Store, c: Create, d: Create)
    requires s.jobs == map[c.id := NewJob(c, 0)] && d.id != c.id && d.tenant != c.tenant && TenantOk(d.tenant)
    requires c.key == None && d.key == None && IdemGiven(d) && c.idem == d.idem
    ensures Earlier(s.jobs, d) == {} && Admit(s, d, NO_PLAN, 0, None) == (s, Refused(UniqueViolation))
  {
    assert Earlier(s.jobs, d) == {};
    assert QueuedOf(s.jobs, OfAgent(d.tenant, d.agent), 0) == {}
           && InFlightOf(s.jobs, OfAgent(d.tenant, d.agent), 0) == {};
    assert ForeignKey(s.jobs[c.id], d);
    InternalKeysClashAcrossTenants(s, d, NO_PLAN, 0);
  }

  lemma FirstSucceeds(lower: Text -> Text, c: Create)
    requires c.key == None && TenantOk(c.tenant)
    ensures Admit(EmptyStore(lower), c, NO_PLAN, 0, None) == (Inserted(EmptyStore(lower), c, 0), Created(c.id))
  {
    assert QueuedOf(map[], OfAgent(c.tenant, c.agent), 0) == {}
           && InFlightOf(map[], OfAgent(c.tenant, c.agent), 0) == {};
  }
}
