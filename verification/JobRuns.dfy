/**
  Whole runs of one job row: any interleaving, of any length, of the statements that the
  gateway's claim paths, its delivery bookkeeping, its sweep and the agents' reports run
  against the row.  A report is two events, its read and its write, with anything between.
 */
module JobRuns {
  import opened Wrappers
  import opened Markers
  import opened JobStatus
  import opened JobRows

  datatype Event =
    | EvClaim(at: Time, minted: Token)
    | EvPollClaim(at: Time, minted: Token)
    | EvDelivered(agent: string, token: Option<Token>, at: Time)
    | EvAck(agent: string, token: Option<Token>, at: Time)
    | EvKeepAlive(agent: string, token: Option<Token>, at: Time)
    | EvReleaseRequeue(agent: string, token: Option<Token>, reason: string, at: Time)
    | EvReleaseFail(agent: string, token: Option<Token>, reason: string, at: Time)
    | EvExpire(at: Time)
    | EvRequeue(at: Time)
    | EvSilent(at: Time)
    | EvPrinting(at: Time)
    | EvExhausted(at: Time)
    | EvReportRead(agent: string, rep: Report, at: Time)
    | EvReportWrite(agent: string, plan: Plan, at: Time)

  /** The row, the tokens ever minted for it, the report writes still on their way, and two history counters. */
  datatype Job = Job(row: Row, minted: set<Token>, plans: set<(string, Plan)>, claims: nat, refunds: nat)

  function Fresh(row: Row): Job { Job(row, {}, {}, 0, 0) }

  /** gen_random_uuid never repeats a token and never returns an empty one. */
  predicate NewToken(j: Job, t: Token) { t != "" && t !in j.minted }

  function StepRow(j: Job, e: Event): Row {
    match e
    case EvClaim(at, t) => if NewToken(j, t) then Claim(j.row, at, t) else j.row
    case EvPollClaim(at, t) => if NewToken(j, t) then PollClaim(j.row, at, t) else j.row
    case EvDelivered(a, t, at) => MarkDelivered(j.row, a, t, at)
    case EvAck(a, t, at) => RecordAck(j.row, a, t, at)
    case EvKeepAlive(a, t, at) => KeepAlive(j.row, a, t, at)
    case EvReleaseRequeue(a, t, why, at) => ReleaseRequeue(j.row, a, t, why, at)
    case EvReleaseFail(a, t, why, at) => ReleaseFail(j.row, a, t, why, at)
    case EvExpire(at) => SweepExpire(j.row, at)
    case EvRequeue(at) => SweepRequeue(j.row, at)
    case EvSilent(at) => SweepSilent(j.row, at)
    case EvPrinting(at) => SweepPrinting(j.row, at)
    case EvExhausted(at) => SweepExhausted(j.row, at)
    case EvReportRead(_, _, _) => j.row
    case EvReportWrite(a, p, at) => if (a, p) in j.plans then ApplyPlan(j.row, a, p, at) else j.row
  }

  predicate IsClaim(e: Event) { e.EvClaim? || e.EvPollClaim? }

  function Step(j: Job, e: Event): Job {
    var row := StepRow(j, e);
    if IsClaim(e) then
      if row == j.row then j else j.(row := row, minted := j.minted + {e.minted}, claims := j.claims + 1)
    else if e.EvReportRead? then
      var plan := Decide(j.row, e.agent, e.rep, e.at);
      if plan.Some? then j.(plans := j.plans + {(e.agent, plan.value)}) else j
    else if e.EvReportWrite? && e.plan.PlanReject? && row != j.row then
      j.(row := row, refunds := j.refunds + 1)
    else j.(row := row)
  }

  /** The job after a run of events. */
  function After(j: Job, run: seq<Event>): Job
    decreases |run|
  {
    if run == [] then j else After(Step(j, run[0]), run[1..])
  }

  lemma {:induction false} AfterAppend(j: Job, a: seq<Event>, b: seq<Event>)
    ensures After(j, a + b) == After(After(j, a), b)
    decreases |a|
  {
    if a == [] {
      assert a + b == b;
    } else {
      assert (a + b)[0] == a[0] && (a + b)[1..] == a[1..] + b;
      AfterAppend(Step(j, a[0]), a[1..], b);
    }
  }

  lemma AfterOne(j: Job, e: Event)
    ensures After(j, [e]) == Step(j, e)
  {
    assert [e][1..] == [];
    assert After(Step(j, e), []) == Step(j, e);
  }

  lemma AfterCons(j: Job, e: Event, rest: seq<Event>)
    ensures After(j, [e] + rest) == After(Step(j, e), rest)
  {
    assert ([e] + rest)[0] == e && ([e] + rest)[1..] == rest;
  }

  // ------------------------------------------------------------ what every step keeps

  const MAX_CLAIMS: int := 9

  predicate Inv(j: Job) {
    var r := j.row;
    && (r.token.Some? ==> r.token.value in j.minted && r.token.value != "")
    && (r.Live() ==> r.token.Some? && 1 <= r.attempts && r.retries <= MAX_RETRIES)
    && (r.status == Queued ==> r.token == None && !r.Evidenced())
    && r.attempts <= MAX_DELIVERY_ATTEMPTS
    && r.retries <= MAX_RETRIES + 1
    && j.claims == r.attempts + j.refunds
    && j.refunds <= r.retries
    && j.claims <= MAX_CLAIMS
    && (forall q :: q in j.plans ==> PlanWellFormed(q.1))
  }

  /** What Decide can put on its way. */
  predicate PlanWellFormed(p: Plan) {
    match p
    case PlanMove(_, observed, to, _) =>
      || (observed == Claimed && to == Printing) || (observed == Claimed && to == Failed)
      || (observed == Printing && (to == Success || to == Failed))
      || (observed == Failed && to == Success)
    case PlanReject(_, why) => why != OtherReason
    case _ => true
  }

  lemma DecideWellFormed(r: Row, agent: string, rep: Report, now: Time)
    ensures Decide(r, agent, rep, now).Some? ==> PlanWellFormed(Decide(r, agent, rep, now).value)
  {}

  predicate IsInitial(r: Row) {
    r.status == Queued && r.token == None && !r.Evidenced() && r.attempts == 0 && r.retries == 0
  }

  lemma StepKeepsInv(j: Job, e: Event)
    requires Inv(j)
    ensures Inv(Step(j, e))
  {
    if e.EvReportRead? {
      DecideWellFormed(j.row, e.agent, e.rep, e.at);
    } else if e.EvReportWrite? {
      WriteKeepsInv(j, e);
    } else if IsClaim(e) {
      ClaimKeepsInv(j, e);
    } else {
      StatementKeepsInv(j, e);
    }
  }

  lemma WriteKeepsInv(j: Job, e: Event)
    requires Inv(j) && e.EvReportWrite?
    ensures Inv(Step(j, e))
  {}

  lemma ClaimKeepsInv(j: Job, e: Event)
    requires Inv(j) && IsClaim(e)
    ensures Inv(Step(j, e))
  {}

  lemma StatementKeepsInv(j: Job, e: Event)
    requires Inv(j) && !IsClaim(e) && !e.EvReportRead? && !e.EvReportWrite?
    ensures Inv(Step(j, e))
  {}

  lemma {:induction false} RunKeepsInv(j: Job, run: seq<Event>)
    requires Inv(j)
    ensures Inv(After(j, run))
    decreases |run|
  {
    if run != [] {
      StepKeepsInv(j, run[0]);
      RunKeepsInv(Step(j, run[0]), run[1..]);
    }
  }

  /**
    Budgets over every run of a freshly inserted job: a live row always carries a token, the
    delivery budget stays within 0..5, the retry budget within 0..6, and the job is claimed
    at most 9 times, refunds included; without refunds at most 5 times.
   */
  lemma Budgets(r: Row, run: seq<Event>)
    requires IsInitial(r)
    ensures var j := After(Fresh(r), run);
            && (j.row.Live() ==> j.row.token.Some?)
            && 0 <= j.row.attempts <= 5
            && 0 <= j.row.retries <= 6
            && j.claims <= 9
            && (j.refunds == 0 ==> j.claims <= 5)
  {
    RunKeepsInv(Fresh(r), run);
  }

  /** A rejection lands on a claim whose retry budget is already spent. */
  predicate Overruns(j: Job, e: Event) {
    && e.EvReportWrite? && (e.agent, e.plan) in j.plans && e.plan.PlanReject?
    && PlanMatches(j.row, e.agent, e.plan, e.at) && j.row.retries == MAX_RETRIES
  }

  /** The promise "retries stays within 0..5" fails in a step if and only if the step overruns the budget. */
  lemma RetriesStep(j: Job, e: Event)
    requires Inv(j) && j.row.retries <= MAX_RETRIES
    ensures Step(j, e).row.retries > MAX_RETRIES <==> Overruns(j, e)
  {}

  predicate NeverOverruns(j: Job, run: seq<Event>)
    decreases |run|
  {
    run == [] || (!Overruns(j, run[0]) && NeverOverruns(Step(j, run[0]), run[1..]))
  }

  lemma RetriesNeverFall(j: Job, e: Event)
    requires Inv(j)
    ensures j.row.retries <= Step(j, e).row.retries
  {}

  lemma {:induction false} SpentStaysSpent(j: Job, run: seq<Event>)
    requires Inv(j) && j.row.retries > MAX_RETRIES
    ensures After(j, run).row.retries > MAX_RETRIES
    decreases |run|
  {
    if run != [] {
      RetriesNeverFall(j, run[0]);
      StepKeepsInv(j, run[0]);
      SpentStaysSpent(Step(j, run[0]), run[1..]);
    }
  }

  lemma {:induction false} RetriesAlongRun(j: Job, run: seq<Event>)
    requires Inv(j) && j.row.retries <= MAX_RETRIES
    ensures After(j, run).row.retries <= MAX_RETRIES <==> NeverOverruns(j, run)
    decreases |run|
  {
    if run != [] {
      RetriesStep(j, run[0]);
      StepKeepsInv(j, run[0]);
      if Overruns(j, run[0]) {
        SpentStaysSpent(Step(j, run[0]), run[1..]);
      } else {
        RetriesAlongRun(Step(j, run[0]), run[1..]);
      }
    }
  }

  /** Over every run of a fresh job, retries stays within 0..5 if and only if no rejection lands on a spent budget. */
  lemma RetriesWithinBudget(r: Row, run: seq<Event>)
    requires IsInitial(r)
    ensures After(Fresh(r), run).row.retries <= MAX_RETRIES <==> NeverOverruns(Fresh(r), run)
  {
    RetriesAlongRun(Fresh(r), run);
  }

  // ------------------------------------------------------------ fencing

  /** Claim t has been minted and is no longer the live claim. */
  predicate Retired(j: Job, t: Token) {
    t in j.minted && !j.row.HeldUnder(t)
  }

  lemma RetiredStays(j: Job, e: Event, t: Token)
    requires Inv(j) && Retired(j, t)
    ensures Retired(Step(j, e), t)
  {}

  lemma {:induction false} RetiredForever(j: Job, t: Token, run: seq<Event>)
    requires Inv(j) && Retired(j, t)
    ensures Retired(After(j, run), t)
    decreases |run|
  {
    if run != [] {
      StepKeepsInv(j, run[0]);
      RetiredStays(j, run[0], t);
      RetiredForever(Step(j, run[0]), t, run[1..]);
    }
  }

  /**
    Once a row leaves {claimed, printing} under token t it never holds that pair again:
    whatever happens before, between and after.
   */
  lemma ClaimNeverReturns(r: Row, before: seq<Event>, between: seq<Event>, after: seq<Event>, t: Token)
    requires IsInitial(r)
    requires After(Fresh(r), before).row.HeldUnder(t)
    requires !After(Fresh(r), before + between).row.HeldUnder(t)
    ensures !After(Fresh(r), before + between + after).row.HeldUnder(t)
  {
    var j0 := Fresh(r);
    RunKeepsInv(j0, before);
    var j1 := After(j0, before);
    AfterAppend(j0, before, between);
    RunKeepsInv(j1, between);
    var j2 := After(j1, between);
    MintedGrows(j1, between);
    AfterAppend(j0, before + between, after);
    RetiredForever(j2, t, after);
  }

  lemma {:induction false} MintedGrows(j: Job, run: seq<Event>)
    ensures j.minted <= After(j, run).minted
    decreases |run|
  {
    if run != [] {
      MintedGrows(Step(j, run[0]), run[1..]);
    }
  }

  /** The token an agent-attributable statement presents, if the statement carries one. */
  predicate PresentsToken(e: Event, t: Option<Token>) {
    match e
    case EvDelivered(_, tok, _) => t == tok
    case EvAck(_, tok, _) => t == tok
    case EvKeepAlive(_, tok, _) => t == tok
    case EvReleaseRequeue(_, tok, _, _) => t == tok
    case EvReleaseFail(_, tok, _, _) => t == tok
    case EvReportWrite(_, p, _) => t == p.token
    case _ => false
  }

  /**
    Every status, delivery, acknowledgement, keep-alive or release write that carries a
    superseded token, or none, leaves a live row as it is.
   */
  lemma StaleWriteIsNoOp(r: Row, run: seq<Event>, e: Event, t: Option<Token>)
    requires IsInitial(r)
    requires PresentsToken(e, t)
    requires After(Fresh(r), run).row.Live()
    requires After(Fresh(r), run).row.token != t
    ensures Step(After(Fresh(r), run), e).row == After(Fresh(r), run).row
  {
    RunKeepsInv(Fresh(r), run);
  }

  // ------------------------------------------------------------ evidence

  /** While one claim is live its delivery evidence is never taken back. */
  lemma EvidenceIsMonotone(j: Job, e: Event, t: Token)
    requires Inv(j)
    requires j.row.HeldUnder(t) && Step(j, e).row.HeldUnder(t)
    ensures j.row.deliveredAt.Some? ==> Step(j, e).row.deliveredAt.Some?
    ensures j.row.ackedAt.Some? ==> Step(j, e).row.ackedAt.Some?
  {}

  lemma {:induction false} EvidenceKeptAlongRun(j: Job, run: seq<Event>, t: Token)
    requires Inv(j) && j.row.HeldUnder(t) && After(j, run).row.HeldUnder(t)
    ensures j.row.Evidenced() ==> After(j, run).row.Evidenced()
    decreases |run|
  {
    if run != [] {
      var j1 := Step(j, run[0]);
      StepKeepsInv(j, run[0]);
      if !j1.row.HeldUnder(t) {
        RetiredForever(j1, t, run[1..]);
        assert false;
      }
      EvidenceIsMonotone(j, run[0], t);
      EvidenceKeptAlongRun(j1, run[1..], t);
    }
  }

  predicate IsSweep(e: Event) {
    e.EvExpire? || e.EvRequeue? || e.EvSilent? || e.EvPrinting? || e.EvExhausted?
  }

  predicate IsRelease(e: Event) { e.EvReleaseRequeue? || e.EvReleaseFail? }

  /** No sweep and no release puts a printing row, or a claim with delivery evidence, back in the queue. */
  lemma NoRequeueAfterEvidence(j: Job, e: Event)
    requires IsSweep(e) || IsRelease(e)
    requires j.row.status == Printing || (j.row.status == Claimed && j.row.Evidenced())
    ensures Step(j, e).row.status != Queued
    ensures IsRelease(e) ==> Step(j, e).row == j.row
  {}

  lemma ExhaustedTextIsUnmarked()
    ensures !HasUnknownOutcomeMarker(EXHAUSTED_TEXT)
  {
    assert EXHAUSTED_TEXT[0] == 'e';
    UnmarkedByFirstChar(EXHAUSTED_TEXT);
  }

  /**
    When the sweep ends a row, it calls the physical outcome unknown exactly when the agent
    may have had the job: printing, or claimed with evidence.  It never calls it printed.
   */
  lemma SweepVerdict(j: Job, e: Event)
    requires IsSweep(e) && !IsTerminal(j.row.status) && IsTerminal(Step(j, e).row.status)
    ensures Step(j, e).row.Outcome() ==
            if j.row.status == Printing || (j.row.status == Claimed && j.row.Evidenced()) then Unknown else NotPrinted
  {
    if e.EvExpire? {
      MarkedByPrefix(2, EXPIRED_TEXT);
      MarkedByPrefix(3, EXPIRED_TEXT);
    } else if e.EvSilent? {
      MarkedByPrefix(3, SILENT_TEXT);
    } else if e.EvPrinting? {
      MarkedByPrefix(0, TIMEOUT_TEXT);
      MarkedByPrefix(2, EXPIRED_TEXT);
    } else {
      ExhaustedTextIsUnmarked();
    }
  }

  // ------------------------------------------------------------ termination

  /** A report of "expired" that lands on a row which has ended in another way. */
  predicate ExpiresTerminal(j: Job, e: Event) {
    && e.EvReportWrite? && (e.agent, e.plan) in j.plans && e.plan.PlanExpire?
    && (j.row.status == Success || j.row.status == Failed) && PlanMatches(j.row, e.agent, e.plan, e.at)
  }

  function Rank(s: Status): nat {
    match s
    case Claimed => 4
    case Queued => 3
    case Printing => 3
    case Failed => 1
    case Expired => 1
    case Success => 0
  }

  function Measure(j: Job): int { 5 * (MAX_CLAIMS - j.claims) + Rank(j.row.status) }

  /** Every status change, and every re-claim, uses up some of the measure. */
  lemma MeasureDrops(j: Job, e: Event)
    requires Inv(j) && !ExpiresTerminal(j, e)
    ensures 0 <= Measure(Step(j, e)) <= Measure(j)
    ensures Step(j, e).row.status != j.row.status || Step(j, e).claims != j.claims ==> Measure(Step(j, e)) < Measure(j)
  {
    StepKeepsInv(j, e);
  }

  function StatusChanges(j: Job, run: seq<Event>): nat
    decreases |run|
  {
    if run == [] then 0
    else
      var j1 := Step(j, run[0]);
      (if j1.row.status != j.row.status then 1 else 0) + StatusChanges(j1, run[1..])
  }

  predicate NeverExpiresTerminal(j: Job, run: seq<Event>)
    decreases |run|
  {
    run == [] || (!ExpiresTerminal(j, run[0]) && NeverExpiresTerminal(Step(j, run[0]), run[1..]))
  }

  lemma {:induction false} StatusChangesBounded(j: Job, run: seq<Event>)
    requires Inv(j) && NeverExpiresTerminal(j, run)
    ensures StatusChanges(j, run) <= Measure(j)
    decreases |run|
  {
    if run != [] {
      MeasureDrops(j, run[0]);
      StepKeepsInv(j, run[0]);
      StatusChangesBounded(Step(j, run[0]), run[1..]);
    } else {
      StepKeepsInv(j, EvExpire(0));
    }
  }

  /** However long the run, a fresh job changes status at most 48 times. */
  lemma HistoryIsFinite(r: Row, run: seq<Event>)
    requires IsInitial(r) && NeverExpiresTerminal(Fresh(r), run)
    ensures StatusChanges(Fresh(r), run) <= 48
  {
    StatusChangesBounded(Fresh(r), run);
  }

  /**
    A terminal status changes only to success, except when a report of "expired" lands on
    a success or failed row: the promise "terminal is final, up to a late success" holds of a
    step if and only if that step is not such a report.
   */
  lemma TerminalSteps(j: Job, e: Event)
    requires Inv(j) && IsTerminal(j.row.status)
    ensures Step(j, e).row.status in {j.row.status, Success} <==> !ExpiresTerminal(j, e)
    ensures ExpiresTerminal(j, e) ==> Step(j, e).row.status == Expired
    ensures !ExpiresTerminal(j, e) && j.row.status == Success ==> Step(j, e).row == j.row
  {}

  /** A terminal row outside that exception changes status at most once more, and then to success for good. */
  lemma {:induction false} TerminalChangesOnce(j: Job, run: seq<Event>)
    requires Inv(j) && IsTerminal(j.row.status) && NeverExpiresTerminal(j, run)
    ensures StatusChanges(j, run) <= (if j.row.status == Success then 0 else 1)
    ensures After(j, run).row.status in {j.row.status, Success}
    decreases |run|
  {
    if run != [] {
      TerminalSteps(j, run[0]);
      StepKeepsInv(j, run[0]);
      TerminalChangesOnce(Step(j, run[0]), run[1..]);
    }
  }
}
