/**
  Runs that exist.  They show that the bounds of JobRuns are tight, and that two promises of
  the job lifecycle fail for a named family of runs.
 */
module JobWitnesses {
  import opened Wrappers
  import opened JobStatus
  import opened JobRows
  import opened JobRuns

  ghost predicate Reaches(r: Row, j: Job) {
    exists run :: After(Fresh(r), run) == j
  }

  lemma Start(r: Row)
    ensures Reaches(r, Fresh(r))
  {
    assert After(Fresh(r), []) == Fresh(r);
  }

  lemma Extend(r: Row, j: Job, e: Event)
    requires Reaches(r, j)
    ensures Reaches(r, Step(j, e))
  {
    var run :| After(Fresh(r), run) == j;
    AfterAppend(Fresh(r), run, [e]);
    AfterOne(j, e);
    assert After(Fresh(r), run + [e]) == Step(j, e);
  }

  /** A job of agent "a" that can still be claimed at time 0 and whose minted tokens are at most n long. */
  predicate Claimable(j: Job, n: nat) {
    && j.row.agent == "a" && 0 < j.row.expiresAt
    && j.row.status == Queued && j.row.token == None && !j.row.Evidenced()
    && j.row.attempts < MAX_DELIVERY_ATTEMPTS && j.row.retries < MAX_RETRIES
    && forall t :: t in j.minted ==> |t| <= n
  }

  function LongToken(n: nat): Token { seq(n + 1, _ => 't') }

  lemma DoClaim(r: Row, j: Job, n: nat) returns (k: Job)
    requires Reaches(r, j) && Claimable(j, n)
    ensures Reaches(r, k) && k.row == Claim(j.row, 0, LongToken(n)) && k.row.HeldUnder(LongToken(n))
    ensures k.claims == j.claims + 1 && k.refunds == j.refunds && k.minted == j.minted + {LongToken(n)}
  {
    assert |LongToken(n)| == n + 1;
    assert NewToken(j, LongToken(n));
    k := Step(j, EvClaim(0, LongToken(n)));
    Extend(r, j, EvClaim(0, LongToken(n)));
  }

  /** Claimed, then handed back by the agent: the delivery charge is refunded, a retry is spent. */
  lemma ClaimAndReject(r: Row, j: Job, n: nat) returns (k: Job)
    requires Reaches(r, j) && Claimable(j, n)
    ensures Reaches(r, k) && k.row.status == Queued && k.row.token == None && !k.row.Evidenced()
    ensures k.row.agent == "a" && k.row.expiresAt == j.row.expiresAt
    ensures k.row.attempts == j.row.attempts && k.row.retries == j.row.retries + 1
    ensures k.claims == j.claims + 1
    ensures forall t :: t in k.minted ==> |t| <= n + 1
  {
    var c := DoClaim(r, j, n);
    k := RejectByAgent(r, c, LongToken(n));
  }

  lemma RejectByAgent(r: Row, c: Job, t: Token) returns (k: Job)
    requires Reaches(r, c) && c.row.agent == "a" && c.row.status == Claimed && c.row.token == Some(t)
             && 0 < c.row.attempts
    ensures Reaches(r, k) && k.row.status == Queued && k.row.token == None && !k.row.Evidenced()
    ensures k.row.agent == "a" && k.row.expiresAt == c.row.expiresAt
    ensures k.row.attempts == c.row.attempts - 1 && k.row.retries == c.row.retries + 1
    ensures k.claims == c.claims && k.minted == c.minted
  {
    var rep := Report(Queued, Some(t), None, PendingFull);
    var read := EvReportRead("a", rep, 0);
    var c1 := Step(c, read);
    Extend(r, c, read);
    var plan := PlanReject(Some(t), PendingFull);
    assert Decide(c.row, "a", rep, 0) == Some(plan);
    var write := EvReportWrite("a", plan, 0);
    k := Step(c1, write);
    Extend(r, c1, write);
  }

  /** Claimed, then released undelivered: the delivery charge stays. */
  lemma ClaimAndRelease(r: Row, j: Job, n: nat) returns (k: Job)
    requires Reaches(r, j) && Claimable(j, n) && j.row.attempts < 4
    ensures Reaches(r, k) && Claimable(k, n + 1)
    ensures k.row.attempts == j.row.attempts + 1 && k.row.retries == j.row.retries
    ensures k.claims == j.claims + 1
  {
    var c := DoClaim(r, j, n);
    assert |LongToken(n)| == n + 1;
    k := ReleaseByGateway(r, c, LongToken(n));
  }

  lemma ReleaseByGateway(r: Row, c: Job, t: Token) returns (k: Job)
    requires Reaches(r, c) && UndeliveredClaim(c.row, "a", Some(t)) && c.row.attempts < MAX_DELIVERY_ATTEMPTS
    ensures Reaches(r, k) && k.row.status == Queued && k.row.token == None && !k.row.Evidenced()
    ensures k.row.agent == "a" && k.row.expiresAt == c.row.expiresAt
    ensures k.row.attempts == c.row.attempts && k.row.retries == c.row.retries
    ensures k.claims == c.claims && k.minted == c.minted
  {
    k := Step(c, EvReleaseRequeue("a", Some(t), "no socket", 0));
    Extend(r, c, EvReleaseRequeue("a", Some(t), "no socket", 0));
  }

  /** Rejected twice in a row. */
  lemma RejectTwice(r: Row, j: Job, n: nat) returns (k: Job)
    requires Reaches(r, j) && Claimable(j, n) && j.row.retries < 3
    ensures Reaches(r, k) && Claimable(k, n + 2)
    ensures k.row.attempts == j.row.attempts && k.row.retries == j.row.retries + 2
    ensures k.row.expiresAt == j.row.expiresAt && k.claims == j.claims + 2
  {
    k := ClaimAndReject(r, j, n);
    k := ClaimAndReject(r, k, n + 1);
  }

  lemma ReleaseTwice(r: Row, j: Job, n: nat) returns (k: Job)
    requires Reaches(r, j) && Claimable(j, n) && j.row.attempts < 3
    ensures Reaches(r, k) && Claimable(k, n + 2)
    ensures k.row.attempts == j.row.attempts + 2 && k.claims == j.claims + 2
  {
    k := ClaimAndRelease(r, j, n);
    k := ClaimAndRelease(r, k, n + 1);
  }

  lemma FourRejections(r: Row) returns (j: Job)
    requires IsInitial(r) && r.agent == "a" && 0 < r.expiresAt
    ensures Reaches(r, j) && Claimable(j, 4)
    ensures j.row.attempts == 0 && j.row.retries == 4 && j.claims == 4 && j.row.expiresAt == r.expiresAt
  {
    Start(r);
    j := RejectTwice(r, Fresh(r), 0);
    j := RejectTwice(r, j, 2);
  }

  /** The bound of nine claims is reached: four rejections, four releases and a last claim. */
  lemma NineClaimsHappen(r: Row)
    requires IsInitial(r) && r.agent == "a" && 0 < r.expiresAt
    ensures exists j :: Reaches(r, j) && j.claims == 9
  {
    var j := FourRejections(r);
    j := ReleaseTwice(r, j, 4);
    j := ReleaseTwice(r, j, 6);
    j := DoClaim(r, j, 8);
  }

  /** A poll takes over a claim that has been silent for a full lease. */
  lemma PollTakesOver(r: Row, j: Job, n: nat) returns (k: Job)
    requires Reaches(r, j) && j.row.agent == "a" && j.row.status == Claimed && !j.row.Evidenced()
             && j.row.updatedAt == 0
    requires j.row.retries == 4 && j.row.attempts == 1 && STALE_CLAIM_MS + 1 < j.row.expiresAt
    requires forall t :: t in j.minted ==> |t| <= n
    ensures Reaches(r, k) && k.row.status == Claimed && k.row.token == Some(LongToken(n))
    ensures k.row.agent == "a" && k.row.retries == 5 && k.row.attempts == 2
  {
    assert |LongToken(n)| == n + 1;
    assert NewToken(j, LongToken(n));
    k := Step(j, EvPollClaim(STALE_CLAIM_MS + 1, LongToken(n)));
    Extend(r, j, EvPollClaim(STALE_CLAIM_MS + 1, LongToken(n)));
  }

  /**
    The retry budget can be overrun by one: a poll re-claims a stale claim at retries 4,
    which makes it 5, and the rejection of that claim is not gated on the budget.
   */
  lemma SixRetriesHappen(r: Row)
    requires IsInitial(r) && r.agent == "a" && STALE_CLAIM_MS + 1 < r.expiresAt
    ensures exists j :: Reaches(r, j) && j.row.retries == 6 && j.row.status == Queued
  {
    var j := FourRejections(r);
    j := DoClaim(r, j, 4);
    assert |LongToken(4)| == 5;
    j := PollTakesOver(r, j, 5);
    j := RejectByAgent(r, j, LongToken(5));
  }

  // ------------------------------------------------------------ terminal rows that move

  function SuccessReport(t: Token): Report { Report(Success, Some(t), None, OtherReason) }
  function ExpiredReport(t: Token): Report { Report(Expired, Some(t), None, OtherReason) }

  /** A success row under token t, within five minutes after its TTL. */
  predicate JustExpiredSuccess(j: Job, t: Token, now: Time) {
    j.row.status == Success && j.row.token == Some(t) && 0 <= now - j.row.expiresAt <= EXPIRED_LATE_SUCCESS_GRACE_MS
  }

  /** Four events: the agent reports "expired", then "success", with the token the row still carries. */
  function Flip(j: Job, t: Token, now: Time): seq<Event> {
    var a := j.row.agent;
    var read1 := EvReportRead(a, ExpiredReport(t), now);
    var write1 := EvReportWrite(a, PlanExpire(Some(t), Success, None), now);
    var read2 := EvReportRead(a, SuccessReport(t), now);
    var note := Truncated(PRINTED_POST_EXPIRATION_MARKER + ": late" + "");
    var write2 := EvReportWrite(a, PlanPostExpiry(Some(t), note), now);
    [read1, write1, read2, write2]
  }

  lemma AfterTwo(j: Job, a: Event, b: Event, rest: seq<Event>)
    ensures After(j, [a, b] + rest) == After(Step(Step(j, a), b), rest)
    ensures StatusChanges(j, [a, b] + rest) ==
            (if Step(j, a).row.status != j.row.status then 1 else 0)
            + (if Step(Step(j, a), b).row.status != Step(j, a).row.status then 1 else 0)
            + StatusChanges(Step(Step(j, a), b), rest)
  {
    var r0 := [a, b] + rest;
    assert r0[0] == a && r0[1..] == [b] + rest;
    assert ([b] + rest)[0] == b && ([b] + rest)[1..] == rest;
  }

  lemma ReportTwice(j: Job, t: Token, now: Time) returns (k: Job)
    requires t != "" && JustExpiredSuccess(j, t, now)
    ensures var f := Flip(j, t, now);
            && k == Step(Step(j, f[0]), f[1]) && Step(j, f[0]).row == j.row
            && k.row.status == Expired && k.row.token == Some(t) && k.row.expiresAt == j.row.expiresAt
            && k.row.agent == j.row.agent
  {
    var f := Flip(j, t, now);
    assert Decide(j.row, j.row.agent, ExpiredReport(t), now) == Some(f[1].plan);
    k := Step(Step(j, f[0]), f[1]);
  }

  lemma ReportSuccessAgain(j: Job, t: Token, now: Time, read: Event, write: Event) returns (k: Job)
    requires t != "" && j.row.status == Expired && j.row.token == Some(t)
    requires 0 <= now - j.row.expiresAt <= EXPIRED_LATE_SUCCESS_GRACE_MS
    requires read == EvReportRead(j.row.agent, SuccessReport(t), now)
    requires write == EvReportWrite(j.row.agent, PlanPostExpiry(Some(t),
                        Truncated(PRINTED_POST_EXPIRATION_MARKER + ": late" + "")), now)
    ensures k == Step(Step(j, read), write) && Step(j, read).row == j.row
    ensures JustExpiredSuccess(k, t, now)
  {
    assert Decide(j.row, j.row.agent, SuccessReport(t), now) == Some(write.plan);
    k := Step(Step(j, read), write);
  }

  lemma FlipReturns(j: Job, t: Token, now: Time, rest: seq<Event>)
    requires t != "" && JustExpiredSuccess(j, t, now)
    ensures JustExpiredSuccess(After(j, Flip(j, t, now)), t, now)
    ensures After(j, Flip(j, t, now) + rest) == After(After(j, Flip(j, t, now)), rest)
    ensures StatusChanges(j, Flip(j, t, now) + rest) == 2 + StatusChanges(After(j, Flip(j, t, now)), rest)
  {
    var f := Flip(j, t, now);
    var k := ReportTwice(j, t, now);
    var l := ReportSuccessAgain(k, t, now, f[2], f[3]);
    AfterAppend(j, f, rest);
    AfterTwo(j, f[0], f[1], [f[2], f[3]] + rest);
    AfterTwo(k, f[2], f[3], rest);
    assert f + rest == [f[0], f[1]] + ([f[2], f[3]] + rest);
    AfterTwo(j, f[0], f[1], [f[2], f[3]] + []);
    AfterTwo(k, f[2], f[3], []);
    assert f == [f[0], f[1]] + ([f[2], f[3]] + []);
  }

  /**
    Without the exception of TerminalSteps the history has no bound: a success row whose TTL
    has just passed can be flipped to expired and back any number of times.
   */
  lemma {:induction false} HistoryIsUnboundedOtherwise(j: Job, t: Token, now: Time, n: nat) returns (run: seq<Event>)
    requires t != "" && JustExpiredSuccess(j, t, now)
    ensures StatusChanges(j, run) == 2 * n
    decreases n
  {
    if n == 0 {
      run := [];
    } else {
      FlipReturns(j, t, now, []);
      var rest := HistoryIsUnboundedOtherwise(After(j, Flip(j, t, now)), t, now, n - 1);
      FlipReturns(j, t, now, rest);
      run := Flip(j, t, now) + rest;
    }
  }

  /**
    A report of "expired" read from and landing on a terminal row erases what the row said:
    printed or unknown, the outcome becomes "not printed".
   */
  lemma ExpiryReportErasesOutcome(j: Job, t: Token, now: Time)
    requires IsTerminal(j.row.status) && j.row.token == Some(t) && j.row.expiresAt <= now
    ensures var j1 := Step(j, EvReportRead(j.row.agent, ExpiredReport(t), now));
            var j2 := Step(j1, EvReportWrite(j.row.agent, PlanExpire(Some(t), j.row.status, None), now));
            j2.row.status == Expired && j2.row.Outcome() == NotPrinted
  {}

  // ------------------------------------------------------------ from a fresh row

  /** An accepted status report: its read and its write, at time 0, by the holder of the claim. */
  lemma Reported(r: Row, c: Job, t: Token, to: Status) returns (k: Job)
    requires Reaches(r, c) && c.row.agent == "a" && c.row.HeldUnder(t)
    requires (c.row.status == Claimed && to == Printing) || (c.row.status == Printing && to == Success)
    ensures Reaches(r, k) && k.row.agent == "a" && k.row.status == to && k.row.token == Some(t)
    ensures k.row.expiresAt == c.row.expiresAt
  {
    var rep := Report(to, Some(t), None, OtherReason);
    var plan := PlanMove(Some(t), c.row.status, to, None);
    assert Decide(c.row, "a", rep, 0) == Some(plan);
    var c1 := ReadAs(r, c, rep, plan);
    k := Step(c1, EvReportWrite("a", plan, 0));
    Extend(r, c1, EvReportWrite("a", plan, 0));
    MoveLands(c1.row, plan);
  }

  lemma MoveLands(row: Row, plan: Plan)
    requires plan.PlanMove? && FencedJobWrite(row, "a", plan.observed, plan.token)
    ensures var k := ApplyPlan(row, "a", plan, 0);
            k.agent == row.agent && k.status == plan.to && k.token == row.token && k.expiresAt == row.expiresAt
  {}

  lemma ReadAs(r: Row, c: Job, rep: Report, plan: Plan) returns (k: Job)
    requires Reaches(r, c) && Decide(c.row, "a", rep, 0) == Some(plan)
    ensures Reaches(r, k) && k.row == c.row && ("a", plan) in k.plans
  {
    k := Step(c, EvReportRead("a", rep, 0));
    Extend(r, c, EvReportRead("a", rep, 0));
  }

  /** A fresh job can be claimed, printed and reported, so that its TTL finds it a success. */
  lemma SuccessHappens(r: Row) returns (j: Job)
    requires IsInitial(r) && r.agent == "a" && 0 < r.expiresAt
    ensures Reaches(r, j) && j.row.agent == "a" && JustExpiredSuccess(j, LongToken(0), r.expiresAt)
  {
    Start(r);
    j := DoClaim(r, Fresh(r), 0);
    j := Reported(r, j, LongToken(0), Printing);
    j := Reported(r, j, LongToken(0), Success);
  }

  lemma {:induction false} ChangesAppend(j: Job, a: seq<Event>, b: seq<Event>)
    ensures StatusChanges(j, a + b) == StatusChanges(j, a) + StatusChanges(After(j, a), b)
    decreases |a|
  {
    if a == [] {
      assert a + b == b;
    } else {
      assert (a + b)[0] == a[0] && (a + b)[1..] == a[1..] + b;
      ChangesAppend(Step(j, a[0]), a[1..], b);
    }
  }

  /** From a fresh row on: for every n there is a run in which the status changes at least 2n times. */
  lemma HistoryIsUnbounded(r: Row, n: nat) returns (run: seq<Event>)
    requires IsInitial(r) && r.agent == "a" && 0 < r.expiresAt
    ensures StatusChanges(Fresh(r), run) >= 2 * n
  {
    var j := SuccessHappens(r);
    assert |LongToken(0)| == 1;
    var before :| After(Fresh(r), before) == j;
    var rest := HistoryIsUnboundedOtherwise(j, LongToken(0), r.expiresAt, n);
    ChangesAppend(Fresh(r), before, rest);
    run := before + rest;
  }

  /** From a fresh row on: a job that was reported printed ends up as one that counts as not printed. */
  lemma PrintedBecomesNotPrinted(r: Row) returns (j: Job, k: Job)
    requires IsInitial(r) && r.agent == "a" && 0 < r.expiresAt
    ensures Reaches(r, j) && j.row.Outcome() == Printed
    ensures Reaches(r, k) && k.row.Outcome() == NotPrinted && k.row.status == Expired
    ensures exists run :: After(j, run) == k
  {
    j := SuccessHappens(r);
    var read := EvReportRead(j.row.agent, ExpiredReport(LongToken(0)), r.expiresAt);
    var write := EvReportWrite(j.row.agent, PlanExpire(Some(LongToken(0)), j.row.status, None), r.expiresAt);
    ExpiryReportErasesOutcome(j, LongToken(0), r.expiresAt);
    Extend(r, j, read);
    Extend(r, Step(j, read), write);
    k := Step(Step(j, read), write);
    AfterTwo(j, read, write, []);
    assert [read, write] + [] == [read, write];
    assert After(j, [read, write]) == k;
  }
}
