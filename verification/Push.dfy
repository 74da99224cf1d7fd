/**
  The WebSocket push: claim a job, send it, prove the hand-over in the database.  Between
  any two of its awaits every other statement may run against the row, any number of times.
 */
module Push {
  import opened Wrappers
  import opened JobStatus
  import opened JobRows
  import opened JobRuns

  datatype PushOutcome = Delivered | NoSocket | NotClaimable | PushRequeued | PushFailed

  /** An evidence write that misses proves that claim t is over, now and for ever. */
  lemma MissedEvidenceRetires(j: Job, agent: string, t: Token, later: seq<Event>)
    requires Inv(j) && t in j.minted && t != "" && j.row.agent == agent
    requires !FencedDeliveryWrite(j.row, agent, Some(t))
    ensures Retired(After(j, later), t)
  {
    RetiredForever(j, t, later);
  }

  /** Releasing a retired claim does nothing, so it can neither requeue nor fail the job. */
  lemma ReleaseOfRetiredIsNoOp(j: Job, agent: string, t: Token, reason: string, now: Time)
    requires Retired(j, t)
    ensures Step(j, EvReleaseRequeue(agent, Some(t), reason, now)).row == j.row
    ensures Step(j, EvReleaseFail(agent, Some(t), reason, now)).row == j.row
  {}

  lemma StepKeepsAgent(j: Job, e: Event)
    ensures Step(j, e).row.agent == j.row.agent
  {}

  lemma {:induction false} RunKeepsAgent(j: Job, run: seq<Event>)
    ensures After(j, run).row.agent == j.row.agent
    decreases |run|
  {
    if run != [] {
      StepKeepsAgent(j, run[0]);
      RunKeepsAgent(Step(j, run[0]), run[1..]);
    }
  }

  class Gateway {
    var job: Job
    /** Everything that has happened to the row since the gateway object was made. */
    ghost var history: seq<Event>
    ghost var origin: Job

    ghost predicate Valid()
      reads this
    {
      Inv(origin) && job == After(origin, history) && Inv(job) && job.row.agent == origin.row.agent
    }

    constructor (start: Job)
      requires Inv(start)
      ensures Valid() && job == start
    {
      job, origin, history := start, start, [];
    }

    /** One statement against the row. */
    method Run(e: Event)
      requires Valid()
      modifies this
      ensures Valid() && origin == old(origin)
      ensures job == Step(old(job), e) && history == old(history) + [e]
    {
      AfterAppend(origin, history, [e]);
      AfterOne(job, e);
      StepKeepsInv(job, e);
      StepKeepsAgent(job, e);
      job := Step(job, e);
      history := history + [e];
    }

    /** What other requests, sweeps and reports do while this push awaits. */
    method Others(ghost t: Token)
      requires Valid()
      modifies this
      ensures Valid() && origin == old(origin)
      ensures t in old(job).minted ==> t in job.minted
      ensures Retired(old(job), t) ==> Retired(job, t)
      ensures old(job).row.HeldUnder(t) && old(job).row.Evidenced() && job.row.HeldUnder(t) ==> job.row.Evidenced()
    {
      ghost var before := job;
      ghost var run: seq<Event> := [];
      var steps: nat := *;
      while steps > 0
        invariant Valid() && origin == old(origin)
        invariant job == After(before, run)
      {
        var e: Event := *;
        AfterAppend(before, run, [e]);
        AfterOne(job, e);
        run := run + [e];
        Run(e);
        steps := steps - 1;
      }
      MintedGrows(before, run);
      if Retired(before, t) {
        RetiredForever(before, t, run);
      }
      if before.row.HeldUnder(t) && job.row.HeldUnder(t) {
        EvidenceKeptAlongRun(before, run, t);
      }
    }

    /**
      claimAndPushJobToAgent.  `admitted` is the ceiling and online check of the claim,
      `accepted` says whether some socket took the frame, `uuid` is the token it mints.
      `stored` is the job right after the evidence write.
     */
    method ClaimAndPush(agent: string, hasSocket: bool, admitted: bool, accepted: bool, uuid: Token, now: Time)
        returns (outcome: PushOutcome, ghost stored: Job)
      requires Valid() && job.row.agent == agent && NewToken(job, uuid)
      modifies this
      ensures Valid()
      ensures !hasSocket ==> outcome == NoSocket && job == old(job)
      // A frame that a socket accepted is never requeued and never failed by the push.
      ensures hasSocket && accepted ==> outcome in {Delivered, NotClaimable}
      // "Delivered" is a database fact about this very claim.
      ensures outcome == Delivered ==>
                hasSocket && admitted && accepted && stored.row.HeldUnder(uuid) && stored.row.deliveredAt.Some?
      ensures outcome == Delivered && job.row.HeldUnder(uuid) ==> job.row.Evidenced()
      // Whatever the push did not report as delivered is no longer held under its claim.
      ensures hasSocket && outcome in {NotClaimable, PushFailed} && uuid in job.minted ==> Retired(job, uuid)
    {
      stored := job;
      if !hasSocket {
        return NoSocket, stored;
      }
      if !(admitted && ClaimMatches(job.row, now)) {
        return NotClaimable, stored;
      }
      Run(EvClaim(now, uuid));
      assert job.row.HeldUnder(uuid) && uuid in job.minted;
      Others(uuid);
      if !accepted {
        var gaveUp := Release(agent, uuid, "websocket delivery failed", now);
        outcome := if gaveUp == Some(true) then PushFailed else PushRequeued;
        return outcome, stored;
      }
      var evidenced := FencedDeliveryWrite(job.row, agent, Some(uuid));
      Run(EvDelivered(agent, Some(uuid), now));
      stored := job;
      Others(uuid);
      if !evidenced {
        var released := Release(agent, uuid, "websocket delivery evidence did not persist", now);
        assert released == None;
        if released == None {
          return NotClaimable, stored;
        }
        outcome := if released == Some(true) then PushFailed else PushRequeued;
        return outcome, stored;
      }
      outcome := Delivered;
    }

    /** The two updates of a release, with others in between: None is "noop", Some(true) is "failed". */
    method Release(agent: string, t: Token, reason: string, now: Time) returns (done: Option<bool>)
      requires Valid() && t in job.minted && job.row.agent == agent
      modifies this
      ensures Valid() && origin == old(origin) && t in job.minted
      ensures Retired(old(job), t) ==> done == None
      ensures done == Some(true) || Retired(old(job), t) ==> Retired(job, t)
    {
      var requeued := ReleaseRequeueMatches(job.row, agent, Some(t));
      Run(EvReleaseRequeue(agent, Some(t), reason, now));
      Others(t);
      if requeued {
        return Some(false);
      }
      var failed := ReleaseFailMatches(job.row, agent, Some(t));
      Run(EvReleaseFail(agent, Some(t), reason, now));
      Others(t);
      return if failed then Some(true) else None;
    }
  }
}
