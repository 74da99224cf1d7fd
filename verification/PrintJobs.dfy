/**
  The print_jobs table as an object: the statements of job-delivery.ts and the five bulk
  updates of the sweep change it in place.
 */
module PrintJobs {
  import opened Wrappers
  import opened JobStatus
  import opened JobRows
  import opened JsText

  type JobId = string

  /** Jobs of one agent that are claimed or printing, unexpired, and on a printer that is online right now. */
  function InFlightIds(rows: map<JobId, Row>, agent: string, now: Time, online: set<Text>): set<JobId> {
    set id | id in rows && rows[id].agent == agent && rows[id].Live() && now < rows[id].expiresAt
             && rows[id].printer in online
  }

  datatype ReleaseOutcome = Requeued | GaveUp | Noop

  // ------------------------------------------------------------ the sweep, row by row

  /** The five updates in the order the sweep runs them. */
  datatype Stage = Expiring | Requeuing | Silencing | TimingOut | Exhausting

  /** The clock reading of each of the five statements. */
  datatype Clocks = Clocks(t1: Time, t2: Time, t3: Time, t4: Time, t5: Time)

  function SameInstant(now: Time): Clocks { Clocks(now, now, now, now, now) }

  predicate Ordered(c: Clocks) { c.t1 <= c.t2 <= c.t3 <= c.t4 <= c.t5 }

  predicate InScope(r: Row, scope: Option<string>) { scope == None || scope == Some(r.agent) }

  function SweepRow(r: Row, c: Clocks): Row {
    SweepExhausted(SweepPrinting(SweepSilent(SweepRequeue(SweepExpire(r, c.t1), c.t2), c.t3), c.t4), c.t5)
  }

  /** The one update that takes the row, read off the row as it was before the sweep. */
  function StageOf(r: Row, c: Clocks): Option<Stage> {
    if ExpireMatches(r, c.t1) then Some(Expiring)
    else if RequeueMatches(r, c.t2) then Some(Requeuing)
    else if SilentMatches(r, c.t3) then Some(Silencing)
    else if StalePrintingMatches(r, c.t4) then Some(TimingOut)
    else if ExhaustedMatches(r, c.t5) then Some(Exhausting)
    else None
  }

  predicate StageMatches(r: Row, s: Stage, now: Time) {
    match s
    case Expiring => ExpireMatches(r, now)
    case Requeuing => RequeueMatches(r, now)
    case Silencing => SilentMatches(r, now)
    case TimingOut => StalePrintingMatches(r, now)
    case Exhausting => ExhaustedMatches(r, now)
  }

  function StageEffect(r: Row, s: Stage, now: Time): Row {
    match s
    case Expiring => SweepExpire(r, now)
    case Requeuing => SweepRequeue(r, now)
    case Silencing => SweepSilent(r, now)
    case TimingOut => SweepPrinting(r, now)
    case Exhausting => SweepExhausted(r, now)
  }

  function ClockOf(c: Clocks, s: Stage): Time {
    match s
    case Expiring => c.t1
    case Requeuing => c.t2
    case Silencing => c.t3
    case TimingOut => c.t4
    case Exhausting => c.t5
  }

  /** The five updates never compound: a row is changed by the update StageOf names, once, or not at all. */
  lemma SweepIsOneStage(r: Row, c: Clocks)
    ensures SweepRow(r, c)
            == (if StageOf(r, c).Some? then StageEffect(r, StageOf(r, c).value, ClockOf(c, StageOf(r, c).value)) else r)
    ensures StageOf(r, c).Some? <==> SweepRow(r, c) != r
    ensures StageOf(r, c).Some? <==> SweepRow(r, c).status != r.status
  {}

  /** Nothing is overdue: no TTL, no claim lease and no printing lease has run out. */
  predicate Settled(r: Row, now: Time) {
    && (!IsTerminal(r.status) ==> now < r.expiresAt)
    && (r.status == Claimed ==> now - STALE_CLAIM_MS <= r.updatedAt)
    && (r.status == Printing ==> now - STALE_PRINTING_MS <= r.updatedAt)
  }

  /** One instant for all five statements: afterwards nothing is overdue, and sweeping again changes nothing. */
  lemma SweepIsFixpoint(r: Row, now: Time)
    ensures Settled(SweepRow(r, SameInstant(now)), now)
    ensures SweepRow(SweepRow(r, SameInstant(now)), SameInstant(now)) == SweepRow(r, SameInstant(now))
  {
    SweepIsOneStage(r, SameInstant(now));
    SweepIsOneStage(SweepRow(r, SameInstant(now)), SameInstant(now));
  }

  /**
    The five statements read the clock one after the other.  Whatever was overdue at the
    first reading is settled, except for a stale, undelivered claim whose TTL runs out
    between the first and the second reading: that one is left for the next sweep.
   */
  lemma SweepGap(r: Row, c: Clocks)
    requires Ordered(c)
    ensures Settled(SweepRow(r, c), c.t1) <==>
            !(&& r.status == Claimed && !r.Evidenced() && r.updatedAt < c.t1 - STALE_CLAIM_MS
              && r.retries < MAX_RETRIES && c.t1 < r.expiresAt <= c.t2)
  {
    SweepIsOneStage(r, c);
  }

  // ------------------------------------------------------------ the sweep, table-wide

  function SweepRows(rows: map<JobId, Row>, scope: Option<string>, c: Clocks): map<JobId, Row> {
    map id | id in rows :: if InScope(rows[id], scope) then SweepRow(rows[id], c) else rows[id]
  }

  /** Which update takes which row of the scope. */
  function StageMap(rows: map<JobId, Row>, scope: Option<string>, c: Clocks): map<JobId, Option<Stage>> {
    map id | id in rows && InScope(rows[id], scope) :: StageOf(rows[id], c)
  }

  function PartOf(stages: map<JobId, Option<Stage>>, s: Stage): set<JobId> {
    set id | id in stages && stages[id] == Some(s)
  }

  /** The ids a given update takes. */
  function Taken(rows: map<JobId, Row>, scope: Option<string>, c: Clocks, s: Stage): set<JobId> {
    PartOf(StageMap(rows, scope, c), s)
  }

  function Changed(before: map<JobId, Row>, after: map<JobId, Row>): set<JobId> {
    set id | id in before && id in after && before[id] != after[id]
  }

  lemma FiveParts<T>(a: set<T>, b: set<T>, c: set<T>, d: set<T>, e: set<T>)
    requires a !! b && (a + b) !! c && (a + b + c) !! d && (a + b + c + d) !! e
    ensures |a| + |b| + |c| + |d| + |e| == |a + b + c + d + e|
  {}

  lemma PartsAddUp(stages: map<JobId, Option<Stage>>)
    ensures |PartOf(stages, Expiring)| + |PartOf(stages, Requeuing)| + |PartOf(stages, Silencing)|
            + |PartOf(stages, TimingOut)| + |PartOf(stages, Exhausting)|
            == |set id | id in stages && stages[id].Some?|
  {
    FiveParts(PartOf(stages, Expiring), PartOf(stages, Requeuing), PartOf(stages, Silencing),
              PartOf(stages, TimingOut), PartOf(stages, Exhausting));
    var all := PartOf(stages, Expiring) + PartOf(stages, Requeuing) + PartOf(stages, Silencing)
           + PartOf(stages, TimingOut) + PartOf(stages, Exhausting);
    forall id | id in stages && stages[id].Some?
      ensures id in all
    {
      match stages[id].value
      case Expiring => case Requeuing => case Silencing => case TimingOut => case Exhausting =>
    }
    assert all == (set id | id in stages && stages[id].Some?);
  }

  lemma ChangedIsStaged(rows: map<JobId, Row>, scope: Option<string>, c: Clocks, id: JobId)
    requires id in rows
    ensures id in Changed(rows, SweepRows(rows, scope, c))
        <==> id in StageMap(rows, scope, c) && StageMap(rows, scope, c)[id].Some?
  {
    SweepIsOneStage(rows[id], c);
  }

  /** The five id sets split the changed rows: their sizes add up to the number of rows changed. */
  lemma CountsAddUp(rows: map<JobId, Row>, scope: Option<string>, c: Clocks)
    ensures |Taken(rows, scope, c, Expiring)| + |Taken(rows, scope, c, Requeuing)| + |Taken(rows, scope, c, Silencing)|
            + |Taken(rows, scope, c, TimingOut)| + |Taken(rows, scope, c, Exhausting)|
            == |Changed(rows, SweepRows(rows, scope, c))|
  {
    var stages := StageMap(rows, scope, c);
    PartsAddUp(stages);
    var changed := Changed(rows, SweepRows(rows, scope, c));
    assert changed == set id | id in stages && stages[id].Some? by {
      forall id | id in rows { ChangedIsStaged(rows, scope, c, id); }
    }
  }

  /** Each statement matches, in the state it finds, exactly the rows StageOf assigns to it. */
  lemma StageTrace(r: Row, c: Clocks)
    ensures var r1 := SweepExpire(r, c.t1);
            var r2 := SweepRequeue(r1, c.t2);
            var r3 := SweepSilent(r2, c.t3);
            var r4 := SweepPrinting(r3, c.t4);
            && (ExpireMatches(r, c.t1) <==> StageOf(r, c) == Some(Expiring))
            && (RequeueMatches(r1, c.t2) <==> StageOf(r, c) == Some(Requeuing))
            && (SilentMatches(r2, c.t3) <==> StageOf(r, c) == Some(Silencing))
            && (StalePrintingMatches(r3, c.t4) <==> StageOf(r, c) == Some(TimingOut))
            && (ExhaustedMatches(r4, c.t5) <==> StageOf(r, c) == Some(Exhausting))
            && r1.agent == r2.agent == r3.agent == r4.agent == r.agent
  {}

  /** One UPDATE statement over the table, and the ids it returns. */
  function Bulk(rows: map<JobId, Row>, scope: Option<string>, s: Stage, now: Time): map<JobId, Row> {
    map id | id in rows :: if InScope(rows[id], scope) then StageEffect(rows[id], s, now) else rows[id]
  }

  function Matched(rows: map<JobId, Row>, scope: Option<string>, s: Stage, now: Time): set<JobId> {
    set id | id in rows && InScope(rows[id], scope) && StageMatches(rows[id], s, now)
  }

  /** A row as the statement of a given stage finds it. */
  function RowBefore(r: Row, c: Clocks, s: Stage): Row {
    var r1 := SweepExpire(r, c.t1);
    var r2 := SweepRequeue(r1, c.t2);
    var r3 := SweepSilent(r2, c.t3);
    match s
    case Expiring => r
    case Requeuing => r1
    case Silencing => r2
    case TimingOut => r3
    case Exhausting => SweepPrinting(r3, c.t4)
  }

  /** The table as the statement of a given stage finds it. */
  function Before(rows: map<JobId, Row>, scope: Option<string>, c: Clocks, s: Stage): map<JobId, Row> {
    map id | id in rows :: if InScope(rows[id], scope) then RowBefore(rows[id], c, s) else rows[id]
  }

  lemma BeforeSweep(rows: map<JobId, Row>, scope: Option<string>, c: Clocks)
    ensures Before(rows, scope, c, Expiring) == rows
  {}

  lemma RowBeforeNext(r: Row, c: Clocks)
    ensures StageEffect(RowBefore(r, c, Expiring), Expiring, c.t1) == RowBefore(r, c, Requeuing)
    ensures StageEffect(RowBefore(r, c, Requeuing), Requeuing, c.t2) == RowBefore(r, c, Silencing)
    ensures StageEffect(RowBefore(r, c, Silencing), Silencing, c.t3) == RowBefore(r, c, TimingOut)
    ensures StageEffect(RowBefore(r, c, TimingOut), TimingOut, c.t4) == RowBefore(r, c, Exhausting)
    ensures StageEffect(RowBefore(r, c, Exhausting), Exhausting, c.t5) == SweepRow(r, c)
    ensures forall s: Stage :: RowBefore(r, c, s).agent == r.agent
  {}

  function AfterStage(rows: map<JobId, Row>, scope: Option<string>, c: Clocks, s: Stage): map<JobId, Row> {
    match s
    case Expiring => Before(rows, scope, c, Requeuing)
    case Requeuing => Before(rows, scope, c, Silencing)
    case Silencing => Before(rows, scope, c, TimingOut)
    case TimingOut => Before(rows, scope, c, Exhausting)
    case Exhausting => SweepRows(rows, scope, c)
  }

  /** The statement of stage s takes the table from Before to AfterStage, and returns the ids StageOf gives it. */
  lemma StatementOfStage(rows: map<JobId, Row>, scope: Option<string>, c: Clocks, s: Stage)
    ensures Bulk(Before(rows, scope, c, s), scope, s, ClockOf(c, s)) == AfterStage(rows, scope, c, s)
    ensures Matched(Before(rows, scope, c, s), scope, s, ClockOf(c, s)) == Taken(rows, scope, c, s)
  {
    BulkOfStage(rows, scope, c, s);
    MatchedOfStage(rows, scope, c, s);
  }

  lemma BulkOfStage(rows: map<JobId, Row>, scope: Option<string>, c: Clocks, s: Stage)
    ensures Bulk(Before(rows, scope, c, s), scope, s, ClockOf(c, s)) == AfterStage(rows, scope, c, s)
  {
    var left := Bulk(Before(rows, scope, c, s), scope, s, ClockOf(c, s));
    var right := AfterStage(rows, scope, c, s);
    assert left.Keys == rows.Keys == right.Keys;
    forall id | id in rows
      ensures left[id] == right[id]
    {
      RowBeforeNext(rows[id], c);
    }
  }

  lemma MatchedOfStage(rows: map<JobId, Row>, scope: Option<string>, c: Clocks, s: Stage)
    ensures Matched(Before(rows, scope, c, s), scope, s, ClockOf(c, s)) == Taken(rows, scope, c, s)
  {
    forall id | id in rows { MatchedOnOneRow(rows, scope, c, s, id); }
  }

  lemma MatchedOnOneRow(rows: map<JobId, Row>, scope: Option<string>, c: Clocks, s: Stage, id: JobId)
    requires id in rows
    ensures id in Matched(Before(rows, scope, c, s), scope, s, ClockOf(c, s)) <==> id in Taken(rows, scope, c, s)
  {
    StageTrace(rows[id], c);
    RowBeforeNext(rows[id], c);
  }

  /** Table-wide: sweeping twice at one instant is sweeping once, and no row in scope is overdue afterwards. */
  lemma SecondSweepChangesNothing(rows: map<JobId, Row>, scope: Option<string>, now: Time)
    ensures var swept := SweepRows(rows, scope, SameInstant(now));
            && SweepRows(swept, scope, SameInstant(now)) == swept
            && forall id :: id in swept && InScope(swept[id], scope) ==> Settled(swept[id], now)
  {
    var swept := SweepRows(rows, scope, SameInstant(now));
    var again := SweepRows(swept, scope, SameInstant(now));
    assert swept.Keys == again.Keys == rows.Keys;
    forall id | id in swept
      ensures again[id] == swept[id] && (InScope(swept[id], scope) ==> Settled(swept[id], now))
    {
      SweepIsFixpoint(rows[id], now);
    }
  }

  class PrintJobTable {
    var rows: map<JobId, Row>

    constructor ()
      ensures rows == map[]
    {
      rows := map[];
    }

    /** `online` holds the active, online printers; `agentOnline` says the same of the agent. */
    method ClaimJobForDelivery(
        jobId: JobId, agent: string, now: Time, minted: Token, agentOnline: bool, online: set<Text>)
        returns (claimed: Option<Row>)
      modifies this
      ensures claimed.Some? <==>
              && agentOnline && |InFlightIds(old(rows), agent, now, online)| < MAX_AGENT_IN_FLIGHT_JOBS
              && jobId in old(rows) && old(rows)[jobId].agent == agent && old(rows)[jobId].printer in online
              && ClaimMatches(old(rows)[jobId], now)
      ensures claimed.Some? ==> (claimed.value == Claim(old(rows)[jobId], now, minted)
                                 && rows == old(rows)[jobId := claimed.value])
      ensures claimed.None? ==> rows == old(rows)
    {
      var inFlight := if agentOnline then |InFlightIds(rows, agent, now, online)| else 0;
      if inFlight >= MAX_AGENT_IN_FLIGHT_JOBS {
        return None;
      }
      if jobId !in rows {
        return None;
      }
      var r := rows[jobId];
      if !(r.agent == agent && ClaimMatches(r, now) && agentOnline && r.printer in online) {
        return None;
      }
      rows := rows[jobId := Claim(r, now, minted)];
      return Some(rows[jobId]);
    }

    method MarkJobDelivered(jobId: JobId, agent: string, token: Option<Token>, now: Time) returns (landed: bool)
      modifies this
      ensures landed <==> jobId in old(rows) && FencedDeliveryWrite(old(rows)[jobId], agent, token)
      ensures rows
              == if landed then old(rows)[jobId := MarkDelivered(old(rows)[jobId], agent, token, now)] else old(rows)
    {
      landed := jobId in rows && FencedDeliveryWrite(rows[jobId], agent, token);
      if landed {
        rows := rows[jobId := rows[jobId].(deliveredAt := Some(now), updatedAt := now)];
      }
    }

    method RecordJobAck(jobId: JobId, agent: string, token: Option<Token>, now: Time) returns (landed: bool)
      modifies this
      ensures landed <==> jobId in old(rows) && FencedDeliveryWrite(old(rows)[jobId], agent, token)
      ensures rows == if landed then old(rows)[jobId := RecordAck(old(rows)[jobId], agent, token, now)] else old(rows)
    {
      landed := jobId in rows && FencedDeliveryWrite(rows[jobId], agent, token);
      if landed {
        var r := rows[jobId];
        rows := rows[jobId := r.(ackedAt := Coalesce(r.ackedAt, now), deliveredAt := Coalesce(r.deliveredAt, now),
                                 updatedAt := now)];
      }
    }

    /** The two updates of a release when nothing comes between them. */
    method ReleaseUndeliveredClaim(jobId: JobId, agent: string, token: Option<Token>, reason: string, now: Time)
        returns (outcome: ReleaseOutcome)
      modifies this
      ensures outcome == Noop <==> jobId !in old(rows) || !UndeliveredClaim(old(rows)[jobId], agent, token)
      ensures outcome == Noop ==> rows == old(rows)
      ensures outcome == Requeued ==> (jobId in old(rows) && old(rows)[jobId].attempts < MAX_DELIVERY_ATTEMPTS
                                   && rows == old(rows)[jobId :=
                                      ReleaseRequeue(old(rows)[jobId], agent, token, reason, now)])
      ensures outcome == GaveUp ==> (jobId in old(rows) && old(rows)[jobId].attempts >= MAX_DELIVERY_ATTEMPTS
                                 && rows == old(rows)[jobId :=
                                    ReleaseFail(old(rows)[jobId], agent, token, reason, now)])
    {
      if jobId in rows && ReleaseRequeueMatches(rows[jobId], agent, token) {
        rows := rows[jobId := ReleaseRequeue(rows[jobId], agent, token, reason, now)];
        return Requeued;
      }
      if jobId in rows && ReleaseFailMatches(rows[jobId], agent, token) {
        rows := rows[jobId := ReleaseFail(rows[jobId], agent, token, reason, now)];
        return GaveUp;
      }
      return Noop;
    }

    /** One UPDATE ... RETURNING id; `from` and `c` say which sweep it belongs to. */
    method Execute(scope: Option<string>, s: Stage, now: Time, ghost from: map<JobId, Row>, ghost c: Clocks)
        returns (count: nat)
      requires rows == Before(from, scope, c, s) && now == ClockOf(c, s)
      modifies this
      ensures count == |Taken(from, scope, c, s)|
      ensures rows == AfterStage(from, scope, c, s)
    {
      StatementOfStage(from, scope, c, s);
      var ids := set id | id in rows && InScope(rows[id], scope) && StageMatches(rows[id], s, now);
      rows := map id | id in rows :: if InScope(rows[id], scope) then StageEffect(rows[id], s, now) else rows[id];
      assert ids == Matched(Before(from, scope, c, s), scope, s, now);
      count := |ids|;
    }

    /** Five bulk updates in sequence, each counted by the rows it matched. */
    method SweepPrintJobs(scope: Option<string>, c: Clocks)
        returns (expired: nat, requeued: nat, silent: nat, stalePrinting: nat, exhausted: nat)
      modifies this
      ensures rows == SweepRows(old(rows), scope, c)
      ensures expired == |Taken(old(rows), scope, c, Expiring)|
      ensures requeued == |Taken(old(rows), scope, c, Requeuing)|
      ensures silent == |Taken(old(rows), scope, c, Silencing)|
      ensures stalePrinting == |Taken(old(rows), scope, c, TimingOut)|
      ensures exhausted == |Taken(old(rows), scope, c, Exhausting)|
      ensures expired + requeued + silent + stalePrinting + exhausted == |Changed(old(rows), rows)|
    {
      ghost var from := rows;
      BeforeSweep(from, scope, c);
      expired := Execute(scope, Expiring, c.t1, from, c);
      requeued := Execute(scope, Requeuing, c.t2, from, c);
      silent := Execute(scope, Silencing, c.t3, from, c);
      stalePrinting := Execute(scope, TimingOut, c.t4, from, c);
      exhausted := Execute(scope, Exhausting, c.t5, from, c);
      CountsAddUp(from, scope, c);
    }
  }
}
