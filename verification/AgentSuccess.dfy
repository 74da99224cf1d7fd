/**
  Success means printed.  As long as no transport claims to have taken everything when it has
  not, a success row, and every success report, is about a job whose whole document was
  accepted by one printer in one piece.  Crashes, lost ledger writes and deleted rows do not matter.
 */
module AgentSuccess {
  import opened Ledger
  import opened Verdicts
  import opened Executor
  import opened AgentState
  import opened AgentQuiet
  import opened AgentPaper
  import opened AgentSegments

  /** Some segment holds the whole document of a delivery of this job. */
  ghost predicate Full(segs: Segs, id: JobId) {
    exists p, i :: HasSegment(segs, p, i) && FullSegment(segs[p][i], id)
  }

  predicate FullSegment(g: Segment, id: JobId) { g.id == id && g.sent == |g.data| }

  ghost predicate LedgerFull(ledger: Verdicts, segs: Segs) {
    forall id :: id in ledger && ledger[id] == VSuccess ==> Full(segs, id)
  }

  ghost predicate FinalsFull(runs: Runs, segs: Segs) {
    forall r :: r in runs && runs[r].phase == Final(RSuccess) ==> Full(segs, runs[r].job.id)
  }

  ghost predicate ReportsFull(reports: seq<Sent>, segs: Segs) {
    forall k :: 0 <= k < |reports| && reports[k].status == RSuccess ==> Full(segs, reports[k].id)
  }

  /** If the transport said that it took everything, it did. */
  predicate TrueRun(run: Run) {
    run.phase.Recording? && run.phase.answer == AllTaken ==> run.phase.sent == |run.job.data|
  }

  predicate AllTrue(runs: Runs) { forall r :: r in runs ==> TrueRun(runs[r]) }

  ghost predicate SuccessInv(s: State) {
    AllTrue(s.runs) && LedgerFull(s.ledger, s.segs) && FinalsFull(s.runs, s.segs) && ReportsFull(s.reports, s.segs)
  }

  /** A transport claims to have taken the whole document and has not. */
  predicate FalseSuccess(s: State, e: Event) {
    && e.Output? && e.o.TransportReturns? && e.o.answer == AllTaken
    && e.o.r in s.runs && s.runs[e.o.r].phase.Printing? && s.runs[e.o.r].phase.sent != |s.runs[e.o.r].job.data|
  }

  // ------------------------------------------------------------ segments only grow

  /** Every segment stays where it is and full segments stay full. */
  ghost predicate Grows(segs: Segs, after: Segs) {
    forall p, i :: HasSegment(segs, p, i) ==>
      && HasSegment(after, p, i) && after[p][i].id == segs[p][i].id
      && (segs[p][i].sent == |segs[p][i].data| ==> after[p][i].sent == |after[p][i].data|)
  }

  lemma FullGrows(segs: Segs, after: Segs, id: JobId)
    requires Grows(segs, after) && Full(segs, id)
    ensures Full(after, id)
  {
    var p, i :| HasSegment(segs, p, i) && FullSegment(segs[p][i], id);
    assert HasSegment(after, p, i) && FullSegment(after[p][i], id);
  }

  lemma AllGrow(s: State, after: Segs)
    requires LedgerFull(s.ledger, s.segs) && FinalsFull(s.runs, s.segs) && ReportsFull(s.reports, s.segs)
             && Grows(s.segs, after)
    ensures LedgerFull(s.ledger, after) && FinalsFull(s.runs, after) && ReportsFull(s.reports, after)
  {
    forall id | Full(s.segs, id)
      ensures Full(after, id)
    {
      FullGrows(s.segs, after, id);
    }
  }

  lemma AppendedGrows(segs: Segs, p: PrinterId, g: Segment)
    ensures Grows(segs, Appended(segs, p, g))
  {}

  lemma RegrownGrows(segs: Segs, r: RunId, run: Run, n: nat)
    requires run.phase.Printing? && Open(segs, r, run) && run.phase.sent + n <= |run.job.data|
    ensures Grows(segs, Regrown(segs, run.job.printer, GrownBy(r, run, n)))
  {
    RegrownAt(segs, run.job.printer, GrownBy(r, run, n));
  }

  // ------------------------------------------------------------ what a moving run must show

  lemma RunsMove(runs: Runs, segs: Segs, r: RunId, to: Run)
    requires AllTrue(runs) && FinalsFull(runs, segs) && TrueRun(to)
    requires to.phase == Final(RSuccess) ==> Full(segs, to.job.id)
    ensures AllTrue(runs[r := to]) && FinalsFull(runs[r := to], segs)
  {}

  /** No row becomes success. */
  predicate NoNewSuccess(was: Verdicts, now: Verdicts) {
    forall id :: id in now && now[id] == VSuccess ==> id in was && was[id] == VSuccess
  }

  lemma LedgerMoves(was: Verdicts, now: Verdicts, segs: Segs)
    requires LedgerFull(was, segs) && NoNewSuccess(was, now)
    ensures LedgerFull(now, segs)
  {}

  lemma ReportsMove(reports: seq<Sent>, segs: Segs, x: Sent)
    requires ReportsFull(reports, segs) && (x.status == RSuccess ==> Full(segs, x.id))
    ensures ReportsFull(reports + [x], segs)
  {}

  // ------------------------------------------------------------ steps

  lemma QuietKeepsSuccess(s: State, t: State)
    requires SuccessInv(s) && Quiet(s, t)
    ensures SuccessInv(t)
  {
    QuietRunsKeep(s.runs, t.runs, s.segs, s.nextRun);
    if t.reports != s.reports {
      assert t.reports == s.reports + [t.reports[|s.reports|]];
      ReportsMove(s.reports, s.segs, t.reports[|s.reports|]);
    }
  }

  lemma QuietRunsKeep(was: Runs, now: Runs, segs: Segs, nextRun: RunId)
    requires AllTrue(was) && FinalsFull(was, segs) && QuietRuns(was, now, nextRun)
    ensures AllTrue(now) && FinalsFull(now, segs)
  {
    forall r | r in now
      ensures TrueRun(now[r]) && (now[r].phase == Final(RSuccess) ==> Full(segs, now[r].job.id))
    {
      assert r in was ==> Ages(was[r], now[r]) && TrueRun(was[r]);
    }
  }

  lemma StepKeepsSuccess(s: State, e: Event)
    requires PaperInv(s) && SuccessInv(s) && !FalseSuccess(s, e)
    ensures SuccessInv(Step(s, e))
  {
    match e
    case Admission(a) => AdmissionIsQuiet(s, a); QuietKeepsSuccess(s, StepAdmission(s, a));
    case Checks(c) => CheckingKeepsSuccess(s, c);
    case Output(o) => OutputKeepsSuccess(s, o);
    case Unwinding(u) => UnwindingIsQuiet(s, u); QuietKeepsSuccess(s, StepUnwinding(s, u));
    case World(w) => WorldKeepsSuccess(s, w);
  }

  lemma CheckingKeepsSuccess(s: State, e: CheckingEvent)
    requires SuccessInv(s)
    ensures SuccessInv(StepChecking(s, e))
  {
    match e
    case Check(r, found) => if At(s, r, Checking) { CheckKeepsSuccess(s, r, found); }
    case LockForBegin(r) => if At(s, r, WantsBegin) { LockKeepsSuccess(s, r); }
    case BeginNow(r, seen, dbOk) => if At(s, r, Beginning) { BeginKeepsSuccess(s, r, seen, dbOk); }
    case HandBack(r) => if At(s, r, HandingBack) { ReportKeepsSuccess(s, r, RQueued, Leaving); }
    case ReportPrinting(r, result, at) =>
      if At(s, r, Reporting) {
        ReportKeepsSuccess(s, r, RPrinting, if MayDispatch(s, s.runs[r].job, result, at) then Authorized else Aborting);
      }
    case AbortNow(r, dbOk) => if At(s, r, Aborting) { AbortKeepsSuccess(s, r, dbOk); }
  }

  lemma CheckKeepsSuccess(s: State, r: RunId, found: CheckResult)
    requires SuccessInv(s) && At(s, r, Checking)
    ensures SuccessInv(SetPhase(s, r, CheckLeadsTo(s, s.runs[r].job.id, found)))
  {
    RunsMove(s.runs, s.segs, r, s.runs[r].(phase := CheckLeadsTo(s, s.runs[r].job.id, found)));
  }

  lemma LockKeepsSuccess(s: State, r: RunId)
    requires SuccessInv(s) && At(s, r, WantsBegin)
    ensures SuccessInv(StepLockForBegin(s, r))
  {
    RunsMove(s.runs, s.segs, r, s.runs[r].(phase := Beginning));
  }

  lemma BeginFields(s: State, r: RunId, seen: bool, dbOk: bool)
    requires r in s.runs
    ensures StepBegin(s, r, seen, dbOk).segs == s.segs && StepBegin(s, r, seen, dbOk).up == s.up
    ensures StepBegin(s, r, seen, dbOk).reprint == s.reprint
    ensures StepBegin(s, r, seen, dbOk).exposed == ExposedAfterBegin(s, s.runs[r].job.id, dbOk)
    ensures StepBegin(s, r, seen, dbOk).reopened == ReopenedAfterBegin(s, s.runs[r].job.id, dbOk)
    ensures StepBegin(s, r, seen, dbOk).reports == s.reports
    ensures StepBegin(s, r, seen, dbOk).ledger == LedgerAfterBegin(s, s.runs[r].job.id, dbOk)
    ensures StepBegin(s, r, seen, dbOk).runs
            == s.runs[r := s.runs[r].(phase := BeginLeadsTo(s, s.runs[r].job.id, seen, dbOk))]
  {}

  lemma BeginKeepsSuccess(s: State, r: RunId, seen: bool, dbOk: bool)
    requires SuccessInv(s) && At(s, r, Beginning)
    ensures SuccessInv(StepBegin(s, r, seen, dbOk))
  {
    BeginFields(s, r, seen, dbOk);
    RunsMove(s.runs, s.segs, r, s.runs[r].(phase := BeginLeadsTo(s, s.runs[r].job.id, seen, dbOk)));
    LedgerMoves(s.ledger, LedgerAfterBegin(s, s.runs[r].job.id, dbOk), s.segs);
  }

  lemma ReportKeepsSuccess(s: State, r: RunId, status: ReportStatus, ph: Phase)
    requires SuccessInv(s) && r in s.runs && TrueRun(s.runs[r].(phase := ph)) && ph != Final(RSuccess)
    requires status == RSuccess ==> Full(s.segs, s.runs[r].job.id)
    ensures SuccessInv(SetPhase(Report(s, r, status), r, ph))
  {
    RunsMove(s.runs, s.segs, r, s.runs[r].(phase := ph));
    ReportsMove(s.reports, s.segs, Sent(r, s.runs[r].job.id, status, ReportToken(s.books, s.runs[r].job)));
  }

  lemma AbortKeepsSuccess(s: State, r: RunId, dbOk: bool)
    requires SuccessInv(s) && At(s, r, Aborting)
    ensures SuccessInv(StepAbort(s, r, dbOk))
  {
    RunsMove(s.runs, s.segs, r, s.runs[r].(phase := Leaving));
    LedgerMoves(s.ledger, StepAbort(s, r, dbOk).ledger, s.segs);
  }

  lemma OutputKeepsSuccess(s: State, e: OutputEvent)
    requires PaperInv(s) && SuccessInv(s) && !FalseSuccess(s, Output(e))
    ensures SuccessInv(StepOutput(s, e))
  {
    match e
    case LockForPrint(r, seen) => if At(s, r, Authorized) { OpenKeepsSuccess(s, r, seen); }
    case SendBytes(r, n) =>
      if r in s.runs && s.runs[r].phase.Printing? && s.runs[r].phase.sent + n <= |s.runs[r].job.data| {
        SendKeepsSuccess(s, r, n);
      }
    case TransportReturns(r, answer) =>
      if r in s.runs && s.runs[r].phase.Printing? {
        ReturnKeepsSuccess(s, r, answer);
      }
    case Record(r, dbOk) => if r in s.runs && s.runs[r].phase.Recording? { RecordKeepsSuccess(s, r, dbOk); }
    case SendFinal(r) =>
      if r in s.runs && s.runs[r].phase.Final? {
        ReportKeepsSuccess(s, r, s.runs[r].phase.status, Leaving);
      }
  }

  lemma OpenKeepsSuccess(s: State, r: RunId, seen: bool)
    requires SuccessInv(s) && At(s, r, Authorized)
    ensures SuccessInv(StepLockForPrint(s, r, s.runs[r].job, seen))
  {
    if seen && Processed(s, s.runs[r].job.id) {
      RunsMove(s.runs, s.segs, r, s.runs[r].(phase := Leaving));
    } else {
      NewSegmentKeepsSuccess(s, r);
    }
  }

  lemma NewSegmentKeepsSuccess(s: State, r: RunId)
    requires SuccessInv(s) && At(s, r, Authorized)
    ensures SuccessInv(SetPhase(OpenSegment(s, r, s.runs[r].job), r, Printing(0)))
  {
    var after := OpenSegment(s, r, s.runs[r].job).segs;
    AppendedGrows(s.segs, s.runs[r].job.printer, Segment(r, s.runs[r].job.id, s.runs[r].job.data, 0));
    AllGrow(s, after);
    RunsMove(s.runs, after, r, s.runs[r].(phase := Printing(0)));
  }

  lemma SendKeepsSuccess(s: State, r: RunId, n: nat)
    requires SuccessInv(s) && r in s.runs && s.runs[r].phase.Printing? && Open(s.segs, r, s.runs[r])
    requires s.runs[r].phase.sent + n <= |s.runs[r].job.data|
    ensures SuccessInv(StepSendBytes(s, r, s.runs[r].job, s.runs[r].phase.sent, n))
  {
    var after := Regrown(s.segs, s.runs[r].job.printer, GrownBy(r, s.runs[r], n));
    RegrownGrows(s.segs, r, s.runs[r], n);
    AllGrow(s, after);
    RunsMove(s.runs, after, r, s.runs[r].(phase := Printing(s.runs[r].phase.sent + n)));
  }

  lemma ReturnKeepsSuccess(s: State, r: RunId, answer: Answer)
    requires SuccessInv(s) && r in s.runs && s.runs[r].phase.Printing?
    requires answer == AllTaken ==> s.runs[r].phase.sent == |s.runs[r].job.data|
    ensures SuccessInv(StepTransportReturns(s, r, answer))
  {
    RunsMove(s.runs, s.segs, r, s.runs[r].(phase := Recording(s.runs[r].phase.sent, answer)));
  }

  /** A transport that took everything leaves a full segment behind. */
  lemma AllTakenIsFull(segs: Segs, r: RunId, run: Run)
    requires run.phase.Recording? && run.phase.answer == AllTaken && TrueRun(run) && Open(segs, r, run)
    ensures Full(segs, run.job.id)
  {
    var p, i := run.job.printer, |segs[run.job.printer]| - 1;
    assert HasSegment(segs, p, i) && FullSegment(segs[p][i], run.job.id);
  }

  lemma RecordFields(s: State, r: RunId, dbOk: bool)
    requires r in s.runs && s.runs[r].phase.Recording?
    ensures RecordShape(s, StepRecord(s, r, s.runs[r].phase.sent, s.runs[r].phase.answer, dbOk), r, dbOk)
  {}

  /** What recording changes, as far as this invariant is concerned. */
  predicate RecordShape(s: State, t: State, r: RunId, dbOk: bool)
    requires r in s.runs && s.runs[r].phase.Recording?
  {
    && t.segs == s.segs && t.reports == s.reports && t.up == s.up && t.reopened == s.reopened
    && t.exposed == ExposedAfterRecord(s, s.runs[r].job.id, s.runs[r].phase.sent, s.runs[r].phase.answer, dbOk)
    && t.ledger == LedgerAfterRecord(s.ledger, s.runs[r].job.id, s.runs[r].phase.answer, dbOk)
    && t.runs == s.runs[r :=
       s.runs[r].(phase := Final(if s.runs[r].phase.answer == AllTaken then RSuccess else RFailed))]
  }

  lemma RecordKeepsSuccess(s: State, r: RunId, dbOk: bool)
    requires SuccessInv(s) && r in s.runs && s.runs[r].phase.Recording? && Open(s.segs, r, s.runs[r])
    ensures SuccessInv(StepRecord(s, r, s.runs[r].phase.sent, s.runs[r].phase.answer, dbOk))
  {
    RecordFields(s, r, dbOk);
    RecordKeepsSuccessIn(s, StepRecord(s, r, s.runs[r].phase.sent, s.runs[r].phase.answer, dbOk), r, dbOk);
  }

  lemma RecordKeepsSuccessIn(s: State, t: State, r: RunId, dbOk: bool)
    requires SuccessInv(s) && r in s.runs && s.runs[r].phase.Recording? && Open(s.segs, r, s.runs[r])
    requires RecordShape(s, t, r, dbOk)
    ensures SuccessInv(t)
  {
    if s.runs[r].phase.answer == AllTaken {
      AllTakenIsFull(s.segs, r, s.runs[r]);
    }
    RunsMove(s.runs, s.segs, r,
        s.runs[r].(phase := Final(if s.runs[r].phase.answer == AllTaken then RSuccess else RFailed)));
  }

  lemma WorldKeepsSuccess(s: State, e: WorldEvent)
    requires SuccessInv(s)
    ensures SuccessInv(StepWorld(s, e))
  {
    match e
    case Restart(missed) =>
      if !s.up { LedgerMoves(s.ledger, StepRestart(s, missed).ledger, s.segs); }
    case CleanUp => LedgerMoves(s.ledger, VCleaned(s.ledger), s.segs);
    case Purge => LedgerMoves(s.ledger, VPurged(s.ledger), s.segs);
    case _ =>
  }
}
