/**
  Progress.  A run's phases only advance, the agent is never deadlocked, and from every state
  all runs can be brought to their end in a bounded number of their own steps.
 */
module AgentProgress {
  import opened Ledger
  import opened Verdicts
  import opened Executor
  import opened AgentState
  import opened AgentBooks
  import opened AgentPaper
  import opened AgentOnce
  import opened AgentRuns

  const LAST: int := 14

  /** How far a phase lies on the way from registration to the end. */
  function Rank(ph: Phase): (k: int)
    ensures 0 <= k < LAST
  {
    match ph
    case Registered => 0
    case Overflow => 1
    case Waiting => 1
    case OverflowForgotten => 2
    case Cancelled => 2
    case Checking => 2
    case Rejecting => 3
    case WantsBegin => 3
    case Beginning => 4
    case Reporting => 5
    case Aborting => 6
    case Authorized => 6
    case Printing(_) => 7
    case Recording(_, _) => 8
    case HandingBack => 9
    case Final(_) => 9
    case Leaving => 10
    case Unexecuted => 11
    case Forgotten => 12
    case Unpended => 13
  }

  /** The run is as it was, or further on with the same job. */
  predicate Advances(was: Run, now: Run) {
    now == was
    || (now.job == was.job
       && (Rank(was.phase) < Rank(now.phase)
          || (was.phase.Printing? && now.phase.Printing? && was.phase.sent < now.phase.sent)))
  }

  predicate AllAdvance(was: map<RunId, Run>, now: map<RunId, Run>) {
    forall r :: r in was && r in now ==> Advances(was[r], now[r])
  }

  lemma MoveAdvances(s: State, base: State, r: RunId, ph: Phase)
    requires r in s.runs && base.runs == s.runs && Advances(s.runs[r], s.runs[r].(phase := ph))
    ensures AllAdvance(s.runs, SetPhase(base, r, ph).runs)
  {}

  lemma RunAdvances(runs: map<RunId, Run>, r: RunId, to: Run)
    requires r in runs && Advances(runs[r], to)
    ensures AllAdvance(runs, runs[r := to])
  {}

  /** No step sets a run back: whatever happens, each run is further on, unchanged or gone. */
  lemma PhasesOnlyAdvance(s: State, e: Event)
    requires s.nextRun !in s.runs
    ensures AllAdvance(s.runs, Step(s, e).runs)
  {
    match e
    case Admission(a) => AdmissionAdvances(s, a);
    case Checks(c) => CheckingAdvances(s, c);
    case Output(o) => OutputAdvances(s, o);
    case Unwinding(u) => UnwindingAdvances(s, u);
    case World(w) => WorldAdvances(s, w);
  }

  lemma RecordRuns(s: State, r: RunId, dbOk: bool)
    requires r in s.runs && s.runs[r].phase.Recording?
    ensures StepRecord(s, r, s.runs[r].phase.sent, s.runs[r].phase.answer, dbOk).runs
            == s.runs[r := s.runs[r].(phase := Final(if s.runs[r].phase.answer == AllTaken then RSuccess else RFailed))]
  {}

  lemma BeginRuns(s: State, r: RunId, seen: bool, dbOk: bool)
    requires r in s.runs
    ensures StepBegin(s, r, seen, dbOk).runs
            == s.runs[r := s.runs[r].(phase := BeginLeadsTo(s, s.runs[r].job.id, seen, dbOk))]
  {}

  lemma WorldAdvances(s: State, e: WorldEvent)
    ensures AllAdvance(s.runs, StepWorld(s, e).runs)
  {}

  lemma AdmissionAdvances(s: State, e: AdmissionEvent)
    requires s.nextRun !in s.runs
    ensures AllAdvance(s.runs, StepAdmission(s, e).runs)
  {
    match e
    case Deliver(d, now) => DeliverAdvances(s, d, now);
    case TakeSlot(r) => if At(s, r, Registered) { SlotAdvances(s, r); }
    case DropOverflow(r) =>
      if At(s, r, Overflow) { MoveAdvances(s, s.(books := Forget(s.books, s.runs[r].job.id)), r, OverflowForgotten); }
    case OverflowDone(r) =>
      if At(s, r, OverflowForgotten) { MoveAdvances(s, s.(books := StepOverflowDone(s, r).books), r, Rejecting); }
    case SendReject(r) =>
    case TakeExec(r) => TakeExecAdvances(s, r);
    case CancelWait(r) => if At(s, r, Waiting) { MoveAdvances(s, s, r, Cancelled); }
    case RejectCancelled(r) => if At(s, r, Cancelled) { MoveAdvances(s, Report(s, r, RQueued), r, Unexecuted); }
  }

  lemma DeliverAdvances(s: State, d: Delivery, now: Time)
    requires s.nextRun !in s.runs
    ensures AllAdvance(s.runs, StepDeliver(s, d, now).runs)
  {
    if s.stopping {
      assert StepTurnAway(s, d).runs == s.runs[s.nextRun := Run(d, Rejecting)];
    } else if !InFlight(s.books, d.id) {
      assert StepRegister(s, d, now).runs == s.runs[s.nextRun := Run(d, Registered)];
    }
  }

  lemma SlotAdvances(s: State, r: RunId)
    requires At(s, r, Registered)
    ensures AllAdvance(s.runs, StepSlot(s, r).runs)
  {
    if s.books.pending < MAX_PENDING_JOBS {
      MoveAdvances(s, s.(books := s.books.(pending := s.books.pending + 1)), r, Waiting);
    } else {
      MoveAdvances(s, s, r, Overflow);
    }
  }

  lemma TakeExecAdvances(s: State, r: RunId)
    ensures AllAdvance(s.runs, StepAdmission(s, TakeExec(r)).runs)
  {
    if At(s, r, Waiting) { MoveAdvances(s, s.(books := s.books.(exec := s.books.exec + 1)), r, Checking); }
  }

  lemma CheckingAdvances(s: State, e: CheckingEvent)
    ensures AllAdvance(s.runs, StepChecking(s, e).runs)
  {
    match e
    case Check(r, found) => if At(s, r, Checking) { CheckAdvances(s, r, found); }
    case LockForBegin(r) => LockForBeginAdvances(s, r);
    case BeginNow(r, seen, dbOk) => if At(s, r, Beginning) { BeginAdvances(s, r, seen, dbOk); }
    case HandBack(r) => if At(s, r, HandingBack) { HandBackAdvances(s, r); }
    case ReportPrinting(r, result, at) => if At(s, r, Reporting) { ReportAdvances(s, r, result, at); }
    case AbortNow(r, dbOk) => AbortAdvances(s, r, dbOk);
  }

  lemma CheckAdvances(s: State, r: RunId, found: CheckResult)
    requires At(s, r, Checking)
    ensures AllAdvance(s.runs, SetPhase(s, r, CheckLeadsTo(s, s.runs[r].job.id, found)).runs)
  {
    MoveAdvances(s, s, r, CheckLeadsTo(s, s.runs[r].job.id, found));
  }

  lemma HandBackAdvances(s: State, r: RunId)
    requires At(s, r, HandingBack)
    ensures AllAdvance(s.runs, SetPhase(Report(s, r, RQueued), r, Leaving).runs)
  {
    MoveAdvances(s, Report(s, r, RQueued), r, Leaving);
  }

  lemma LockForBeginAdvances(s: State, r: RunId)
    ensures AllAdvance(s.runs, StepChecking(s, LockForBegin(r)).runs)
  {
    if At(s, r, WantsBegin) { MoveAdvances(s, s.(locks := s.locks[s.runs[r].job.printer := r]), r, Beginning); }
  }

  lemma AbortAdvances(s: State, r: RunId, dbOk: bool)
    ensures AllAdvance(s.runs, StepChecking(s, AbortNow(r, dbOk)).runs)
  {
    if At(s, r, Aborting) {
      MoveAdvances(s, s.(ledger := if dbOk then VAbort(s.ledger, s.runs[r].job.id) else s.ledger), r, Leaving);
    }
  }

  lemma BeginAdvances(s: State, r: RunId, seen: bool, dbOk: bool)
    requires At(s, r, Beginning)
    ensures AllAdvance(s.runs, StepBegin(s, r, seen, dbOk).runs)
  {
    BeginRuns(s, r, seen, dbOk);
    RunAdvances(s.runs, r, s.runs[r].(phase := BeginLeadsTo(s, s.runs[r].job.id, seen, dbOk)));
  }

  lemma ReportAdvances(s: State, r: RunId, result: ReportResult, at: Time)
    requires At(s, r, Reporting)
    ensures AllAdvance(s.runs, StepReportPrinting(s, r, result, at).runs)
  {
    MoveAdvances(s, Report(s, r, RPrinting), r,
                 if MayDispatch(s, s.runs[r].job, result, at) then Authorized else Aborting);
  }

  lemma OutputAdvances(s: State, e: OutputEvent)
    ensures AllAdvance(s.runs, StepOutput(s, e).runs)
  {
    match e
    case LockForPrint(r, seen) => if At(s, r, Authorized) { LockAdvances(s, r, seen); }
    case SendBytes(r, n) => SendAdvances(s, r, n);
    case TransportReturns(r, answer) =>
      if r in s.runs && s.runs[r].phase.Printing? { MoveAdvances(s, s, r, Recording(s.runs[r].phase.sent, answer)); }
    case Record(r, dbOk) => if r in s.runs && s.runs[r].phase.Recording? { RecordAdvances(s, r, dbOk); }
    case SendFinal(r) =>
      if r in s.runs && s.runs[r].phase.Final? { MoveAdvances(s, Report(s, r, s.runs[r].phase.status), r, Leaving); }
  }

  lemma LockAdvances(s: State, r: RunId, seen: bool)
    requires At(s, r, Authorized)
    ensures AllAdvance(s.runs, StepLockForPrint(s, r, s.runs[r].job, seen).runs)
  {
    MoveAdvances(s, s, r, Leaving);
    MoveAdvances(s, OpenSegment(s, r, s.runs[r].job), r, Printing(0));
  }

  lemma SendAdvances(s: State, r: RunId, n: nat)
    ensures AllAdvance(s.runs, StepOutput(s, SendBytes(r, n)).runs)
  {
    if r in s.runs && s.runs[r].phase.Printing? && s.runs[r].phase.sent + n <= |s.runs[r].job.data| {
      MoveAdvances(s, Emit(s, r, s.runs[r].job, s.runs[r].phase.sent, n), r, Printing(s.runs[r].phase.sent + n));
    }
  }

  lemma RecordAdvances(s: State, r: RunId, dbOk: bool)
    requires r in s.runs && s.runs[r].phase.Recording?
    ensures AllAdvance(s.runs, StepRecord(s, r, s.runs[r].phase.sent, s.runs[r].phase.answer, dbOk).runs)
  {
    RecordRuns(s, r, dbOk);
    RunAdvances(s.runs, r,
        s.runs[r].(phase := Final(if s.runs[r].phase.answer == AllTaken then RSuccess else RFailed)));
  }

  lemma UnwindingAdvances(s: State, e: UnwindingEvent)
    ensures AllAdvance(s.runs, StepUnwinding(s, e).runs)
  {
    match e
    case FreeExec(r) => if At(s, r, Leaving) { MoveAdvances(s, s, r, Unexecuted); }
    case ForgetRun(r) => if At(s, r, Unexecuted) { MoveAdvances(s, s, r, Forgotten); }
    case FreePending(r) => if At(s, r, Forgotten) { MoveAdvances(s, s, r, Unpended); }
    case Done(r) =>
  }

  // ------------------------------------------------------------ no deadlock

  /** A run that has to wait for another: for an execution slot, or for its printer. */
  predicate Blocked(s: State, r: RunId)
    requires r in s.runs
  {
    || (s.runs[r].phase == Waiting && s.books.exec >= MAX_CONCURRENT_JOBS)
    || ((s.runs[r].phase == WantsBegin || s.runs[r].phase == Authorized) && s.runs[r].job.printer in s.locks)
  }

  /** A step of the run itself that its phase admits. */
  function OwnStep(s: State, r: RunId): Event
    requires r in s.runs
  {
    match s.runs[r].phase
    case Registered => Admission(TakeSlot(r))
    case Overflow => Admission(DropOverflow(r))
    case OverflowForgotten => Admission(OverflowDone(r))
    case Rejecting => Admission(SendReject(r))
    case Waiting => Admission(TakeExec(r))
    case Cancelled => Admission(RejectCancelled(r))
    case Checking => Checks(Check(r, Fine))
    case WantsBegin => Checks(LockForBegin(r))
    case Beginning => Checks(BeginNow(r, true, true))
    case HandingBack => Checks(HandBack(r))
    case Reporting => Checks(ReportPrinting(r, Accepted, 0))
    case Aborting => Checks(AbortNow(r, true))
    case Authorized => Output(LockForPrint(r, true))
    case Printing(_) => Output(TransportReturns(r, Ambiguous))
    case Recording(_, _) => Output(Record(r, true))
    case Final(_) => Output(SendFinal(r))
    case Leaving => Unwinding(FreeExec(r))
    case Unexecuted => Unwinding(ForgetRun(r))
    case Forgotten => Unwinding(FreePending(r))
    case Unpended => Unwinding(Done(r))
  }

  /** One run is gone or further on; the others are as they were. */
  predicate OneAdvances(was: map<RunId, Run>, now: map<RunId, Run>, r: RunId) {
    && r in was && now.Keys <= was.Keys
    && (r in now ==> Rank(was[r].phase) < Rank(now[r].phase))
    && (forall q :: q in now && q != r ==> now[q] == was[q])
  }

  lemma MoveIsOne(s: State, base: State, r: RunId, ph: Phase)
    requires r in s.runs && base.runs == s.runs && Rank(s.runs[r].phase) < Rank(ph)
    ensures OneAdvances(s.runs, SetPhase(base, r, ph).runs, r)
  {}

  lemma RunIsOne(runs: map<RunId, Run>, r: RunId, to: Run)
    requires r in runs && Rank(runs[r].phase) < Rank(to.phase)
    ensures OneAdvances(runs, runs[r := to], r)
  {}

  lemma OwnStepAdvances(s: State, r: RunId)
    requires r in s.runs && !Blocked(s, r)
    ensures OneAdvances(s.runs, Step(s, OwnStep(s, r)).runs, r)
  {
    match OwnStep(s, r)
    case Admission(a) => OwnAdmission(s, r, a);
    case Checks(c) => OwnCheck(s, r, c);
    case Output(o) => OwnOutput(s, r, o);
    case Unwinding(u) => OwnUnwinding(s, r, u);
  }

  lemma OwnAdmission(s: State, r: RunId, a: AdmissionEvent)
    requires r in s.runs && !Blocked(s, r) && OwnStep(s, r) == Admission(a)
    ensures OneAdvances(s.runs, StepAdmission(s, a).runs, r)
  {
    match a
    case TakeSlot(_) => OwnSlot(s, r);
    case DropOverflow(_) => MoveIsOne(s, s.(books := Forget(s.books, s.runs[r].job.id)), r, OverflowForgotten);
    case OverflowDone(_) => OwnOverflowDone(s, r);
    case SendReject(_) => OwnReject(s, r);
    case TakeExec(_) => OwnTakeExec(s, r);
    case RejectCancelled(_) => OwnRejectCancelled(s, r);
  }

  lemma OwnOverflowDone(s: State, r: RunId)
    requires At(s, r, OverflowForgotten)
    ensures OneAdvances(s.runs, StepOverflowDone(s, r).runs, r)
  {
    MoveIsOne(s, s, r, Rejecting);
  }

  lemma OwnReject(s: State, r: RunId)
    requires At(s, r, Rejecting)
    ensures OneAdvances(s.runs, StepSendReject(s, r).runs, r)
  {}

  lemma OwnTakeExec(s: State, r: RunId)
    requires At(s, r, Waiting)
    ensures OneAdvances(s.runs, StepTakeExec(s, r).runs, r)
  {
    MoveIsOne(s, s, r, Checking);
  }

  lemma OwnRejectCancelled(s: State, r: RunId)
    requires At(s, r, Cancelled)
    ensures OneAdvances(s.runs, SetPhase(Report(s, r, RQueued), r, Unexecuted).runs, r)
  {
    MoveIsOne(s, Report(s, r, RQueued), r, Unexecuted);
  }

  lemma OwnSlot(s: State, r: RunId)
    requires At(s, r, Registered)
    ensures OneAdvances(s.runs, StepSlot(s, r).runs, r)
  {
    if s.books.pending < MAX_PENDING_JOBS {
      MoveIsOne(s, s.(books := s.books.(pending := s.books.pending + 1)), r, Waiting);
    } else {
      MoveIsOne(s, s, r, Overflow);
    }
  }

  lemma OwnCheck(s: State, r: RunId, c: CheckingEvent)
    requires r in s.runs && !Blocked(s, r) && OwnStep(s, r) == Checks(c)
    ensures OneAdvances(s.runs, StepChecking(s, c).runs, r)
  {
    match c
    case Check(_, found) => OwnLedgerCheck(s, r, found);
    case LockForBegin(_) => OwnLockForBegin(s, r);
    case BeginNow(_, seen, dbOk) => OwnBegin(s, r, seen, dbOk);
    case HandBack(_) => OwnHandBack(s, r);
    case ReportPrinting(_, result, at) => OwnReport(s, r, result, at);
    case AbortNow(_, dbOk) => OwnAbort(s, r, dbOk);
  }

  lemma OwnLedgerCheck(s: State, r: RunId, found: CheckResult)
    requires At(s, r, Checking)
    ensures OneAdvances(s.runs, SetPhase(s, r, CheckLeadsTo(s, s.runs[r].job.id, found)).runs, r)
  {
    MoveIsOne(s, s, r, CheckLeadsTo(s, s.runs[r].job.id, found));
  }

  lemma OwnHandBack(s: State, r: RunId)
    requires At(s, r, HandingBack)
    ensures OneAdvances(s.runs, SetPhase(Report(s, r, RQueued), r, Leaving).runs, r)
  {
    MoveIsOne(s, Report(s, r, RQueued), r, Leaving);
  }

  lemma OwnLockForBegin(s: State, r: RunId)
    requires At(s, r, WantsBegin)
    ensures OneAdvances(s.runs, StepLockForBegin(s, r).runs, r)
  {
    MoveIsOne(s, s.(locks := s.locks[s.runs[r].job.printer := r]), r, Beginning);
  }

  lemma OwnAbort(s: State, r: RunId, dbOk: bool)
    requires At(s, r, Aborting)
    ensures OneAdvances(s.runs, StepAbort(s, r, dbOk).runs, r)
  {
    MoveIsOne(s, s.(ledger := if dbOk then VAbort(s.ledger, s.runs[r].job.id) else s.ledger), r, Leaving);
  }

  lemma OwnBegin(s: State, r: RunId, seen: bool, dbOk: bool)
    requires At(s, r, Beginning)
    ensures OneAdvances(s.runs, StepBegin(s, r, seen, dbOk).runs, r)
  {
    BeginRuns(s, r, seen, dbOk);
    RunIsOne(s.runs, r, s.runs[r].(phase := BeginLeadsTo(s, s.runs[r].job.id, seen, dbOk)));
  }

  lemma OwnReport(s: State, r: RunId, result: ReportResult, at: Time)
    requires At(s, r, Reporting)
    ensures OneAdvances(s.runs, StepReportPrinting(s, r, result, at).runs, r)
  {
    MoveIsOne(s, Report(s, r, RPrinting), r,
              if MayDispatch(s, s.runs[r].job, result, at) then Authorized else Aborting);
  }

  lemma OwnOutput(s: State, r: RunId, o: OutputEvent)
    requires r in s.runs && !Blocked(s, r) && OwnStep(s, r) == Output(o)
    ensures OneAdvances(s.runs, StepOutput(s, o).runs, r)
  {
    match o
    case LockForPrint(_, seen) => OwnLock(s, r, seen);
    case TransportReturns(_, answer) => OwnReturn(s, r, answer);
    case Record(_, dbOk) => OwnRecord(s, r, dbOk);
    case SendFinal(_) => OwnFinal(s, r);
  }

  lemma OwnReturn(s: State, r: RunId, answer: Answer)
    requires r in s.runs && s.runs[r].phase.Printing?
    ensures OneAdvances(s.runs, StepTransportReturns(s, r, answer).runs, r)
  {
    MoveIsOne(s, s, r, Recording(s.runs[r].phase.sent, answer));
  }

  lemma OwnRecord(s: State, r: RunId, dbOk: bool)
    requires r in s.runs && s.runs[r].phase.Recording?
    ensures OneAdvances(s.runs, StepRecord(s, r, s.runs[r].phase.sent, s.runs[r].phase.answer, dbOk).runs, r)
  {
    RecordRuns(s, r, dbOk);
    RunIsOne(s.runs, r, s.runs[r].(phase := Final(if s.runs[r].phase.answer == AllTaken then RSuccess else RFailed)));
  }

  lemma OwnFinal(s: State, r: RunId)
    requires r in s.runs && s.runs[r].phase.Final?
    ensures OneAdvances(s.runs, SetPhase(Report(s, r, s.runs[r].phase.status), r, Leaving).runs, r)
  {
    MoveIsOne(s, Report(s, r, s.runs[r].phase.status), r, Leaving);
  }

  lemma OwnLock(s: State, r: RunId, seen: bool)
    requires At(s, r, Authorized)
    ensures OneAdvances(s.runs, StepLockForPrint(s, r, s.runs[r].job, seen).runs, r)
  {
    MoveIsOne(s, s, r, Leaving);
    MoveIsOne(s, OpenSegment(s, r, s.runs[r].job), r, Printing(0));
  }

  lemma OwnUnwinding(s: State, r: RunId, u: UnwindingEvent)
    requires r in s.runs && OwnStep(s, r) == Unwinding(u)
    ensures OneAdvances(s.runs, StepUnwinding(s, u).runs, r)
  {
    match u
    case FreeExec(_) => OwnFreeExec(s, r);
    case ForgetRun(_) => OwnForget(s, r);
    case FreePending(_) => OwnFreePending(s, r);
    case Done(_) => OwnDone(s, r);
  }

  lemma OwnDone(s: State, r: RunId)
    requires At(s, r, Unpended)
    ensures OneAdvances(s.runs, StepDone(s, r).runs, r)
  {}

  lemma OwnFreeExec(s: State, r: RunId)
    requires At(s, r, Leaving)
    ensures OneAdvances(s.runs, StepFreeExec(s, r).runs, r)
  {
    MoveIsOne(s, s, r, Unexecuted);
  }

  lemma OwnForget(s: State, r: RunId)
    requires At(s, r, Unexecuted)
    ensures OneAdvances(s.runs, StepForget(s, r, Forgotten).runs, r)
  {
    MoveIsOne(s, s, r, Forgotten);
  }

  lemma OwnFreePending(s: State, r: RunId)
    requires At(s, r, Forgotten)
    ensures OneAdvances(s.runs, StepFreePending(s, r).runs, r)
  {
    MoveIsOne(s, s, r, Unpended);
  }

  /** Whoever holds a printer's lock can go on. */
  lemma HolderCanMove(s: State, p: PrinterId)
    requires LocksMatch(s.locks, s.runs) && p in s.locks
    ensures s.locks[p] in s.runs && !Blocked(s, s.locks[p])
  {
    assert LockedBy(s.runs, p, s.locks[p]);
  }

  /** No deadlock: as long as there are runs, some run can take a step of its own. */
  lemma SomeoneCanMove(s: State) returns (r: RunId)
    requires AgentInv(s) && s.runs != map[]
    ensures r in s.runs && !Blocked(s, r)
  {
    r :| r in s.runs;
    if s.runs[r].phase == Waiting && s.books.exec >= MAX_CONCURRENT_JOBS {
      r := AnExecutor(s);
    }
    if Blocked(s, r) {
      HolderCanMove(s, s.runs[r].job.printer);
      r := s.locks[s.runs[r].job.printer];
    }
  }

  lemma AnExecutor(s: State) returns (r: RunId)
    requires SlotsCounted(s) && s.books.exec > 0
    ensures r in s.runs && Holds(ExecSlot, s.runs[r].phase)
  {
    assert Holders(s.runs, ExecSlot) != {};
    r :| r in Holders(s.runs, ExecSlot);
  }

  // ------------------------------------------------------------ every run can end

  /** One element for each phase a run may still go through, and one for its end. */
  function Ahead(runs: map<RunId, Run>): set<(RunId, int)> {
    set r, k | r in runs && Rank(runs[r].phase) <= k < LAST :: (r, k)
  }

  lemma AheadShrinks(was: map<RunId, Run>, now: map<RunId, Run>, r: RunId)
    requires OneAdvances(was, now, r)
    ensures |Ahead(now)| < |Ahead(was)|
  {
    assert Ahead(now) <= Ahead(was);
    assert (r, Rank(was[r].phase)) in Ahead(was) && (r, Rank(was[r].phase)) !in Ahead(now);
    SmallerSet(Ahead(now), Ahead(was), (r, Rank(was[r].phase)));
  }

  lemma SmallerSet<T>(a: set<T>, b: set<T>, x: T)
    requires a <= b && x in b && x !in a
    ensures |a| < |b|
  {
    assert b == a + (b - a);
    assert x in b - a;
  }

  /**
    From every state the agent can be in, all runs can end by steps of their own, in no more
    steps than they have phases ahead of them; every slot and reservation is then back.
   */
  lemma {:induction false} EveryRunCanEnd(s: State) returns (events: seq<Event>)
    requires AgentInv(s)
    ensures After(s, events).runs == map[] && After(s, events).books == EMPTY_BOOKS
    ensures |events| <= |Ahead(s.runs)|
    decreases |Ahead(s.runs)|
  {
    if s.runs == map[] {
      NoRunsNoBooks(s);
      events := [];
    } else {
      var r := SomeoneCanMove(s);
      OwnStepAdvances(s, r);
      AheadShrinks(s.runs, Step(s, OwnStep(s, r)).runs, r);
      StepInv(s, OwnStep(s, r));
      var rest := EveryRunCanEnd(Step(s, OwnStep(s, r)));
      events := [OwnStep(s, r)] + rest;
      assert events[1..] == rest;
    }
  }
}
