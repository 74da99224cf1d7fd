/**
  Admission and unwinding are quiet: they touch neither paper, nor locks, nor ledger, and no
  run between its ledger check and its last report.  The invariants about printing only have
  to look at the other steps.
 */
module AgentQuiet {
  import opened Executor
  import opened AgentState

  /** The phases that the ledger, the locks and the final report depend on. */
  predicate Core(ph: Phase) {
    ph.Beginning? || ph.Reporting? || ph.Aborting? || ph.Authorized? || ph.Printing? || ph.Recording? || ph.Final?
  }

  /** The phases a run can be in once it has opened its segment. */
  predicate Past(ph: Phase) {
    ph.Printing? || ph.Recording? || ph.Final? || ph.Leaving? || ph.Unexecuted? || ph.Forgotten? || ph.Unpended?
  }

  /** A run keeps its job, stays past printing once it is, and core runs are not touched. */
  predicate Ages(was: Run, now: Run) {
    && now.job == was.job && (Past(was.phase) ==> Past(now.phase))
    && (Core(was.phase) || Core(now.phase) ==> now == was)
  }

  predicate QuietRuns(was: map<RunId, Run>, now: map<RunId, Run>, nextRun: RunId) {
    && (forall r :: r in now && r in was ==> Ages(was[r], now[r]))
    && (forall r :: r in now && r !in was ==> r == nextRun && !Core(now[r].phase))
    && (forall r :: r in was && Core(was[r].phase) ==> r in now)
  }

  predicate Quiet(s: State, t: State) {
    && QuietRuns(s.runs, t.runs, s.nextRun) && s.nextRun <= t.nextRun
    && t.segs == s.segs && t.paper == s.paper && t.locks == s.locks && t.ledger == s.ledger
    && t.up == s.up && t.exposed == s.exposed && t.reopened == s.reopened && t.reprint == s.reprint
    && (t.reports == s.reports || ReportsOnly(s, t, RQueued))
    && (forall r :: r in t.runs && r !in s.runs ==> s.up && r < t.nextRun)
  }

  /** One more report, and it has the given status. */
  predicate ReportsOnly(s: State, t: State, status: ReportStatus) {
    |t.reports| == |s.reports| + 1 && t.reports[..|s.reports|] == s.reports && t.reports[|s.reports|].status == status
  }

  /** `base` is s with only its books changed, or a rejection reported. */
  lemma QuietMove(s: State, base: State, r: RunId, ph: Phase)
    requires r in s.runs && !Core(s.runs[r].phase) && !Core(ph) && (Past(s.runs[r].phase) ==> Past(ph))
    requires Quiet(s, base) && base.runs == s.runs
    ensures Quiet(s, SetPhase(base, r, ph))
  {}

  lemma AdmissionIsQuiet(s: State, e: AdmissionEvent)
    requires s.nextRun !in s.runs
    ensures Quiet(s, StepAdmission(s, e))
  {
    match e
    case Deliver(d, now) => if s.up { DeliverIsQuiet(s, d, now); }
    case TakeSlot(r) => if At(s, r, Registered) { SlotIsQuiet(s, r); }
    case DropOverflow(r) => if At(s, r, Overflow) { ForgetIsQuiet(s, r, OverflowForgotten); }
    case OverflowDone(r) => if At(s, r, OverflowForgotten) { OverflowDoneIsQuiet(s, r); }
    case SendReject(r) => if At(s, r, Rejecting) { RejectIsQuiet(s, r); }
    case TakeExec(r) => if At(s, r, Waiting) { TakeExecIsQuiet(s, r); }
    case CancelWait(r) => if At(s, r, Waiting) { CancelIsQuiet(s, r); }
    case RejectCancelled(r) => if At(s, r, Cancelled) { RejectCancelledIsQuiet(s, r); }
  }

  lemma DeliverIsQuiet(s: State, d: Delivery, now: Time)
    requires s.up && s.nextRun !in s.runs
    ensures Quiet(s, StepDeliver(s, d, now))
  {
    if s.stopping {
      NewIsQuiet(s, s.books, Run(d, Rejecting));
    } else if InFlight(s.books, d.id) {
      AdoptIsQuiet(s, d, now);
    } else {
      NewIsQuiet(s, Register(s.books, d, s.nextRun, now), Run(d, Registered));
    }
  }

  lemma AdoptIsQuiet(s: State, d: Delivery, now: Time)
    ensures Quiet(s, s.(books := Adopt(s.books, d, now)))
  {}

  lemma NewIsQuiet(s: State, b: Books, run: Run)
    requires s.up && s.nextRun !in s.runs && !Core(run.phase)
    ensures Quiet(s, s.(books := b, runs := s.runs[s.nextRun := run], nextRun := s.nextRun + 1))
  {}

  lemma CancelIsQuiet(s: State, r: RunId)
    requires At(s, r, Waiting)
    ensures Quiet(s, SetPhase(s, r, Cancelled))
  {
    QuietMove(s, s, r, Cancelled);
  }

  lemma RejectCancelledIsQuiet(s: State, r: RunId)
    requires At(s, r, Cancelled)
    ensures Quiet(s, SetPhase(Report(s, r, RQueued), r, Unexecuted))
  {
    QuietMove(s, Report(s, r, RQueued), r, Unexecuted);
  }

  lemma SlotIsQuiet(s: State, r: RunId)
    requires At(s, r, Registered)
    ensures Quiet(s, StepSlot(s, r))
  {
    if s.books.pending < MAX_PENDING_JOBS {
      TakeSlotIsQuiet(s, r);
    } else {
      QuietMove(s, s, r, Overflow);
    }
  }

  lemma TakeSlotIsQuiet(s: State, r: RunId)
    requires At(s, r, Registered)
    ensures Quiet(s, StepTakeSlot(s, r))
  {
    QuietMove(s, s.(books := s.books.(pending := s.books.pending + 1)), r, Waiting);
  }

  lemma ForgetIsQuiet(s: State, r: RunId, next: Phase)
    requires (At(s, r, Overflow) && next == OverflowForgotten) || (At(s, r, Unexecuted) && next == Forgotten)
    ensures Quiet(s, StepForget(s, r, next))
  {
    QuietMove(s, s.(books := Forget(s.books, s.runs[r].job.id)), r, next);
  }

  lemma OverflowDoneIsQuiet(s: State, r: RunId)
    requires At(s, r, OverflowForgotten)
    ensures Quiet(s, StepOverflowDone(s, r))
  {
    QuietMove(s, s.(books := StepOverflowDone(s, r).books), r, Rejecting);
  }

  lemma RejectIsQuiet(s: State, r: RunId)
    requires At(s, r, Rejecting)
    ensures Quiet(s, StepSendReject(s, r))
  {}

  lemma TakeExecIsQuiet(s: State, r: RunId)
    requires At(s, r, Waiting)
    ensures Quiet(s, StepTakeExec(s, r))
  {
    QuietMove(s, s.(books := s.books.(exec := s.books.exec + 1)), r, Checking);
  }

  lemma UnwindingIsQuiet(s: State, e: UnwindingEvent)
    ensures Quiet(s, StepUnwinding(s, e))
  {
    match e
    case FreeExec(r) => if At(s, r, Leaving) { FreeExecIsQuiet(s, r); }
    case ForgetRun(r) => if At(s, r, Unexecuted) { ForgetIsQuiet(s, r, Forgotten); }
    case FreePending(r) => if At(s, r, Forgotten) { FreePendingIsQuiet(s, r); }
    case Done(r) => if At(s, r, Unpended) { DoneIsQuiet(s, r); }
  }

  lemma FreeExecIsQuiet(s: State, r: RunId)
    requires At(s, r, Leaving)
    ensures Quiet(s, StepFreeExec(s, r))
  {
    QuietMove(s, s.(books := StepFreeExec(s, r).books), r, Unexecuted);
  }

  lemma FreePendingIsQuiet(s: State, r: RunId)
    requires At(s, r, Forgotten)
    ensures Quiet(s, StepFreePending(s, r))
  {
    QuietMove(s, s.(books := StepFreePending(s, r).books), r, Unpended);
  }

  lemma DoneIsQuiet(s: State, r: RunId)
    requires At(s, r, Unpended)
    ensures Quiet(s, StepDone(s, r))
  {}
}
