/**
  Every assumption of AtMostOnce is needed: reprint_after_crash, and each way in which a job
  can be exposed, leads to a second print in a run from a fresh start.
 */
module AgentWitnesses {
  import opened Wrappers
  import opened Bytes
  import opened Ledger
  import opened Verdicts
  import opened Executor
  import opened AgentState
  import opened AgentRuns

  /** What a lone run that started from s leaves alone. */
  predicate Beside(s: State, t: State) {
    t.up && !t.stopping && t.nextRun == s.nextRun + 1 && t.reprint == s.reprint
  }

  /** A lone run of d, started from s, has come to ph; no paper was touched. */
  predicate Alone(s: State, t: State, d: Delivery, ph: Phase, ledger: Verdicts, locked: bool) {
    && Beside(s, t) && t.runs == map[s.nextRun := Run(d, ph)] && t.ledger == ledger && t.paper == s.paper
    && t.locks == (if locked then map[d.printer := s.nextRun] else map[])
    && t.books.exec == 0 && (ph == Registered ==> t.books.pending == 0)
  }

  predicate MayBegin(s: State, id: JobId) {
    !Processed(s, id) && (Lookup(s.ledger, id) == Some(VUnknown) ==> s.reprint) && VBegin(s.ledger, id, s.reprint).Some?
  }

  function Lookup(vs: Verdicts, id: JobId): Option<Verdict> { if id in vs then Some(vs[id]) else None }

  /** Nothing is going on and the ledger lets the job begin. */
  predicate Ready(s: State, d: Delivery) {
    && s.up && !s.stopping && s.runs == map[] && s.locks == map[] && s.books == EMPTY_BOOKS
    && MayBegin(s, d.id) && d.data != []
  }

  lemma Delivered(s: State, d: Delivery)
    requires Ready(s, d)
    ensures Alone(s, Step(s, Admission(Deliver(d, 0))), d, Registered, s.ledger, false)
  {
    assert StepDeliver(s, d, 0) == StepRegister(s, d, 0);
  }

  lemma Slotted(s: State, t: State, d: Delivery)
    requires Alone(s, t, d, Registered, s.ledger, false)
    ensures Alone(s, Step(t, Admission(TakeSlot(s.nextRun))), d, Waiting, s.ledger, false)
  {
    assert StepSlot(t, s.nextRun) == StepTakeSlot(t, s.nextRun);
  }

  /** Past the slots only phase, ledger, lock and paper matter. */
  predicate AtWork(s: State, t: State, d: Delivery, ph: Phase, ledger: Verdicts, locked: bool) {
    && Beside(s, t) && t.runs == map[s.nextRun := Run(d, ph)] && t.ledger == ledger && t.paper == s.paper
    && t.locks == (if locked then map[d.printer := s.nextRun] else map[])
  }

  lemma Executing(s: State, t: State, d: Delivery)
    requires Alone(s, t, d, Waiting, s.ledger, false)
    ensures AtWork(s, Step(t, Admission(TakeExec(s.nextRun))), d, Checking, s.ledger, false)
  {
    assert Step(t, Admission(TakeExec(s.nextRun))) == StepTakeExec(t, s.nextRun);
  }

  lemma Checked(s: State, t: State, d: Delivery)
    requires MayBegin(s, d.id) && AtWork(s, t, d, Checking, s.ledger, false)
    ensures AtWork(s, Step(t, Checks(Check(s.nextRun, Fine))), d, WantsBegin, s.ledger, false)
  {
    assert CheckLeadsTo(t, d.id, Fine) == WantsBegin;
  }

  lemma Locked(s: State, t: State, d: Delivery)
    requires AtWork(s, t, d, WantsBegin, s.ledger, false)
    ensures AtWork(s, Step(t, Checks(LockForBegin(s.nextRun))), d, Beginning, s.ledger, true)
  {
    assert Step(t, Checks(LockForBegin(s.nextRun))) == StepLockForBegin(t, s.nextRun);
  }

  lemma Begun(s: State, t: State, d: Delivery)
    requires MayBegin(s, d.id) && AtWork(s, t, d, Beginning, s.ledger, true)
    ensures AtWork(s, Step(t, Checks(BeginNow(s.nextRun, true, true))), d, Reporting,
            s.ledger[d.id := VPrinting], false)
  {
    assert BeginLeadsTo(t, d.id, true, true) == Reporting;
    assert LedgerAfterBegin(t, d.id, true) == s.ledger[d.id := VPrinting];
    assert t.locks - {d.printer} == map[];
  }

  lemma Authorised(s: State, t: State, d: Delivery)
    requires AtWork(s, t, d, Reporting, s.ledger[d.id := VPrinting], false)
    ensures AtWork(s, Step(t, Checks(ReportPrinting(s.nextRun, Accepted, 0))), d, Authorized,
            s.ledger[d.id := VPrinting], false)
  {
    assert MayDispatch(t, d, Accepted, 0);
  }

  lemma Opened(s: State, t: State, d: Delivery)
    requires AtWork(s, t, d, Authorized, s.ledger[d.id := VPrinting], false)
    ensures AtWork(s, Step(t, Output(LockForPrint(s.nextRun, true))), d, Printing(0), s.ledger[d.id := VPrinting], true)
  {
    assert StepLockForPrint(t, s.nextRun, d, true) == SetPhase(OpenSegment(t, s.nextRun, d), s.nextRun, Printing(0));
  }

  /** The first byte is on paper and the row still says printing. */
  predicate FirstByteOut(s: State, t: State, d: Delivery)
    requires d.data != []
  {
    && Beside(s, t) && t.ledger == s.ledger[d.id := VPrinting] && t.runs == map[s.nextRun := Run(d, Printing(1))]
    && t.paper == s.paper[d.printer := PaperOf(s, d.printer) + [Mark(s.nextRun, d.id, d.data[0])]]
    && t.locks == map[d.printer := s.nextRun]
  }

  lemma FirstByte(s: State, t: State, d: Delivery)
    requires d.data != [] && AtWork(s, t, d, Printing(0), s.ledger[d.id := VPrinting], true)
    ensures FirstByteOut(s, Step(t, Output(SendBytes(s.nextRun, 1))), d)
  {
    assert Step(t, Output(SendBytes(s.nextRun, 1))) == StepSendBytes(t, s.nextRun, d, 0, 1);
    OneMark(s.nextRun, d.id, d.data);
  }

  lemma OneMark(r: RunId, id: JobId, data: seq<byte>)
    requires data != []
    ensures MarksOf(r, id, data[0..1]) == [Mark(r, id, data[0])]
  {
    assert data[0..1] == [data[0]];
    assert [data[0]][..0] == [];
    assert MarksOf(r, id, []) == [];
  }

  /** `t` is reached from `s` by some events. */
  ghost predicate Reaches(s: State, t: State) { exists events :: After(s, events) == t }

  lemma ReachesSelf(s: State)
    ensures Reaches(s, s)
  {
    assert After(s, []) == s;
  }

  lemma ReachesStep(s: State, t: State, e: Event)
    requires Reaches(s, t)
    ensures Reaches(s, Step(t, e))
  {
    var events :| After(s, events) == t;
    AfterSnoc(s, events, e);
  }

  /** From a quiet agent, one delivery can put the first byte of its document on paper. */
  lemma FirstByteHappens(s0: State, s: State, d: Delivery) returns (t: State)
    requires Ready(s, d) && Reaches(s0, s)
    ensures FirstByteOut(s, t, d) && Reaches(s0, t)
  {
    var t1 := BeginHappens(s0, s, d);
    ReachesStep(s0, t1, Checks(ReportPrinting(s.nextRun, Accepted, 0)));
    Authorised(s, t1, d);
    var t2 := Step(t1, Checks(ReportPrinting(s.nextRun, Accepted, 0)));
    ReachesStep(s0, t2, Output(LockForPrint(s.nextRun, true)));
    Opened(s, t2, d);
    var t3 := Step(t2, Output(LockForPrint(s.nextRun, true)));
    ReachesStep(s0, t3, Output(SendBytes(s.nextRun, 1)));
    FirstByte(s, t3, d);
    t := Step(t3, Output(SendBytes(s.nextRun, 1)));
  }

  lemma BeginHappens(s0: State, s: State, d: Delivery) returns (t: State)
    requires Ready(s, d) && Reaches(s0, s)
    ensures AtWork(s, t, d, Reporting, s.ledger[d.id := VPrinting], false) && Reaches(s0, t)
  {
    var t1 := CheckHappens(s0, s, d);
    ReachesStep(s0, t1, Checks(LockForBegin(s.nextRun)));
    Locked(s, t1, d);
    t := Step(t1, Checks(LockForBegin(s.nextRun)));
    ReachesStep(s0, t, Checks(BeginNow(s.nextRun, true, true)));
    Begun(s, t, d);
    t := Step(t, Checks(BeginNow(s.nextRun, true, true)));
  }

  lemma CheckHappens(s0: State, s: State, d: Delivery) returns (t: State)
    requires Ready(s, d) && Reaches(s0, s)
    ensures AtWork(s, t, d, WantsBegin, s.ledger, false) && Reaches(s0, t)
  {
    ReachesStep(s0, s, Admission(Deliver(d, 0)));
    Delivered(s, d);
    var t1 := Step(s, Admission(Deliver(d, 0)));
    ReachesStep(s0, t1, Admission(TakeSlot(s.nextRun)));
    Slotted(s, t1, d);
    var t2 := Step(t1, Admission(TakeSlot(s.nextRun)));
    ReachesStep(s0, t2, Admission(TakeExec(s.nextRun)));
    Executing(s, t2, d);
    var t3 := Step(t2, Admission(TakeExec(s.nextRun)));
    ReachesStep(s0, t3, Checks(Check(s.nextRun, Fine)));
    Checked(s, t3, d);
    t := Step(t3, Checks(Check(s.nextRun, Fine)));
  }

  /** Crash and restart: the row becomes evidence, unless startup misses it. */
  lemma Restarted(s: State, t: State, d: Delivery, missed: set<JobId>)
    requires d.data != [] && FirstByteOut(s, t, d) && (s.reprint || d.id in missed)
    ensures Ready(Step(Step(t, World(Crash)), World(Restart(missed))), d)
    ensures Step(Step(t, World(Crash)), World(Restart(missed))).paper == t.paper
    ensures Step(Step(t, World(Crash)), World(Restart(missed))).nextRun == t.nextRun
  {
    assert Step(Step(t, World(Crash)), World(Restart(missed))) == StepRestart(StepCrash(t), missed);
    assert VMarkAll(t.ledger, missed)[d.id] == if d.id in missed then VPrinting else VUnknown;
  }

  lemma CrashHappens(s0: State, s: State, t: State, d: Delivery, missed: set<JobId>) returns (u: State)
    requires d.data != [] && FirstByteOut(s, t, d) && (s.reprint || d.id in missed) && Reaches(s0, t)
    ensures Reaches(s0, u) && Ready(u, d) && u.paper == t.paper && u.nextRun == t.nextRun
  {
    ReachesStep(s0, t, World(Crash));
    ReachesStep(s0, Step(t, World(Crash)), World(Restart(missed)));
    Restarted(s, t, d, missed);
    u := Step(Step(t, World(Crash)), World(Restart(missed)));
  }

  // ------------------------------------------------------------ a run to its end

  /** A lone run of d is on its way out; the ledger is final and the paper is that of `t`. */
  predicate Ending(s: State, t: State, u: State, d: Delivery, ph: Phase, ledger: Verdicts) {
    && Beside(s, u) && u.runs == map[s.nextRun := Run(d, ph)] && u.ledger == ledger && u.paper == t.paper
    && u.locks == map[]
  }

  lemma Recorded(s: State, t: State, d: Delivery, answer: Answer, dbOk: bool) returns (u: State)
    requires d.data != [] && FirstByteOut(s, t, d)
    ensures u == Step(Step(t, Output(TransportReturns(s.nextRun, answer))), Output(Record(s.nextRun, dbOk)))
    ensures Ending(s, t, u, d, Final(if answer == AllTaken then RSuccess else RFailed),
            LedgerAfterRecord(t.ledger, d.id, answer, dbOk))
  {
    var t1 := Step(t, Output(TransportReturns(s.nextRun, answer)));
    assert t1 == StepTransportReturns(t, s.nextRun, answer);
    u := Step(t1, Output(Record(s.nextRun, dbOk)));
    assert u == StepRecord(t1, s.nextRun, 1, answer, dbOk);
    assert t.locks - {d.printer} == map[];
  }

  lemma FinalSent(s: State, t: State, u: State, d: Delivery, status: ReportStatus, ledger: Verdicts)
    requires Ending(s, t, u, d, Final(status), ledger)
    ensures Ending(s, t, Step(u, Output(SendFinal(s.nextRun))), d, Leaving, ledger)
  {}

  lemma ExecFreed(s: State, t: State, u: State, d: Delivery, ledger: Verdicts)
    requires Ending(s, t, u, d, Leaving, ledger)
    ensures Ending(s, t, Step(u, Unwinding(FreeExec(s.nextRun))), d, Unexecuted, ledger)
  {
    assert Step(u, Unwinding(FreeExec(s.nextRun))) == StepFreeExec(u, s.nextRun);
  }

  lemma JobForgotten(s: State, t: State, u: State, d: Delivery, ledger: Verdicts)
    requires Ending(s, t, u, d, Unexecuted, ledger)
    ensures Ending(s, t, Step(u, Unwinding(ForgetRun(s.nextRun))), d, Forgotten, ledger)
  {
    assert Step(u, Unwinding(ForgetRun(s.nextRun))) == StepForget(u, s.nextRun, Forgotten);
  }

  lemma PendingFreed(s: State, t: State, u: State, d: Delivery, ledger: Verdicts)
    requires Ending(s, t, u, d, Forgotten, ledger)
    ensures Ending(s, t, Step(u, Unwinding(FreePending(s.nextRun))), d, Unpended, ledger)
  {
    assert Step(u, Unwinding(FreePending(s.nextRun))) == StepFreePending(u, s.nextRun);
  }

  /** Nothing is going on any more. */
  predicate Quieted(s: State, t: State, u: State, ledger: Verdicts) {
    Beside(s, u) && u.runs == map[] && u.ledger == ledger && u.paper == t.paper && u.locks == map[]
  }

  lemma RunDone(s: State, t: State, u: State, d: Delivery, ledger: Verdicts)
    requires Ending(s, t, u, d, Unpended, ledger)
    ensures Quieted(s, t, Step(u, Unwinding(Done(s.nextRun))), ledger)
  {
    assert Step(u, Unwinding(Done(s.nextRun))) == StepDone(u, s.nextRun);
  }

  /** The transport answers, the answer is recorded or the write fails, and the run ends. */
  lemma EndHappens(s0: State, s: State, t: State, d: Delivery, answer: Answer, dbOk: bool) returns (u: State)
    requires d.data != [] && FirstByteOut(s, t, d) && Reaches(s0, t)
    ensures Reaches(s0, u) && Quieted(s, t, u, LedgerAfterRecord(t.ledger, d.id, answer, dbOk))
  {
    var ledger := LedgerAfterRecord(t.ledger, d.id, answer, dbOk);
    ReachesStep(s0, t, Output(TransportReturns(s.nextRun, answer)));
    ReachesStep(s0, Step(t, Output(TransportReturns(s.nextRun, answer))), Output(Record(s.nextRun, dbOk)));
    u := Recorded(s, t, d, answer, dbOk);
    ReachesStep(s0, u, Output(SendFinal(s.nextRun)));
    FinalSent(s, t, u, d, if answer == AllTaken then RSuccess else RFailed, ledger);
    u := Step(u, Output(SendFinal(s.nextRun)));
    u := UnwindHappens(s0, s, t, u, d, ledger);
  }

  lemma UnwindHappens(s0: State, s: State, t: State, u0: State, d: Delivery, ledger: Verdicts) returns (u: State)
    requires Ending(s, t, u0, d, Leaving, ledger) && Reaches(s0, u0)
    ensures Reaches(s0, u) && Quieted(s, t, u, ledger)
  {
    ReachesStep(s0, u0, Unwinding(FreeExec(s.nextRun)));
    ExecFreed(s, t, u0, d, ledger);
    var u1 := Step(u0, Unwinding(FreeExec(s.nextRun)));
    ReachesStep(s0, u1, Unwinding(ForgetRun(s.nextRun)));
    JobForgotten(s, t, u1, d, ledger);
    var u2 := Step(u1, Unwinding(ForgetRun(s.nextRun)));
    ReachesStep(s0, u2, Unwinding(FreePending(s.nextRun)));
    PendingFreed(s, t, u2, d, ledger);
    var u3 := Step(u2, Unwinding(FreePending(s.nextRun)));
    ReachesStep(s0, u3, Unwinding(Done(s.nextRun)));
    RunDone(s, t, u3, d, ledger);
    u := Step(u3, Unwinding(Done(s.nextRun)));
  }

  // ------------------------------------------------------------ six ways to print twice

  /** What goes wrong between the two prints; in all of them nothing else does. */
  datatype Mishap =
    | ReprintAfterCrash            // the setting is on, and the agent crashes
    | MissedAtStartup              // the agent crashes, and startup misses the row
    | LostRecord                   // the result cannot be written; no crash
    | FalseRefusal                 // the transport took the document and says that it took nothing
    | CleanedUp                    // the success row is deleted
    | EvidencePurged               // the unknown row is deleted

  /** After the first print: the agent is idle and lets the job begin again. */
  lemma MishapHappens(s: State, t: State, d: Delivery, m: Mishap) returns (u: State)
    requires s == InitialState(m.ReprintAfterCrash?) && d.data != [] && FirstByteOut(s, t, d) && Reaches(s, t)
    ensures Reaches(s, u) && Ready(u, d) && u.paper == t.paper && u.nextRun == t.nextRun
  {
    match m
    case ReprintAfterCrash => u := CrashHappens(s, s, t, d, {});
    case MissedAtStartup => u := CrashHappens(s, s, t, d, {d.id});
    case LostRecord => u := UnguardedEnd(s, t, d, AllTaken, false);
    case FalseRefusal => u := UnguardedEnd(s, t, d, NothingTaken(false), true);
    case CleanedUp => u := DeletedEnd(s, t, d, AllTaken, CleanUp);
    case EvidencePurged => u := DeletedEnd(s, t, d, Ambiguous, Purge);
  }

  /** The run ends and its row does not guard the job. */
  lemma UnguardedEnd(s: State, t: State, d: Delivery, answer: Answer, dbOk: bool) returns (u: State)
    requires (exists reprint :: s == InitialState(reprint)) && d.data != [] && FirstByteOut(s, t, d) && Reaches(s, t)
    requires !dbOk || answer == NothingTaken(false)
    ensures Reaches(s, u) && Ready(u, d) && u.paper == t.paper && u.nextRun == t.nextRun
  {
    u := EndHappens(s, s, t, d, answer, dbOk);
    IdleIsReady(s, t, u, d, LedgerAfterRecord(t.ledger, d.id, answer, dbOk));
  }

  /** The run ends, its row guards the job, and the row is deleted. */
  lemma DeletedEnd(s: State, t: State, d: Delivery, answer: Answer, e: WorldEvent) returns (u: State)
    requires (exists reprint :: s == InitialState(reprint)) && d.data != [] && FirstByteOut(s, t, d) && Reaches(s, t)
    requires (answer == AllTaken && e == CleanUp) || (answer == Ambiguous && e == Purge)
    ensures Reaches(s, u) && Ready(u, d) && u.paper == t.paper && u.nextRun == t.nextRun
  {
    var idle := EndHappens(s, s, t, d, answer, true);
    ReachesStep(s, idle, World(e));
    u := Step(idle, World(e));
    Deleted(s, t, idle, e, LedgerAfterRecord(t.ledger, d.id, answer, true));
    IdleIsReady(s, t, u, d, u.ledger);
  }

  lemma Deleted(s: State, t: State, u: State, e: WorldEvent, ledger: Verdicts)
    requires Quieted(s, t, u, ledger) && (e == CleanUp || e == Purge)
    ensures Quieted(s, t, Step(u, World(e)), if e == CleanUp then VCleaned(ledger) else VPurged(ledger))
  {}

  lemma IdleIsReady(s: State, t: State, u: State, d: Delivery, ledger: Verdicts)
    requires (exists reprint :: s == InitialState(reprint)) && Reaches(s, u) && Quieted(s, t, u, ledger) && d.data != []
    requires d.id in ledger ==> ledger[d.id] == VPrinting || ledger[d.id] == VPlain
    ensures Ready(u, d)
  {
    var events :| After(s, events) == u;
    var reprint :| s == InitialState(reprint);
    InitialInv(reprint);
    RunInv(s, events);
    NoRunsNoBooks(u);
  }

  /**
    The same job twice, for each mishap alone: from a fresh start a run is reached whose paper
    bears the first byte of the document twice, put there by two runs.
   */
  lemma PrintsTwice(d: Delivery, m: Mishap) returns (t: State)
    requires d.data != []
    ensures Reaches(InitialState(m.ReprintAfterCrash?), t)
    ensures PaperOf(t, d.printer) == [Mark(0, d.id, d.data[0]), Mark(1, d.id, d.data[0])]
  {
    var s := InitialState(m.ReprintAfterCrash?);
    ReachesSelf(s);
    var once := FirstByteHappens(s, s, d);
    var idle := MishapHappens(s, once, d, m);
    t := FirstByteHappens(s, idle, d);
  }
}
