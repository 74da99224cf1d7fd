/**
  The agent as a machine of small atomic steps.  Every delivery starts a run; the steps of
  different runs interleave freely, reports get any answer, and the process may crash between
  any two steps.  The ledger and the printed paper survive a crash, nothing else does.
 */
module AgentState {
  import opened Wrappers
  import opened Bytes
  import opened Ledger
  import opened Verdicts
  import opened Executor

  datatype ReportStatus = RPrinting | RSuccess | RFailed | RExpired | RQueued

  /** How far a run has come.  The lock of the printer is held in Beginning, Printing and Recording. */
  datatype Phase =
    | Registered                          // in flight, no slot yet
    | Overflow                            // no slot was free
    | OverflowForgotten                   // out of the books, still in the wait group
    | Rejecting                           // about to hand the job back without having registered it any more
    | Waiting                             // pending slot held, no execution slot yet
    | Cancelled                           // shutdown came first
    | Checking                            // processJob before its ledger check
    | WantsBegin                          // waiting for the printer lock
    | Beginning                           // lock held, before BeginPrint
    | HandingBack                         // ledger unusable
    | Reporting                           // row printing, lock released
    | Aborting                            // dispatch refused
    | Authorized                          // waiting for the printer lock
    | Printing(sent: nat)                 // lock held, transmitting
    | Recording(sent: nat, answer: Answer) // transport returned, lock still held
    | Final(status: ReportStatus)         // last report to send
    | Leaving                             // processJob has returned
    | Unexecuted                          // execution slot released
    | Forgotten                           // out of the books
    | Unpended                            // pending slot released

  datatype Run = Run(job: Delivery, phase: Phase)

  /** Consecutive bytes of one run on one printer: the first `sent` bytes of `data`. */
  datatype Segment = Segment(run: RunId, id: JobId, data: seq<byte>, sent: nat)

  /** One byte on paper, with the run that sent it. */
  datatype Mark = Mark(run: RunId, id: JobId, octet: byte)

  datatype Sent = Sent(run: RunId, id: JobId, status: ReportStatus, token: ClaimToken)

  /**
    `exposed` and `reopened` decide nothing.  They record which jobs have lost the ledger entry
    that protected their paper, and which were begun again although they had paper.
   */
  datatype State = State(
    reprint: bool,
    up: bool,
    stopping: bool,
    exposed: set<JobId>,
    reopened: set<JobId>,
    ledger: Verdicts,
    paper: map<PrinterId, seq<Mark>>,
    segs: map<PrinterId, seq<Segment>>,
    books: Books,
    locks: map<PrinterId, RunId>,
    runs: map<RunId, Run>,
    nextRun: RunId,
    reports: seq<Sent>)

  function InitialState(reprint: bool): State {
    State(reprint, true, false, {}, {}, map[], map[], map[], EMPTY_BOOKS, map[], map[], 0, [])
  }

  function PaperOf(s: State, p: PrinterId): seq<Mark> { if p in s.paper then s.paper[p] else [] }
  function SegsOf(s: State, p: PrinterId): seq<Segment> { if p in s.segs then s.segs[p] else [] }

  /** What the checks before dispatch can find; an unreadable history lets the job pass to BeginPrint. */
  datatype CheckResult = TtlPassed | LedgerUnreadable | HistoryUnreadable | RefusedPayload | Fine

  /** Deliveries, and the way of a run to its execution slot. */
  datatype AdmissionEvent =
    | Deliver(d: Delivery, now: Time)
    | TakeSlot(r: RunId)
    | DropOverflow(r: RunId)
    | OverflowDone(r: RunId)
    | SendReject(r: RunId)
    | TakeExec(r: RunId)
    | CancelWait(r: RunId)
    | RejectCancelled(r: RunId)

  /** processJob up to the decision to print. */
  datatype CheckingEvent =
    | Check(r: RunId, found: CheckResult)
    | LockForBegin(r: RunId)
    | BeginNow(r: RunId, seen: bool, dbOk: bool)   // seen: IsProcessed could read the row
    | HandBack(r: RunId)
    | ReportPrinting(r: RunId, result: ReportResult, at: Time)
    | AbortNow(r: RunId, dbOk: bool)

  /** The physical print and what is recorded and reported about it. */
  datatype OutputEvent =
    | LockForPrint(r: RunId, seen: bool)
    | SendBytes(r: RunId, n: nat)
    | TransportReturns(r: RunId, answer: Answer)
    | Record(r: RunId, dbOk: bool)
    | SendFinal(r: RunId)

  /** The deferred releases of a run, in the order they execute. */
  datatype UnwindingEvent =
    | FreeExec(r: RunId)
    | ForgetRun(r: RunId)
    | FreePending(r: RunId)
    | Done(r: RunId)

  datatype WorldEvent = Stop | Crash | Restart(missed: set<JobId>) | CleanUp | Purge

  datatype Event =
    | Admission(a: AdmissionEvent)
    | Checks(c: CheckingEvent)
    | Output(o: OutputEvent)
    | Unwinding(u: UnwindingEvent)
    | World(w: WorldEvent)

  function SetPhase(s: State, r: RunId, ph: Phase): State
    requires r in s.runs
  {
    s.(runs := s.runs[r := s.runs[r].(phase := ph)])
  }

  function Report(s: State, r: RunId, status: ReportStatus): State
    requires r in s.runs
  {
    s.(reports := s.reports + [Sent(r, s.runs[r].job.id, status, ReportToken(s.books, s.runs[r].job))])
  }

  function Unlock(s: State, p: PrinterId): State { s.(locks := s.locks - {p}) }

  /** Bytes of one run, as they appear on paper. */
  function MarksOf(r: RunId, id: JobId, bs: seq<byte>): seq<Mark> {
    if bs == [] then [] else MarksOf(r, id, bs[..|bs| - 1]) + [Mark(r, id, bs[|bs| - 1])]
  }

  // ------------------------------------------------------------ one function per kind of step

  /** During shutdown a delivery is handed back without ever being registered. */
  function StepTurnAway(s: State, d: Delivery): State {
    s.(runs := s.runs[s.nextRun := Run(d, Rejecting)], nextRun := s.nextRun + 1)
  }

  function StepRegister(s: State, d: Delivery, now: Time): State {
    s.(books := Register(s.books, d, s.nextRun, now),
       runs := s.runs[s.nextRun := Run(d, Registered)], nextRun := s.nextRun + 1)
  }

  function StepDeliver(s: State, d: Delivery, now: Time): State {
    if s.stopping then StepTurnAway(s, d)
    else if InFlight(s.books, d.id) then s.(books := Adopt(s.books, d, now))
    else StepRegister(s, d, now)
  }

  function StepSlot(s: State, r: RunId): State
    requires r in s.runs
  {
    if s.books.pending < MAX_PENDING_JOBS then StepTakeSlot(s, r) else SetPhase(s, r, Overflow)
  }

  function StepTakeSlot(s: State, r: RunId): State
    requires r in s.runs
  {
    SetPhase(s.(books := s.books.(pending := s.books.pending + 1)), r, Waiting)
  }

  predicate Processed(s: State, id: JobId) { id in s.ledger && s.ledger[id] == VSuccess }

  /** What the checks before dispatch lead to, in the order processJob makes them. */
  function CheckLeadsTo(s: State, id: JobId, found: CheckResult): Phase {
    if found == TtlPassed then Final(RExpired)
    else if found == LedgerUnreadable then HandingBack
    else if Processed(s, id) then Final(RSuccess)
    else if found != HistoryUnreadable && id in s.ledger && s.ledger[id] == VUnknown && !s.reprint then Final(RFailed)
    else if found == RefusedPayload then Final(RFailed)
    else WantsBegin
  }

  predicate Begins(s: State, id: JobId, dbOk: bool) {
    dbOk && VBegin(s.ledger, id, s.reprint).Some?
  }

  function BeginLeadsTo(s: State, id: JobId, seen: bool, dbOk: bool): Phase {
    if seen && Processed(s, id) then Leaving
    else if !dbOk then HandingBack
    else if VBegin(s.ledger, id, s.reprint).Some? then Reporting
    else Final(if Processed(s, id) then RSuccess else RFailed)
  }

  function LedgerAfterBegin(s: State, id: JobId, dbOk: bool): Verdicts {
    if Begins(s, id, dbOk) then VBegin(s.ledger, id, s.reprint).value else s.ledger
  }

  predicate PaperOn(g: seq<Segment>, id: JobId) { exists i :: 0 <= i < |g| && g[i].id == id && 0 < g[i].sent }

  /** Some byte of the job is on some printer's paper. */
  predicate HasPaper(segs: map<PrinterId, seq<Segment>>, id: JobId) { exists p :: p in segs && PaperOn(segs[p], id) }

  /** BeginPrint accepts a job that has paper. */
  predicate Reopens(s: State, id: JobId, dbOk: bool) { Begins(s, id, dbOk) && HasPaper(s.segs, id) }

  function ReopenedAfterBegin(s: State, id: JobId, dbOk: bool): set<JobId> {
    if Reopens(s, id, dbOk) then s.reopened + {id} else s.reopened
  }

  /** A job begun while it has no paper starts afresh. */
  function ExposedAfterBegin(s: State, id: JobId, dbOk: bool): set<JobId> {
    if Begins(s, id, dbOk) && !HasPaper(s.segs, id) then s.exposed - {id} else s.exposed
  }

  function StepBegin(s: State, r: RunId, seen: bool, dbOk: bool): State
    requires r in s.runs
  {
    SetPhase(Unlock(s, s.runs[r].job.printer).(
               ledger := LedgerAfterBegin(s, s.runs[r].job.id, dbOk),
               exposed := ExposedAfterBegin(s, s.runs[r].job.id, dbOk),
               reopened := ReopenedAfterBegin(s, s.runs[r].job.id, dbOk)), r,
             BeginLeadsTo(s, s.runs[r].job.id, seen, dbOk))
  }

  function ReceivedAt(b: Books, id: JobId): Option<Time> {
    if id in b.received then Some(b.received[id]) else None
  }

  predicate MayDispatch(s: State, d: Delivery, result: ReportResult, at: Time) {
    result == Accepted || Authorize(ReceivedAt(s.books, d.id), d.expiresAt, at, result)
  }

  function StepReportPrinting(s: State, r: RunId, result: ReportResult, at: Time): State
    requires r in s.runs
  {
    SetPhase(Report(s, r, RPrinting), r, if MayDispatch(s, s.runs[r].job, result, at) then Authorized else Aborting)
  }

  function OpenSegment(s: State, r: RunId, d: Delivery): State {
    s.(locks := s.locks[d.printer := r],
       segs := s.segs[d.printer := SegsOf(s, d.printer) + [Segment(r, d.id, d.data, 0)]])
  }

  /** With the lock in hand a run opens its segment; a job processed meanwhile is left alone. */
  function StepLockForPrint(s: State, r: RunId, d: Delivery, seen: bool): State
    requires r in s.runs
  {
    if seen && Processed(s, d.id) then SetPhase(s, r, Leaving) else SetPhase(OpenSegment(s, r, d), r, Printing(0))
  }

  /** The segment list with its last segment grown to `sent` bytes. */
  function Grown(g: seq<Segment>, last: Segment): seq<Segment> {
    if g == [] then [] else g[..|g| - 1] + [last]
  }

  function Emit(s: State, r: RunId, d: Delivery, sent: nat, n: nat): State
    requires sent + n <= |d.data|
  {
    s.(paper := s.paper[d.printer := PaperOf(s, d.printer) + MarksOf(r, d.id, d.data[sent..sent + n])],
       segs := s.segs[d.printer := Grown(SegsOf(s, d.printer), Segment(r, d.id, d.data, sent + n))])
  }

  function StepSendBytes(s: State, r: RunId, d: Delivery, sent: nat, n: nat): State
    requires r in s.runs && sent + n <= |d.data|
  {
    SetPhase(Emit(s, r, d, sent, n), r, Printing(sent + n))
  }

  function StepTransportReturns(s: State, r: RunId, answer: Answer): State
    requires r in s.runs && s.runs[r].phase.Printing?
  {
    SetPhase(s, r, Recording(s.runs[r].phase.sent, answer))
  }

  function LedgerAfterRecord(ledger: Verdicts, id: JobId, answer: Answer, dbOk: bool): Verdicts {
    if dbOk then VRecord(ledger, id, AnswerVerdict(answer)) else ledger
  }

  /** The ledger says of the job that it was, or may have been, printed. */
  predicate Guarded(ledger: Verdicts, id: JobId) { id in ledger && VProtected(ledger[id]) }

  function StepRecord(s: State, r: RunId, sent: nat, answer: Answer, dbOk: bool): State
    requires r in s.runs
  {
    SetPhase(Unlock(s, s.runs[r].job.printer).(
               ledger := LedgerAfterRecord(s.ledger, s.runs[r].job.id, answer, dbOk),
               exposed := ExposedAfterRecord(s, s.runs[r].job.id, sent, answer, dbOk)), r,
             Final(if answer == AllTaken then RSuccess else RFailed))
  }

  /** Bytes went out and the row does not say so. */
  function ExposedAfterRecord(s: State, id: JobId, sent: nat, answer: Answer, dbOk: bool): set<JobId> {
    if sent > 0 && !Guarded(LedgerAfterRecord(s.ledger, id, answer, dbOk), id) then s.exposed + {id} else s.exposed
  }

  function StepOverflowDone(s: State, r: RunId): State
    requires r in s.runs
  {
    SetPhase(s.(books := s.books.(wg := if s.books.wg == 0 then 0 else s.books.wg - 1)), r, Rejecting)
  }

  function StepSendReject(s: State, r: RunId): State
    requires r in s.runs
  {
    Report(s, r, RQueued).(runs := s.runs - {r})
  }

  function StepTakeExec(s: State, r: RunId): State
    requires r in s.runs
  {
    SetPhase(s.(books := s.books.(exec := s.books.exec + 1)), r, Checking)
  }

  function StepLockForBegin(s: State, r: RunId): State
    requires r in s.runs
  {
    SetPhase(s.(locks := s.locks[s.runs[r].job.printer := r]), r, Beginning)
  }

  function StepAbort(s: State, r: RunId, dbOk: bool): State
    requires r in s.runs
  {
    SetPhase(s.(ledger := if dbOk then VAbort(s.ledger, s.runs[r].job.id) else s.ledger), r, Leaving)
  }

  function StepForget(s: State, r: RunId, next: Phase): State
    requires r in s.runs
  {
    SetPhase(s.(books := Forget(s.books, s.runs[r].job.id)), r, next)
  }

  function StepFreeExec(s: State, r: RunId): State
    requires r in s.runs
  {
    SetPhase(s.(books := s.books.(exec := if s.books.exec == 0 then 0 else s.books.exec - 1)), r, Unexecuted)
  }

  function StepFreePending(s: State, r: RunId): State
    requires r in s.runs
  {
    SetPhase(s.(books := s.books.(pending := if s.books.pending == 0 then 0 else s.books.pending - 1)), r, Unpended)
  }

  function StepDone(s: State, r: RunId): State
    requires r in s.runs
  {
    s.(books := s.books.(wg := if s.books.wg == 0 then 0 else s.books.wg - 1), runs := s.runs - {r})
  }

  function StepCrash(s: State): State {
    s.(up := false, stopping := false, books := EMPTY_BOOKS, locks := map[], runs := map[])
  }

  /** Startup marks what was printing before anything is accepted; `missed` rows are lost to a failed write. */
  function StepRestart(s: State, missed: set<JobId>): State {
    s.(up := true,
       exposed := (s.exposed - PrintingRows(s.ledger)) + (missed * PrintingRows(s.ledger)),
       ledger := VMarkAll(s.ledger, missed))
  }

  function PrintingRows(ledger: Verdicts): set<JobId> { set id | id in ledger && ledger[id] == VPrinting }
  function GuardedRows(ledger: Verdicts): set<JobId> { set id | id in ledger && VProtected(ledger[id]) }

  /** Rows are deleted; what they protected is exposed. */
  function StepDelete(s: State, after: Verdicts): State {
    s.(ledger := after, exposed := s.exposed + (GuardedRows(s.ledger) - GuardedRows(after)))
  }

  predicate At(s: State, r: RunId, ph: Phase) { r in s.runs && s.runs[r].phase == ph }

  function StepAdmission(s: State, e: AdmissionEvent): State {
    match e
    case Deliver(d, now) => if s.up then StepDeliver(s, d, now) else s
    case TakeSlot(r) => if At(s, r, Registered) then StepSlot(s, r) else s
    case DropOverflow(r) => if At(s, r, Overflow) then StepForget(s, r, OverflowForgotten) else s
    case OverflowDone(r) => if At(s, r, OverflowForgotten) then StepOverflowDone(s, r) else s
    case SendReject(r) => if At(s, r, Rejecting) then StepSendReject(s, r) else s
    case TakeExec(r) => if At(s, r, Waiting) && s.books.exec < MAX_CONCURRENT_JOBS then StepTakeExec(s, r) else s
    case CancelWait(r) => if At(s, r, Waiting) && s.stopping then SetPhase(s, r, Cancelled) else s
    case RejectCancelled(r) => if At(s, r, Cancelled) then SetPhase(Report(s, r, RQueued), r, Unexecuted) else s
  }

  function StepChecking(s: State, e: CheckingEvent): State {
    match e
    case Check(r, found) =>
      if At(s, r, Checking) then SetPhase(s, r, CheckLeadsTo(s, s.runs[r].job.id, found)) else s
    case LockForBegin(r) =>
      if At(s, r, WantsBegin) && s.runs[r].job.printer !in s.locks then StepLockForBegin(s, r) else s
    case BeginNow(r, seen, dbOk) => if At(s, r, Beginning) then StepBegin(s, r, seen, dbOk) else s
    case HandBack(r) => if At(s, r, HandingBack) then SetPhase(Report(s, r, RQueued), r, Leaving) else s
    case ReportPrinting(r, result, at) => if At(s, r, Reporting) then StepReportPrinting(s, r, result, at) else s
    case AbortNow(r, dbOk) => if At(s, r, Aborting) then StepAbort(s, r, dbOk) else s
  }

  function StepOutput(s: State, e: OutputEvent): State {
    match e
    case LockForPrint(r, seen) =>
      if At(s, r, Authorized) && s.runs[r].job.printer !in s.locks
        then StepLockForPrint(s, r, s.runs[r].job, seen) else s
    case SendBytes(r, n) =>
      if r in s.runs && s.runs[r].phase.Printing? && s.runs[r].phase.sent + n <= |s.runs[r].job.data| then
        StepSendBytes(s, r, s.runs[r].job, s.runs[r].phase.sent, n)
      else s
    case TransportReturns(r, answer) =>
      if r in s.runs && s.runs[r].phase.Printing? then StepTransportReturns(s, r, answer) else s
    case Record(r, dbOk) =>
      if r in s.runs && s.runs[r].phase.Recording?
        then StepRecord(s, r, s.runs[r].phase.sent, s.runs[r].phase.answer, dbOk) else s
    case SendFinal(r) =>
      if r in s.runs && s.runs[r].phase.Final? then SetPhase(Report(s, r, s.runs[r].phase.status), r, Leaving) else s
  }

  function StepUnwinding(s: State, e: UnwindingEvent): State {
    match e
    case FreeExec(r) => if At(s, r, Leaving) then StepFreeExec(s, r) else s
    case ForgetRun(r) => if At(s, r, Unexecuted) then StepForget(s, r, Forgotten) else s
    case FreePending(r) => if At(s, r, Forgotten) then StepFreePending(s, r) else s
    case Done(r) => if At(s, r, Unpended) then StepDone(s, r) else s
  }

  function StepWorld(s: State, e: WorldEvent): State {
    match e
    case Stop => if s.up then s.(stopping := true) else s
    case Crash => StepCrash(s)
    case Restart(missed) => if s.up then s else StepRestart(s, missed)
    case CleanUp => StepDelete(s, VCleaned(s.ledger))
    case Purge => StepDelete(s, VPurged(s.ledger))
  }

  function Step(s: State, e: Event): State {
    match e
    case Admission(a) => StepAdmission(s, a)
    case Checks(c) => StepChecking(s, c)
    case Output(o) => StepOutput(s, o)
    case Unwinding(u) => StepUnwinding(s, u)
    case World(w) => StepWorld(s, w)
  }

  function After(s: State, events: seq<Event>): State
    decreases |events|
  {
    if events == [] then s else After(Step(s, events[0]), events[1..])
  }
}
