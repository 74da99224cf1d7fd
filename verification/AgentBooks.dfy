/**
  Executor accounting over every run of the agent: every slot and reservation is counted once
  and given back once.
 */
module AgentBooks {
  import opened Executor
  import opened AgentState

  // ------------------------------------------------------------ who holds what

  predicate IsRegistered(ph: Phase) {
    !(ph.OverflowForgotten? || ph.Rejecting? || ph.Forgotten? || ph.Unpended?)
  }

  datatype Resource = PendingSlot | ExecSlot | WaitGroup

  predicate Holds(res: Resource, ph: Phase) {
    match res
    case PendingSlot => !(ph.Registered? || ph.Overflow? || ph.OverflowForgotten? || ph.Rejecting? || ph.Unpended?)
    case ExecSlot =>
      || ph.Checking? || ph.WantsBegin? || ph.Beginning? || ph.HandingBack? || ph.Reporting? || ph.Aborting?
      || ph.Authorized? || ph.Printing? || ph.Recording? || ph.Final? || ph.Leaving?
    case WaitGroup => !ph.Rejecting?
  }

  function Holders(runs: map<RunId, Run>, res: Resource): set<RunId> {
    set r | r in runs && Holds(res, runs[r].phase)
  }

  function Counter(b: Books, res: Resource): nat {
    match res
    case PendingSlot => b.pending
    case ExecSlot => b.exec
    case WaitGroup => b.wg
  }

  function One(b: bool): int { if b then 1 else 0 }

  lemma HoldersMove(runs: map<RunId, Run>, r: RunId, to: Run, res: Resource)
    ensures Holders(runs[r := to], res)
            == (Holders(runs, res) - {r}) + (if Holds(res, to.phase) then {r} else {})
  {
    forall k | k in runs || k == r
      ensures k in Holders(runs[r := to], res)
              <==> k in (Holders(runs, res) - {r}) + (if Holds(res, to.phase) then {r} else {})
    {
    }
  }

  lemma CountMove(runs: map<RunId, Run>, r: RunId, to: Run, res: Resource)
    requires r in runs
    ensures |Holders(runs[r := to], res)|
            == |Holders(runs, res)| - One(Holds(res, runs[r].phase)) + One(Holds(res, to.phase))
  {
    HoldersMove(runs, r, to, res);
    var was := Holders(runs, res);
    assert r in was <==> Holds(res, runs[r].phase);
    assert |was - {r}| == |was| - One(r in was);
  }

  lemma CountNew(runs: map<RunId, Run>, r: RunId, to: Run, res: Resource)
    requires r !in runs
    ensures |Holders(runs[r := to], res)| == |Holders(runs, res)| + One(Holds(res, to.phase))
  {
    HoldersMove(runs, r, to, res);
    assert Holders(runs, res) - {r} == Holders(runs, res);
  }

  lemma CountDrop(runs: map<RunId, Run>, r: RunId, res: Resource)
    requires r in runs
    ensures |Holders(runs - {r}, res)| == |Holders(runs, res)| - One(Holds(res, runs[r].phase))
  {
    var rest := Holders(runs, res) - {r};
    assert Holders(runs - {r}, res) == rest;
    if Holds(res, runs[r].phase) {
      assert Holders(runs, res) == rest + {r};
    } else {
      assert Holders(runs, res) == rest;
    }
  }

  // ------------------------------------------------------------ slots

  /** Each counter is the number of runs that hold the resource, within its capacity. */
  predicate SlotsCounted(s: State) {
    && s.books.pending == |Holders(s.runs, PendingSlot)| <= MAX_PENDING_JOBS
    && s.books.exec == |Holders(s.runs, ExecSlot)| <= MAX_CONCURRENT_JOBS
    && s.books.wg == |Holders(s.runs, WaitGroup)|
    && (forall r :: r in s.runs ==> r < s.nextRun)
  }

  /** A step that moves one run and touches the counters as the run's holdings change. */
  lemma SlotsMove(s: State, t: State, r: RunId, ph: Phase)
    requires SlotsCounted(s) && r in s.runs
    requires t.runs == s.runs[r := s.runs[r].(phase := ph)] && t.nextRun == s.nextRun
    requires t.books.pending == s.books.pending - One(Holds(PendingSlot, s.runs[r].phase)) + One(Holds(PendingSlot, ph))
    requires t.books.exec == s.books.exec - One(Holds(ExecSlot, s.runs[r].phase)) + One(Holds(ExecSlot, ph))
    requires t.books.wg == s.books.wg - One(Holds(WaitGroup, s.runs[r].phase)) + One(Holds(WaitGroup, ph))
    requires t.books.pending <= MAX_PENDING_JOBS && t.books.exec <= MAX_CONCURRENT_JOBS
    ensures SlotsCounted(t)
  {
    var to := s.runs[r].(phase := ph);
    CountMove(s.runs, r, to, PendingSlot);
    CountMove(s.runs, r, to, ExecSlot);
    CountMove(s.runs, r, to, WaitGroup);
  }

  /** A run that holds something makes the counter positive. */
  lemma HolderIsCounted(s: State, r: RunId, res: Resource)
    requires SlotsCounted(s) && r in s.runs && Holds(res, s.runs[r].phase)
    ensures Counter(s.books, res) > 0
  {
    assert r in Holders(s.runs, res);
  }

  // ------------------------------------------------------------ moves

  /** Between its first check and its return, a run is registered and holds everything. */
  predicate InProcess(ph: Phase) { Holds(ExecSlot, ph) }

  /** One run goes from one phase of processJob to another, and the books stay closed. */
  predicate MovesInProcess(s: State, t: State, r: RunId) {
    && r in s.runs && r in t.runs && InProcess(s.runs[r].phase) && InProcess(t.runs[r].phase)
    && t.runs[r].job == s.runs[r].job && t.runs == s.runs[r := t.runs[r]]
    && t.books == s.books && t.nextRun == s.nextRun && t.up == s.up
  }

  /** `base` is s with other things changed: neither the runs nor the books. */
  lemma PhaseMoves(s: State, base: State, r: RunId, ph: Phase)
    requires r in s.runs && InProcess(s.runs[r].phase) && InProcess(ph)
    requires base.runs == s.runs && base.books == s.books && base.nextRun == s.nextRun && base.up == s.up
    ensures MovesInProcess(s, SetPhase(base, r, ph), r)
  {}

  lemma CheckingMoves(s: State, e: CheckingEvent)
    ensures StepChecking(s, e) == s || MovesInProcess(s, StepChecking(s, e), e.r)
  {}

  lemma LockMoves(s: State, r: RunId, d: Delivery, seen: bool)
    requires At(s, r, Authorized)
    ensures MovesInProcess(s, StepLockForPrint(s, r, d, seen), r)
  {
    PhaseMoves(s, s, r, Leaving);
    PhaseMoves(s, OpenSegment(s, r, d), r, Printing(0));
  }

  lemma SendMoves(s: State, r: RunId, d: Delivery, sent: nat, n: nat)
    requires r in s.runs && s.runs[r].phase.Printing? && sent + n <= |d.data|
    ensures MovesInProcess(s, StepSendBytes(s, r, d, sent, n), r)
  {
    PhaseMoves(s, Emit(s, r, d, sent, n), r, Printing(sent + n));
  }

  lemma OutputMoves(s: State, e: OutputEvent)
    ensures StepOutput(s, e) == s || MovesInProcess(s, StepOutput(s, e), e.r)
  {
    match e
    case LockForPrint(r, seen) => if At(s, r, Authorized) { LockMoves(s, r, s.runs[r].job, seen); }
    case SendBytes(r, n) =>
      if r in s.runs && s.runs[r].phase.Printing? && s.runs[r].phase.sent + n <= |s.runs[r].job.data| {
        SendMoves(s, r, s.runs[r].job, s.runs[r].phase.sent, n);
      }
    case _ =>
  }

  lemma SlotsMoveInProcess(s: State, t: State, r: RunId)
    requires SlotsCounted(s) && MovesInProcess(s, t, r)
    ensures SlotsCounted(t)
  {
    SlotsMove(s, t, r, t.runs[r].phase);
  }

  lemma StepKeepsSlots(s: State, e: Event)
    requires SlotsCounted(s)
    ensures SlotsCounted(Step(s, e))
  {
    match e
    case Admission(a) => SlotsAdmission(s, a);
    case Checks(c) =>
      CheckingMoves(s, c);
      if StepChecking(s, c) != s { SlotsMoveInProcess(s, StepChecking(s, c), c.r); }
    case Output(o) =>
      OutputMoves(s, o);
      if StepOutput(s, o) != s { SlotsMoveInProcess(s, StepOutput(s, o), o.r); }
    case Unwinding(u) => SlotsUnwinding(s, u);
    case World(w) => SlotsWorld(s, w);
  }

  lemma SlotsAdmission(s: State, e: AdmissionEvent)
    requires SlotsCounted(s)
    ensures SlotsCounted(StepAdmission(s, e))
  {
    match e
    case Deliver(d, now) => if s.up { SlotsDeliver(s, d, now); }
    case TakeSlot(r) => if At(s, r, Registered) { SlotsTakeSlot(s, r); }
    case OverflowDone(r) => if At(s, r, OverflowForgotten) { SlotsOverflowDone(s, r); }
    case SendReject(r) => if At(s, r, Rejecting) { SlotsDrop(s, StepSendReject(s, r), r); }
    case _ => SlotsWaiting(s, e);
  }

  lemma SlotsWaiting(s: State, e: AdmissionEvent)
    requires SlotsCounted(s) && (e.DropOverflow? || e.TakeExec? || e.CancelWait? || e.RejectCancelled?)
    ensures SlotsCounted(StepAdmission(s, e))
  {
    match e
    case DropOverflow(r) => if At(s, r, Overflow) { SlotsForget(s, r, OverflowForgotten); }
    case TakeExec(r) => if At(s, r, Waiting) && s.books.exec < MAX_CONCURRENT_JOBS { SlotsTakeExec(s, r); }
    case CancelWait(r) =>
      if At(s, r, Waiting) && s.stopping { SlotsMove(s, SetPhase(s, r, Cancelled), r, Cancelled); }
    case RejectCancelled(r) =>
      if At(s, r, Cancelled) { SlotsMove(s, SetPhase(Report(s, r, RQueued), r, Unexecuted), r, Unexecuted); }
  }

  lemma SlotsTakeExec(s: State, r: RunId)
    requires SlotsCounted(s) && At(s, r, Waiting) && s.books.exec < MAX_CONCURRENT_JOBS
    ensures SlotsCounted(StepTakeExec(s, r))
  {
    SlotsMove(s, StepTakeExec(s, r), r, Checking);
  }

  lemma SlotsForget(s: State, r: RunId, next: Phase)
    requires SlotsCounted(s)
    requires (At(s, r, Overflow) && next == OverflowForgotten) || (At(s, r, Unexecuted) && next == Forgotten)
    ensures SlotsCounted(StepForget(s, r, next))
  {
    SlotsMove(s, StepForget(s, r, next), r, next);
  }

  lemma SlotsOverflowDone(s: State, r: RunId)
    requires SlotsCounted(s) && At(s, r, OverflowForgotten)
    ensures SlotsCounted(StepOverflowDone(s, r))
  {
    HolderIsCounted(s, r, WaitGroup);
    SlotsMove(s, StepOverflowDone(s, r), r, Rejecting);
  }

  lemma SlotsUnwinding(s: State, e: UnwindingEvent)
    requires SlotsCounted(s)
    ensures SlotsCounted(StepUnwinding(s, e))
  {
    match e
    case FreeExec(r) => if At(s, r, Leaving) { SlotsFreeExec(s, r); }
    case ForgetRun(r) => if At(s, r, Unexecuted) { SlotsForget(s, r, Forgotten); }
    case FreePending(r) => if At(s, r, Forgotten) { SlotsFreePending(s, r); }
    case Done(r) =>
      if At(s, r, Unpended) {
        HolderIsCounted(s, r, WaitGroup);
        SlotsDrop(s, StepDone(s, r), r);
      }
  }

  lemma SlotsFreeExec(s: State, r: RunId)
    requires SlotsCounted(s) && At(s, r, Leaving)
    ensures SlotsCounted(StepFreeExec(s, r))
  {
    HolderIsCounted(s, r, ExecSlot);
    SlotsMove(s, StepFreeExec(s, r), r, Unexecuted);
  }

  lemma SlotsFreePending(s: State, r: RunId)
    requires SlotsCounted(s) && At(s, r, Forgotten)
    ensures SlotsCounted(StepFreePending(s, r))
  {
    HolderIsCounted(s, r, PendingSlot);
    SlotsMove(s, StepFreePending(s, r), r, Unpended);
  }

  lemma SlotsWorld(s: State, e: WorldEvent)
    requires SlotsCounted(s)
    ensures SlotsCounted(StepWorld(s, e))
  {
    if e.Crash? { SlotsNone(StepCrash(s)); }
  }

  lemma SlotsTakeSlot(s: State, r: RunId)
    requires SlotsCounted(s) && At(s, r, Registered)
    ensures SlotsCounted(StepSlot(s, r))
  {
    if s.books.pending < MAX_PENDING_JOBS {
      SlotsMove(s, StepTakeSlot(s, r), r, Waiting);
    } else {
      SlotsMove(s, SetPhase(s, r, Overflow), r, Overflow);
    }
  }

  lemma SlotsDeliver(s: State, d: Delivery, now: Time)
    requires SlotsCounted(s)
    ensures SlotsCounted(StepDeliver(s, d, now))
  {
    SlotsNew(s, StepTurnAway(s, d), Run(d, Rejecting));
    SlotsNew(s, StepRegister(s, d, now), Run(d, Registered));
  }

  lemma SlotsNew(s: State, t: State, run: Run)
    requires SlotsCounted(s) && t.runs == s.runs[s.nextRun := run] && t.nextRun == s.nextRun + 1
    requires !Holds(PendingSlot, run.phase) && !Holds(ExecSlot, run.phase)
    requires t.books.pending == s.books.pending && t.books.exec == s.books.exec
    requires t.books.wg == s.books.wg + One(Holds(WaitGroup, run.phase))
    ensures SlotsCounted(t)
  {
    CountNew(s.runs, s.nextRun, run, PendingSlot);
    CountNew(s.runs, s.nextRun, run, ExecSlot);
    CountNew(s.runs, s.nextRun, run, WaitGroup);
  }

  lemma SlotsDrop(s: State, t: State, r: RunId)
    requires SlotsCounted(s) && r in s.runs
    requires t.runs == s.runs - {r} && t.nextRun == s.nextRun
    requires !Holds(PendingSlot, s.runs[r].phase) && !Holds(ExecSlot, s.runs[r].phase)
    requires t.books.pending == s.books.pending && t.books.exec == s.books.exec
    requires t.books.wg == s.books.wg - One(Holds(WaitGroup, s.runs[r].phase))
    ensures SlotsCounted(t)
  {
    CountDrop(s.runs, r, PendingSlot);
    CountDrop(s.runs, r, ExecSlot);
    CountDrop(s.runs, r, WaitGroup);
  }

  lemma SlotsNone(t: State)
    requires t.runs == map[] && t.books == EMPTY_BOOKS
    ensures SlotsCounted(t)
  {
    assert Holders(t.runs, PendingSlot) == {} && Holders(t.runs, ExecSlot) == {} && Holders(t.runs, WaitGroup) == {};
  }
}
