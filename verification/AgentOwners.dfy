/**
  Who is registered, over every run of the agent: at most one run per job id, and every
  report about a job in flight carries the latest non-empty token delivered for it.
 */
module AgentOwners {
  import opened Ledger
  import opened Executor
  import opened AgentState
  import opened AgentBooks

  type Owners = map<JobId, RunId>
  type Heard = map<JobId, seq<ClaimToken>>
  type Runs = map<RunId, Run>

  /** The books know the run under its job id, and the first token heard for that id is its own. */
  predicate Mine(owner: Owners, heard: Heard, r: RunId, job: Delivery) {
    && job.id in owner && owner[job.id] == r
    && job.id in heard && 0 < |heard[job.id]| && heard[job.id][0] == job.token
  }

  predicate RegisteredRun(runs: Runs, r: RunId) { r in runs && IsRegistered(runs[r].phase) }

  /** An in-flight id belongs to a live, registered run of that very job. */
  predicate Backed(runs: Runs, id: JobId, r: RunId) { RegisteredRun(runs, r) && runs[r].job.id == id }

  ghost predicate Linked(owner: Owners, heard: Heard, runs: Runs) {
    && (forall r :: RegisteredRun(runs, r) ==> Mine(owner, heard, r, runs[r].job))
    && (forall id :: id in owner ==> Backed(runs, id, owner[id]))
  }

  ghost predicate Kept(b: Books) { SameKeys(b) && TokensCurrent(b) }

  predicate Numbered(s: State) { forall r :: r in s.runs ==> r < s.nextRun }

  ghost predicate BooksMatchRuns(s: State) {
    Kept(s.books) && Linked(s.books.owner, s.books.heard, s.runs) && Numbered(s)
  }

  // ------------------------------------------------------------ the link, map by map

  lemma LinkedMove(owner: Owners, heard: Heard, runs: Runs, r: RunId, to: Run)
    requires Linked(owner, heard, runs) && r in runs
    requires to.job == runs[r].job && IsRegistered(to.phase) == IsRegistered(runs[r].phase)
    ensures Linked(owner, heard, runs[r := to])
  {
    var after := runs[r := to];
    forall q | RegisteredRun(after, q)
      ensures Mine(owner, heard, q, after[q].job)
    {
      assert RegisteredRun(runs, q);
    }
    forall id | id in owner
      ensures Backed(after, id, owner[id])
    {
      assert Backed(runs, id, owner[id]);
    }
  }

  lemma LinkedDrop(owner: Owners, heard: Heard, runs: Runs, r: RunId)
    requires Linked(owner, heard, runs) && !RegisteredRun(runs, r)
    ensures Linked(owner, heard, runs - {r})
  {
    forall q | RegisteredRun(runs - {r}, q)
      ensures Mine(owner, heard, q, (runs - {r})[q].job)
    {
      assert RegisteredRun(runs, q);
    }
    forall id | id in owner
      ensures Backed(runs - {r}, id, owner[id])
    {
      assert Backed(runs, id, owner[id]);
    }
  }

  lemma LinkedForget(owner: Owners, heard: Heard, runs: Runs, r: RunId, to: Run)
    requires Linked(owner, heard, runs) && RegisteredRun(runs, r) && !IsRegistered(to.phase)
    ensures Linked(owner - {runs[r].job.id}, heard - {runs[r].job.id}, runs[r := to])
  {
    var after := runs[r := to];
    assert Mine(owner, heard, r, runs[r].job);
    forall q | RegisteredRun(after, q)
      ensures Mine(owner - {runs[r].job.id}, heard - {runs[r].job.id}, q, after[q].job)
    {
      assert RegisteredRun(runs, q) && Mine(owner, heard, q, runs[q].job);
    }
    forall id | id in owner - {runs[r].job.id}
      ensures Backed(after, id, (owner - {runs[r].job.id})[id])
    {
      assert Backed(runs, id, owner[id]);
    }
  }

  lemma LinkedTurnAway(owner: Owners, heard: Heard, runs: Runs, r: RunId, to: Run)
    requires Linked(owner, heard, runs) && r !in runs && !IsRegistered(to.phase)
    ensures Linked(owner, heard, runs[r := to])
  {
    var after := runs[r := to];
    forall q | RegisteredRun(after, q)
      ensures Mine(owner, heard, q, after[q].job)
    {
      assert RegisteredRun(runs, q);
    }
    forall id | id in owner
      ensures Backed(after, id, owner[id])
    {
      assert Backed(runs, id, owner[id]);
    }
  }

  lemma LinkedRegister(owner: Owners, heard: Heard, runs: Runs, r: RunId, to: Run)
    requires Linked(owner, heard, runs) && r !in runs && IsRegistered(to.phase) && to.job.id !in owner
    ensures Linked(owner[to.job.id := r], heard[to.job.id := [to.job.token]], runs[r := to])
  {
    var after := runs[r := to];
    var owners := owner[to.job.id := r];
    forall q | RegisteredRun(after, q)
      ensures Mine(owners, heard[to.job.id := [to.job.token]], q, after[q].job)
    {
      assert q != r ==> RegisteredRun(runs, q) && Mine(owner, heard, q, runs[q].job);
    }
    forall id | id in owners
      ensures Backed(after, id, owners[id])
    {
      assert id != to.job.id ==> Backed(runs, id, owner[id]);
    }
  }

  lemma LinkedAdopt(owner: Owners, heard: Heard, runs: Runs, id: JobId, token: ClaimToken)
    requires Linked(owner, heard, runs) && id in heard
    ensures Linked(owner, heard[id := heard[id] + [token]], runs)
  {
    forall q | RegisteredRun(runs, q)
      ensures Mine(owner, heard[id := heard[id] + [token]], q, runs[q].job)
    {
      assert Mine(owner, heard, q, runs[q].job);
    }
  }

  // ------------------------------------------------------------ steps

  /** A move that does not change whether the run is registered, and leaves the key maps alone. */
  lemma BooksMove(s: State, t: State, r: RunId, ph: Phase)
    requires BooksMatchRuns(s) && r in s.runs && IsRegistered(ph) == IsRegistered(s.runs[r].phase)
    requires t.runs == s.runs[r := s.runs[r].(phase := ph)] && t.nextRun == s.nextRun
    requires SameMaps(s.books, t.books)
    ensures BooksMatchRuns(t)
  {
    LinkedMove(s.books.owner, s.books.heard, s.runs, r, s.runs[r].(phase := ph));
    SameMapsKept(s.books, t.books);
  }

  predicate SameMaps(b: Books, c: Books) {
    c.owner == b.owner && c.heard == b.heard && c.tokens == b.tokens && c.received == b.received
  }

  lemma SameMapsKept(b: Books, c: Books)
    requires Kept(b) && SameMaps(b, c)
    ensures Kept(c)
  {
    forall id | id in c.owner
      ensures TokenCurrent(c, id)
    {
      assert TokenCurrent(b, id);
    }
  }

  lemma BooksDrop(s: State, t: State, r: RunId)
    requires BooksMatchRuns(s) && r in s.runs && !IsRegistered(s.runs[r].phase)
    requires t.runs == s.runs - {r} && t.nextRun == s.nextRun && SameMaps(s.books, t.books)
    ensures BooksMatchRuns(t)
  {
    LinkedDrop(s.books.owner, s.books.heard, s.runs, r);
    SameMapsKept(s.books, t.books);
  }

  lemma BooksForget(s: State, r: RunId, next: Phase)
    requires BooksMatchRuns(s) && RegisteredRun(s.runs, r) && !IsRegistered(next)
    ensures BooksMatchRuns(StepForget(s, r, next))
  {
    ForgetKeeps(s.books, s.runs[r].job.id);
    LinkedForget(s.books.owner, s.books.heard, s.runs, r, s.runs[r].(phase := next));
  }

  lemma BooksTurnAway(s: State, d: Delivery)
    requires BooksMatchRuns(s)
    ensures BooksMatchRuns(StepTurnAway(s, d))
  {
    LinkedTurnAway(s.books.owner, s.books.heard, s.runs, s.nextRun, Run(d, Rejecting));
  }

  lemma BooksRegister(s: State, d: Delivery, now: Time)
    requires BooksMatchRuns(s) && !InFlight(s.books, d.id)
    ensures BooksMatchRuns(StepRegister(s, d, now))
  {
    RegisterKeeps(s.books, d, s.nextRun, now);
    LinkedRegister(s.books.owner, s.books.heard, s.runs, s.nextRun, Run(d, Registered));
  }

  lemma BooksAdopt(s: State, d: Delivery, now: Time)
    requires BooksMatchRuns(s) && InFlight(s.books, d.id)
    ensures BooksMatchRuns(s.(books := Adopt(s.books, d, now)))
  {
    AdoptKeeps(s.books, d, now);
    LinkedAdopt(s.books.owner, s.books.heard, s.runs, d.id, d.token);
    assert Adopt(s.books, d, now).heard == s.books.heard[d.id := s.books.heard[d.id] + [d.token]];
  }

  lemma StepKeepsBooks(s: State, e: Event)
    requires BooksMatchRuns(s)
    ensures BooksMatchRuns(Step(s, e))
  {
    match e
    case Admission(a) => BooksAdmission(s, a);
    case Checks(c) =>
      CheckingMoves(s, c);
      if StepChecking(s, c) != s { BooksMoveInProcess(s, StepChecking(s, c), c.r); }
    case Output(o) =>
      OutputMoves(s, o);
      if StepOutput(s, o) != s { BooksMoveInProcess(s, StepOutput(s, o), o.r); }
    case Unwinding(u) => BooksUnwinding(s, u);
    case World(w) => BooksWorld(s, w);
  }

  lemma BooksMoveInProcess(s: State, t: State, r: RunId)
    requires BooksMatchRuns(s) && MovesInProcess(s, t, r)
    ensures BooksMatchRuns(t)
  {
    BooksMove(s, t, r, t.runs[r].phase);
  }

  lemma BooksDeliver(s: State, d: Delivery, now: Time)
    requires BooksMatchRuns(s)
    ensures BooksMatchRuns(StepDeliver(s, d, now))
  {
    BooksTurnAway(s, d);
    if InFlight(s.books, d.id) { BooksAdopt(s, d, now); } else { BooksRegister(s, d, now); }
  }

  lemma BooksAdmission(s: State, e: AdmissionEvent)
    requires BooksMatchRuns(s)
    ensures BooksMatchRuns(StepAdmission(s, e))
  {
    match e
    case Deliver(d, now) => BooksDeliver(s, d, now);
    case TakeSlot(r) => if At(s, r, Registered) { BooksTakeSlot(s, r); }
    case DropOverflow(r) => if At(s, r, Overflow) { BooksForget(s, r, OverflowForgotten); }
    case OverflowDone(r) => if At(s, r, OverflowForgotten) { BooksOverflowDone(s, r); }
    case SendReject(r) => if At(s, r, Rejecting) { BooksDrop(s, StepSendReject(s, r), r); }
    case _ => BooksWaiting(s, e);
  }

  lemma BooksWaiting(s: State, e: AdmissionEvent)
    requires BooksMatchRuns(s) && (e.TakeExec? || e.CancelWait? || e.RejectCancelled?)
    ensures BooksMatchRuns(StepAdmission(s, e))
  {
    match e
    case TakeExec(r) => if At(s, r, Waiting) && s.books.exec < MAX_CONCURRENT_JOBS { BooksTakeExec(s, r); }
    case CancelWait(r) => if At(s, r, Waiting) && s.stopping { BooksCancel(s, r); }
    case RejectCancelled(r) => if At(s, r, Cancelled) { BooksRejectCancelled(s, r); }
  }

  lemma BooksCancel(s: State, r: RunId)
    requires BooksMatchRuns(s) && At(s, r, Waiting)
    ensures BooksMatchRuns(SetPhase(s, r, Cancelled))
  {
    BooksMove(s, SetPhase(s, r, Cancelled), r, Cancelled);
  }

  lemma BooksTakeSlot(s: State, r: RunId)
    requires BooksMatchRuns(s) && At(s, r, Registered)
    ensures BooksMatchRuns(StepSlot(s, r))
  {
    if s.books.pending < MAX_PENDING_JOBS {
      BooksSlotTaken(s, r);
    } else {
      BooksMove(s, SetPhase(s, r, Overflow), r, Overflow);
    }
  }

  lemma BooksSlotTaken(s: State, r: RunId)
    requires BooksMatchRuns(s) && At(s, r, Registered)
    ensures BooksMatchRuns(StepTakeSlot(s, r))
  {
    BooksMove(s, StepTakeSlot(s, r), r, Waiting);
  }

  lemma BooksOverflowDone(s: State, r: RunId)
    requires BooksMatchRuns(s) && At(s, r, OverflowForgotten)
    ensures BooksMatchRuns(StepOverflowDone(s, r))
  {
    BooksMove(s, StepOverflowDone(s, r), r, Rejecting);
  }

  lemma BooksTakeExec(s: State, r: RunId)
    requires BooksMatchRuns(s) && At(s, r, Waiting)
    ensures BooksMatchRuns(StepTakeExec(s, r))
  {
    BooksMove(s, StepTakeExec(s, r), r, Checking);
  }

  lemma BooksRejectCancelled(s: State, r: RunId)
    requires BooksMatchRuns(s) && At(s, r, Cancelled)
    ensures BooksMatchRuns(SetPhase(Report(s, r, RQueued), r, Unexecuted))
  {
    BooksMove(s, SetPhase(Report(s, r, RQueued), r, Unexecuted), r, Unexecuted);
  }

  lemma BooksUnwinding(s: State, e: UnwindingEvent)
    requires BooksMatchRuns(s)
    ensures BooksMatchRuns(StepUnwinding(s, e))
  {
    match e
    case FreeExec(r) => if At(s, r, Leaving) { BooksMove(s, StepFreeExec(s, r), r, Unexecuted); }
    case ForgetRun(r) => if At(s, r, Unexecuted) { BooksForget(s, r, Forgotten); }
    case FreePending(r) => if At(s, r, Forgotten) { BooksMove(s, StepFreePending(s, r), r, Unpended); }
    case Done(r) => if At(s, r, Unpended) { BooksDrop(s, StepDone(s, r), r); }
  }

  lemma BooksWorld(s: State, e: WorldEvent)
    requires BooksMatchRuns(s)
    ensures BooksMatchRuns(StepWorld(s, e))
  {
    if e.Crash? {
      assert StepCrash(s).books == EMPTY_BOOKS;
    } else {
      assert StepWorld(s, e).runs == s.runs && StepWorld(s, e).books == s.books && StepWorld(s, e).nextRun == s.nextRun;
    }
  }
}
