/**
  Never printed twice.  Document bytes of a job reach a printer in at most one run, over every
  interleaving of deliveries, reports, crashes and restarts, unless BeginPrint accepts a job
  that has paper already; and what it takes for BeginPrint to do so.
 */
module AgentOnce {
  import opened Ledger
  import opened Verdicts
  import opened Executor
  import opened AgentState
  import opened AgentBooks
  import opened AgentOwners
  import opened AgentQuiet
  import opened AgentPaper
  import opened AgentSegments
  import opened AgentSuccess

  type Jobs = set<JobId>

  /** From its BeginPrint to the record of its result, a run relies on its row being `printing`. */
  predicate Committed(ph: Phase) {
    ph.Reporting? || ph.Aborting? || ph.Authorized? || ph.Printing? || ph.Recording?
  }

  predicate Is(ledger: Verdicts, id: JobId, v: Verdict) { id in ledger && ledger[id] == v }

  predicate CommittedPrints(ledger: Verdicts, runs: Runs) {
    forall r :: r in runs && Committed(runs[r].phase) ==> Is(ledger, runs[r].job.id, VPrinting)
  }

  /** A touched segment has bytes on paper. */
  predicate Touched(segs: Segs, p: PrinterId, i: int) { HasSegment(segs, p, i) && 0 < segs[p][i].sent }

  lemma HasPaperMeaning(segs: Segs, id: JobId)
    ensures HasPaper(segs, id) <==> exists p, i :: Touched(segs, p, i) && segs[p][i].id == id
  {
    if HasPaper(segs, id) {
      var p :| p in segs && PaperOn(segs[p], id);
      var i :| 0 <= i < |segs[p]| && segs[p][i].id == id && 0 < segs[p][i].sent;
      assert Touched(segs, p, i);
    }
    if exists p, i :: Touched(segs, p, i) && segs[p][i].id == id {
      var p, i :| Touched(segs, p, i) && segs[p][i].id == id;
      assert PaperOn(segs[p], id);
    }
  }

  /** While a run is committed, all paper of its job is its own. */
  predicate OwnPaper(segs: Segs, runs: Runs, r: RunId)
    requires r in runs
  {
    forall p, i :: p in segs && 0 <= i < |segs[p]| && Touched(segs, p, i) && segs[p][i].id == runs[r].job.id ==>
      segs[p][i].run == r && Sending(runs[r].phase)
  }

  ghost predicate CommittedOwn(segs: Segs, runs: Runs, reopened: Jobs) {
    forall r :: r in runs && Committed(runs[r].phase) && runs[r].job.id !in reopened ==> OwnPaper(segs, runs, r)
  }

  predicate LiveSender(runs: Runs, g: Segment) {
    g.run in runs && Sending(runs[g.run].phase) && runs[g.run].job.id == g.id
  }

  /** The ledger guards the job, or its row is printing and its run is still at it, or the agent is down. */
  predicate Cover(ledger: Verdicts, runs: Runs, up: bool, g: Segment) {
    Guarded(ledger, g.id) || (Is(ledger, g.id, VPrinting) && (!up || LiveSender(runs, g)))
  }

  ghost predicate Covered(ledger: Verdicts, segs: Segs, runs: Runs, up: bool, exposed: Jobs, reopened: Jobs) {
    forall p, i :: Touched(segs, p, i) && segs[p][i].id !in exposed && segs[p][i].id !in reopened ==>
      Cover(ledger, runs, up, segs[p][i])
  }

  /** All paper of one job comes from one run. */
  ghost predicate OncePerJob(segs: Segs, reopened: Jobs) {
    forall p, i, q, j ::
      Touched(segs, p, i) && Touched(segs, q, j) && segs[p][i].id == segs[q][j].id && segs[p][i].id !in reopened ==>
      segs[p][i].run == segs[q][j].run
  }

  predicate SingleRun(runs: Runs) {
    forall r, q ::
      && r in runs && q in runs && InProcess(runs[r].phase) && InProcess(runs[q].phase)
      && runs[r].job.id == runs[q].job.id
      ==> r == q
  }

  lemma RegisteredOnce(s: State)
    requires BooksMatchRuns(s)
    ensures SingleRun(s.runs)
  {
    LinkedIsSingle(s.books.owner, s.books.heard, s.runs);
  }

  lemma LinkedIsSingle(owner: Owners, heard: Heard, runs: Runs)
    requires Linked(owner, heard, runs)
    ensures SingleRun(runs)
  {
    forall r, q | r in runs && q in runs && InProcess(runs[r].phase) && InProcess(runs[q].phase)
      && runs[r].job.id == runs[q].job.id
      ensures r == q
    {
      assert RegisteredRun(runs, r) && RegisteredRun(runs, q);
    }
  }

  ghost predicate OnceParts(ledger: Verdicts, segs: Segs, runs: Runs, up: bool, exposed: Jobs, reopened: Jobs) {
    && CommittedPrints(ledger, runs) && CommittedOwn(segs, runs, reopened)
    && Covered(ledger, segs, runs, up, exposed, reopened) && OncePerJob(segs, reopened)
  }

  // ------------------------------------------------------------ the parts, step by step

  lemma PartsQuiet(ledger: Verdicts, segs: Segs, was: Runs, now: Runs, nextRun: RunId, up: bool, ex: Jobs, re: Jobs)
    requires OnceParts(ledger, segs, was, up, ex, re) && QuietRuns(was, now, nextRun)
    ensures OnceParts(ledger, segs, now, up, ex, re)
  {
    forall r | r in now && Committed(now[r].phase)
      ensures Is(ledger, now[r].job.id, VPrinting) && (now[r].job.id !in re ==> OwnPaper(segs, now, r))
    {
      assert r in was && Ages(was[r], now[r]) && (now[r].job.id !in re ==> OwnPaper(segs, was, r));
    }
    forall p, i | Touched(segs, p, i) && segs[p][i].id !in ex && segs[p][i].id !in re
      ensures Cover(ledger, now, up, segs[p][i])
    {
      assert Cover(ledger, was, up, segs[p][i]);
      assert LiveSender(was, segs[p][i]) ==> Ages(was[segs[p][i].run], now[segs[p][i].run]);
    }
  }

  /** A run moves on while ledger and paper stay: it does not commit, and keeps sending if it was. */
  lemma PartsMove(ledger: Verdicts, segs: Segs, runs: Runs, r: RunId, to: Run, ex: Jobs, re: Jobs)
    requires OnceParts(ledger, segs, runs, true, ex, re) && r in runs && to.job == runs[r].job
    requires Committed(to.phase) ==> Committed(runs[r].phase)
    requires Sending(runs[r].phase) ==> Sending(to.phase)
    ensures OnceParts(ledger, segs, runs[r := to], true, ex, re)
  {
    var after := runs[r := to];
    forall q | q in after && Committed(after[q].phase) && after[q].job.id !in re
      ensures OwnPaper(segs, after, q)
    {
      assert OwnPaper(segs, runs, q);
    }
    forall p, i | Touched(segs, p, i) && segs[p][i].id !in ex && segs[p][i].id !in re
      ensures Cover(ledger, after, true, segs[p][i])
    {
      assert Cover(ledger, runs, true, segs[p][i]);
    }
  }

  lemma PartsOpen(ledger: Verdicts, segs: Segs, runs: Runs, p: PrinterId, g: Segment, ex: Jobs, re: Jobs)
    requires OnceParts(ledger, segs, runs, true, ex, re) && g.sent == 0
    ensures OnceParts(ledger, Appended(segs, p, g), runs, true, ex, re)
  {
    var after := Appended(segs, p, g);
    forall a, i | HasSegment(after, a, i)
      ensures after[a][i] == g || (HasSegment(segs, a, i) && after[a][i] == segs[a][i])
    {
    }
    forall q | q in runs && Committed(runs[q].phase) && runs[q].job.id !in re
      ensures OwnPaper(after, runs, q)
    {
      assert OwnPaper(segs, runs, q);
    }
  }

  /**
    The row of a run that is not sending changes.  It keeps printing, or the run gives up; and
    if the job has no paper, or counts as reopened, no paper depends on the row.
   */
  lemma PartsRow(
      ledger: Verdicts, segs: Segs, runs: Runs, r: RunId, to: Run, v: Verdict, ex: Jobs, re: Jobs,
      ex2: Jobs, re2: Jobs)
    requires OnceParts(ledger, segs, runs, true, ex, re) && SingleRun(runs)
    requires r in runs && InProcess(runs[r].phase) && !Sending(runs[r].phase)
    requires to.job == runs[r].job && !Sending(to.phase) && (Committed(to.phase) ==> v == VPrinting)
    requires re <= re2 && ex <= ex2 + {runs[r].job.id}
    requires runs[r].job.id in re2 || !HasPaper(segs, runs[r].job.id)
    ensures OnceParts(ledger[runs[r].job.id := v], segs, runs[r := to], true, ex2, re2)
  {
    HasPaperMeaning(segs, runs[r].job.id);
    var after := runs[r := to];
    forall p, i | Touched(segs, p, i) && segs[p][i].id !in ex2 && segs[p][i].id !in re2
      ensures Cover(ledger[runs[r].job.id := v], after, true, segs[p][i])
    {
      assert segs[p][i].id != runs[r].job.id;
      assert Cover(ledger, runs, true, segs[p][i]);
    }
    RowCommitted(ledger, segs, runs, r, to, v, re, re2);
  }

  lemma RowCommitted(ledger: Verdicts, segs: Segs, runs: Runs, r: RunId, to: Run, v: Verdict, re: Jobs, re2: Jobs)
    requires CommittedPrints(ledger, runs) && CommittedOwn(segs, runs, re) && SingleRun(runs)
    requires r in runs && InProcess(runs[r].phase) && to.job == runs[r].job
    requires Committed(to.phase) ==> v == VPrinting
    requires re <= re2
    requires Committed(to.phase) ==>
               runs[r].job.id in re2 || forall p, i :: Touched(segs, p, i) ==> segs[p][i].id != runs[r].job.id
    ensures CommittedPrints(ledger[runs[r].job.id := v], runs[r := to]) && CommittedOwn(segs, runs[r := to], re2)
  {
    var after := runs[r := to];
    forall q | q in after && Committed(after[q].phase)
      ensures Is(ledger[runs[r].job.id := v], after[q].job.id, VPrinting)
              && (after[q].job.id !in re2 ==> OwnPaper(segs, after, q))
    {
      assert q != r ==> Is(ledger, runs[q].job.id, VPrinting) && (runs[q].job.id !in re2 ==> OwnPaper(segs, runs, q));
      assert q != r ==> runs[q].job.id != runs[r].job.id;
    }
  }

  lemma OwnSegmentIsLast(segs: Segs, runs: Runs, nextRun: RunId, r: RunId, p: PrinterId, i: int)
    requires SegsMatch(segs, runs, nextRun) && r in runs && Sending(runs[r].phase)
    requires HasSegment(segs, p, i) && segs[p][i].run == r
    ensures segs[p][i].sent == runs[r].phase.sent
  {
    assert Open(segs, r, runs[r]);
    assert HasSegment(segs, runs[r].job.printer, |segs[runs[r].job.printer]| - 1);
  }

  /**
    The transport's answer is recorded.  If bytes went out, the ledger guards the job from now
    on, or the job is exposed.
   */
  lemma PartsRecord(
      ledger: Verdicts, after: Verdicts, segs: Segs, runs: Runs, nextRun: RunId, r: RunId, to: Run,
      ex: Jobs, ex2: Jobs, re: Jobs)
    requires OnceParts(ledger, segs, runs, true, ex, re) && SingleRun(runs) && SegsMatch(segs, runs, nextRun)
    requires r in runs && runs[r].phase.Recording? && to.job == runs[r].job && to.phase.Final?
    requires forall id :: id != runs[r].job.id ==>
             (id in after <==> id in ledger) && (id in ledger ==> after[id] == ledger[id])
    requires ex <= ex2 && (runs[r].phase.sent > 0 ==> Guarded(after, runs[r].job.id) || runs[r].job.id in ex2)
    ensures OnceParts(after, segs, runs[r := to], true, ex2, re)
  {
    forall p, i | Touched(segs, p, i) && segs[p][i].id !in ex2 && segs[p][i].id !in re
      ensures Cover(after, runs[r := to], true, segs[p][i])
    {
      assert Cover(ledger, runs, true, segs[p][i]);
      if segs[p][i].id == runs[r].job.id {
        assert OwnPaper(segs, runs, r);
        OwnSegmentIsLast(segs, runs, nextRun, r, p, i);
      } else {
        assert SegmentOk(segs[p][i], p, runs, nextRun);
      }
    }
    RecordCommitted(ledger, after, segs, runs, r, to, re);
  }

  lemma RecordCommitted(ledger: Verdicts, after: Verdicts, segs: Segs, runs: Runs, r: RunId, to: Run, re: Jobs)
    requires CommittedPrints(ledger, runs) && CommittedOwn(segs, runs, re) && SingleRun(runs)
    requires r in runs && InProcess(runs[r].phase) && !Committed(to.phase)
    requires forall id :: id != runs[r].job.id ==>
             (id in after <==> id in ledger) && (id in ledger ==> after[id] == ledger[id])
    ensures CommittedPrints(after, runs[r := to]) && CommittedOwn(segs, runs[r := to], re)
  {
    var now := runs[r := to];
    forall q | q in now && Committed(now[q].phase)
      ensures Is(after, now[q].job.id, VPrinting) && (now[q].job.id !in re ==> OwnPaper(segs, now, q))
    {
      assert Is(ledger, runs[q].job.id, VPrinting) && (runs[q].job.id !in re ==> OwnPaper(segs, runs, q));
    }
  }

  lemma PartsSend(ledger: Verdicts, segs: Segs, runs: Runs, r: RunId, n: nat, ex: Jobs, re: Jobs)
    requires OnceParts(ledger, segs, runs, true, ex, re) && SingleRun(runs)
    requires r in runs && runs[r].phase.Printing? && Open(segs, r, runs[r])
    ensures OnceParts(ledger, Regrown(segs, runs[r].job.printer, GrownBy(r, runs[r], n)),
                      runs[r := runs[r].(phase := Printing(runs[r].phase.sent + n))], true, ex, re)
  {
    SendCovers(ledger, segs, runs, r, n, ex, re);
    SendOwn(segs, runs, r, n, re);
    SendOnce(segs, runs, r, n, re);
  }

  lemma SendCovers(ledger: Verdicts, segs: Segs, runs: Runs, r: RunId, n: nat, ex: Jobs, re: Jobs)
    requires OnceParts(ledger, segs, runs, true, ex, re)
    requires r in runs && runs[r].phase.Printing? && Open(segs, r, runs[r])
    ensures Covered(ledger, Regrown(segs, runs[r].job.printer, GrownBy(r, runs[r], n)),
                    runs[r := runs[r].(phase := Printing(runs[r].phase.sent + n))], true, ex, re)
  {
    var g := GrownBy(r, runs[r], n);
    var after := Regrown(segs, runs[r].job.printer, g);
    RegrownAt(segs, runs[r].job.printer, g);
    assert Is(ledger, runs[r].job.id, VPrinting);
    forall p, i | Touched(after, p, i) && after[p][i].id !in ex && after[p][i].id !in re
      ensures Cover(ledger, runs[r := runs[r].(phase := Printing(runs[r].phase.sent + n))], true, after[p][i])
    {
      assert HasSegment(segs, p, i);
      assert after[p][i] != g ==> Touched(segs, p, i) && Cover(ledger, runs, true, segs[p][i]);
    }
  }

  /** What is on paper after a send: a segment of the sender, or an untouched old one. */
  lemma SentSegment(segs: Segs, runs: Runs, r: RunId, n: nat, p: PrinterId, i: int)
    requires r in runs && runs[r].phase.Printing? && Open(segs, r, runs[r])
    requires Touched(Regrown(segs, runs[r].job.printer, GrownBy(r, runs[r], n)), p, i)
    ensures || Regrown(segs, runs[r].job.printer, GrownBy(r, runs[r], n))[p][i] == GrownBy(r, runs[r], n)
            || (Touched(segs, p, i) && Regrown(segs, runs[r].job.printer, GrownBy(r, runs[r], n))[p][i] == segs[p][i])
  {
    RegrownAt(segs, runs[r].job.printer, GrownBy(r, runs[r], n));
    assert HasSegment(segs, p, i);
  }

  lemma SendOwn(segs: Segs, runs: Runs, r: RunId, n: nat, re: Jobs)
    requires CommittedOwn(segs, runs, re) && SingleRun(runs)
    requires r in runs && runs[r].phase.Printing? && Open(segs, r, runs[r])
    ensures CommittedOwn(Regrown(segs, runs[r].job.printer, GrownBy(r, runs[r], n)),
                         runs[r := runs[r].(phase := Printing(runs[r].phase.sent + n))], re)
  {
    var after := Regrown(segs, runs[r].job.printer, GrownBy(r, runs[r], n));
    var now := runs[r := runs[r].(phase := Printing(runs[r].phase.sent + n))];
    forall q | q in now && Committed(now[q].phase) && now[q].job.id !in re
      ensures OwnPaper(after, now, q)
    {
      assert OwnPaper(segs, runs, q);
      forall p, i | Touched(after, p, i) && after[p][i].id == now[q].job.id
        ensures after[p][i].run == q && Sending(now[q].phase)
      {
        SentSegment(segs, runs, r, n, p, i);
      }
    }
  }

  lemma SendOnce(segs: Segs, runs: Runs, r: RunId, n: nat, re: Jobs)
    requires CommittedOwn(segs, runs, re) && OncePerJob(segs, re)
    requires r in runs && runs[r].phase.Printing? && Open(segs, r, runs[r])
    ensures OncePerJob(Regrown(segs, runs[r].job.printer, GrownBy(r, runs[r], n)), re)
  {
    var g := GrownBy(r, runs[r], n);
    var after := Regrown(segs, runs[r].job.printer, g);
    assert g.id !in re ==> OwnPaper(segs, runs, r);
    forall p, i, q, j | Touched(after, p, i) && Touched(after, q, j) && after[p][i].id == after[q][j].id
      && after[p][i].id !in re
      ensures after[p][i].run == after[q][j].run
    {
      SentSegment(segs, runs, r, n, p, i);
      SentSegment(segs, runs, r, n, q, j);
    }
  }

  lemma PartsCrash(ledger: Verdicts, segs: Segs, runs: Runs, up: bool, ex: Jobs, re: Jobs)
    requires OnceParts(ledger, segs, runs, up, ex, re)
    ensures OnceParts(ledger, segs, map[], false, ex, re)
  {
    forall p, i | Touched(segs, p, i) && segs[p][i].id !in ex && segs[p][i].id !in re
      ensures Cover(ledger, map[], false, segs[p][i])
    {
      assert Cover(ledger, runs, up, segs[p][i]);
    }
  }

  /** Startup turns every printing row it does not miss into evidence, so only missed rows are exposed. */
  lemma PartsRestart(ledger: Verdicts, segs: Segs, missed: Jobs, ex: Jobs, re: Jobs)
    requires OnceParts(ledger, segs, map[], false, ex, re)
    ensures OnceParts(VMarkAll(ledger, missed), segs, map[], true,
                      (ex - PrintingRows(ledger)) + (missed * PrintingRows(ledger)), re)
  {
    forall p, i | Touched(segs, p, i) && segs[p][i].id !in re
                  && segs[p][i].id !in (ex - PrintingRows(ledger)) + (missed * PrintingRows(ledger))
      ensures Cover(VMarkAll(ledger, missed), map[], true, segs[p][i])
    {
      assert segs[p][i].id in ex ==> Is(ledger, segs[p][i].id, VPrinting);
      assert segs[p][i].id !in ex ==> Cover(ledger, map[], false, segs[p][i]);
    }
  }

  /** Deleting rows leaves printing rows alone and exposes what it deletes. */
  lemma PartsDelete(ledger: Verdicts, after: Verdicts, segs: Segs, runs: Runs, up: bool, ex: Jobs, re: Jobs)
    requires OnceParts(ledger, segs, runs, up, ex, re)
    requires forall id :: Is(ledger, id, VPrinting) ==> Is(after, id, VPrinting)
    ensures OnceParts(after, segs, runs, up, ex + (GuardedRows(ledger) - GuardedRows(after)), re)
  {
    forall p, i | Touched(segs, p, i) && segs[p][i].id !in re
      && segs[p][i].id !in ex + (GuardedRows(ledger) - GuardedRows(after))
      ensures Cover(after, runs, up, segs[p][i])
    {
      assert Cover(ledger, runs, up, segs[p][i]);
    }
  }

  // ------------------------------------------------------------ steps

  ghost predicate OnceInv(s: State) {
    (!s.up ==> s.runs == map[]) && OnceParts(s.ledger, s.segs, s.runs, s.up, s.exposed, s.reopened)
  }

  /** Everything the agent keeps. */
  ghost predicate AgentInv(s: State) {
    SlotsCounted(s) && BooksMatchRuns(s) && PaperInv(s) && OnceInv(s)
  }

  predicate SameRecord(s: State, t: State) {
    t.up == s.up && t.exposed == s.exposed && t.reopened == s.reopened
  }

  lemma QuietKeepsOnce(s: State, t: State)
    requires OnceInv(s) && Quiet(s, t)
    ensures OnceInv(t)
  {
    PartsQuiet(s.ledger, s.segs, s.runs, t.runs, s.nextRun, s.up, s.exposed, s.reopened);
    if !s.up {
      assert t.runs.Keys == {};
    }
  }

  lemma MoveKeepsOnce(s: State, t: State, r: RunId, ph: Phase)
    requires OnceInv(s) && r in s.runs && t.runs == s.runs[r := s.runs[r].(phase := ph)]
    requires t.ledger == s.ledger && t.segs == s.segs && SameRecord(s, t)
    requires Committed(ph) ==> Committed(s.runs[r].phase)
    requires Sending(s.runs[r].phase) ==> Sending(ph)
    ensures OnceInv(t)
  {
    PartsMove(s.ledger, s.segs, s.runs, r, s.runs[r].(phase := ph), s.exposed, s.reopened);
  }

  lemma StepKeepsOnce(s: State, e: Event)
    requires BooksMatchRuns(s) && PaperInv(s) && OnceInv(s)
    ensures OnceInv(Step(s, e))
  {
    RegisteredOnce(s);
    match e
    case Admission(a) => AdmissionIsQuiet(s, a); QuietKeepsOnce(s, StepAdmission(s, a));
    case Checks(c) => CheckingKeepsOnce(s, c);
    case Output(o) => OutputKeepsOnce(s, o);
    case Unwinding(u) => UnwindingIsQuiet(s, u); QuietKeepsOnce(s, StepUnwinding(s, u));
    case World(w) => WorldKeepsOnce(s, w);
  }

  lemma CheckingKeepsOnce(s: State, e: CheckingEvent)
    requires SingleRun(s.runs) && OnceInv(s)
    ensures OnceInv(StepChecking(s, e))
  {
    match e
    case Check(r, found) => if At(s, r, Checking) { CheckKeepsOnce(s, r, found); }
    case LockForBegin(r) => if At(s, r, WantsBegin) { LockKeepsOnce(s, r); }
    case BeginNow(r, seen, dbOk) => if At(s, r, Beginning) { BeginKeepsOnce(s, r, seen, dbOk); }
    case HandBack(r) => if At(s, r, HandingBack) { HandBackKeepsOnce(s, r); }
    case ReportPrinting(r, result, at) => if At(s, r, Reporting) { ReportKeepsOnce(s, r, result, at); }
    case AbortNow(r, dbOk) => if At(s, r, Aborting) { AbortKeepsOnce(s, r, dbOk); }
  }

  lemma CheckKeepsOnce(s: State, r: RunId, found: CheckResult)
    requires OnceInv(s) && At(s, r, Checking)
    ensures OnceInv(SetPhase(s, r, CheckLeadsTo(s, s.runs[r].job.id, found)))
  {
    MoveKeepsOnce(s, SetPhase(s, r, CheckLeadsTo(s, s.runs[r].job.id, found)), r,
        CheckLeadsTo(s, s.runs[r].job.id, found));
  }

  lemma LockKeepsOnce(s: State, r: RunId)
    requires OnceInv(s) && At(s, r, WantsBegin)
    ensures OnceInv(StepLockForBegin(s, r))
  {
    MoveKeepsOnce(s, StepLockForBegin(s, r), r, Beginning);
  }

  lemma HandBackKeepsOnce(s: State, r: RunId)
    requires OnceInv(s) && At(s, r, HandingBack)
    ensures OnceInv(SetPhase(Report(s, r, RQueued), r, Leaving))
  {
    MoveKeepsOnce(s, SetPhase(Report(s, r, RQueued), r, Leaving), r, Leaving);
  }

  lemma ReportKeepsOnce(s: State, r: RunId, result: ReportResult, at: Time)
    requires OnceInv(s) && At(s, r, Reporting)
    ensures OnceInv(StepReportPrinting(s, r, result, at))
  {
    MoveKeepsOnce(s, StepReportPrinting(s, r, result, at), r,
                  if MayDispatch(s, s.runs[r].job, result, at) then Authorized else Aborting);
  }

  lemma BeginKeepsOnce(s: State, r: RunId, seen: bool, dbOk: bool)
    requires SingleRun(s.runs) && OnceInv(s) && At(s, r, Beginning)
    ensures OnceInv(StepBegin(s, r, seen, dbOk))
  {
    BeginFields(s, r, seen, dbOk);
    if !Begins(s, s.runs[r].job.id, dbOk) {
      MoveKeepsOnce(s, StepBegin(s, r, seen, dbOk), r, BeginLeadsTo(s, s.runs[r].job.id, seen, dbOk));
    } else {
      BeginKeepsOnceIn(s, StepBegin(s, r, seen, dbOk), r, dbOk);
    }
  }

  lemma BeginKeepsOnceIn(s: State, t: State, r: RunId, dbOk: bool)
    requires SingleRun(s.runs) && OnceInv(s) && At(s, r, Beginning) && Begins(s, s.runs[r].job.id, dbOk)
    requires t.segs == s.segs && t.up == s.up && t.reprint == s.reprint
    requires t.ledger == s.ledger[s.runs[r].job.id := VPrinting]
             && t.runs == s.runs[r := s.runs[r].(phase := Reporting)]
    requires t.exposed == ExposedAfterBegin(s, s.runs[r].job.id, dbOk)
             && t.reopened == ReopenedAfterBegin(s, s.runs[r].job.id, dbOk)
    ensures OnceInv(t)
  {
    PartsRow(s.ledger, s.segs, s.runs, r, s.runs[r].(phase := Reporting), VPrinting, s.exposed,
        s.reopened, t.exposed, t.reopened);
  }

  /**
    BeginPrint accepts a job that has paper, for the first time, only if it is exposed, or unknown
    and reprinting is on.
   */
  lemma AcceptedPaperIsExposed(s: State, r: RunId, dbOk: bool)
    requires SingleRun(s.runs) && OnceInv(s) && At(s, r, Beginning) && s.runs[r].job.id !in s.reopened
    requires Reopens(s, s.runs[r].job.id, dbOk)
    ensures s.runs[r].job.id in s.exposed || (s.reprint && Is(s.ledger, s.runs[r].job.id, VUnknown))
  {
    HasPaperMeaning(s.segs, s.runs[r].job.id);
    var p, i :| Touched(s.segs, p, i) && s.segs[p][i].id == s.runs[r].job.id;
    assert s.runs[r].job.id !in s.exposed ==> Cover(s.ledger, s.runs, true, s.segs[p][i]);
  }

  lemma AbortKeepsOnce(s: State, r: RunId, dbOk: bool)
    requires SingleRun(s.runs) && OnceInv(s) && At(s, r, Aborting)
    ensures OnceInv(StepAbort(s, r, dbOk))
  {
    if !dbOk || !Is(s.ledger, s.runs[r].job.id, VPrinting) {
      MoveKeepsOnce(s, StepAbort(s, r, dbOk), r, Leaving);
    } else {
      AbortKeepsOnceIn(s, StepAbort(s, r, dbOk), r);
    }
  }

  lemma AbortKeepsOnceIn(s: State, t: State, r: RunId)
    requires SingleRun(s.runs) && OnceInv(s) && At(s, r, Aborting)
    requires t.segs == s.segs && SameRecord(s, t) && t.ledger == s.ledger[s.runs[r].job.id := VQueued]
    requires t.runs == s.runs[r := s.runs[r].(phase := Leaving)]
    ensures OnceInv(t)
  {
    HasPaperMeaning(s.segs, s.runs[r].job.id);
    assert s.runs[r].job.id !in s.reopened ==> OwnPaper(s.segs, s.runs, r);
    PartsRow(s.ledger, s.segs, s.runs, r, s.runs[r].(phase := Leaving), VQueued, s.exposed,
        s.reopened, s.exposed, s.reopened);
  }

  lemma OutputKeepsOnce(s: State, e: OutputEvent)
    requires SingleRun(s.runs) && PaperInv(s) && OnceInv(s)
    ensures OnceInv(StepOutput(s, e))
  {
    match e
    case LockForPrint(r, seen) => if At(s, r, Authorized) { OpenKeepsOnce(s, r, seen); }
    case SendBytes(r, n) => if MaySend(s, r, n) { SendKeepsOnce(s, r, n); }
    case _ => ResultKeepsOnce(s, e);
  }

  predicate MaySend(s: State, r: RunId, n: nat) {
    r in s.runs && s.runs[r].phase.Printing? && s.runs[r].phase.sent + n <= |s.runs[r].job.data|
  }

  lemma ResultKeepsOnce(s: State, e: OutputEvent)
    requires SingleRun(s.runs) && SegsMatch(s.segs, s.runs, s.nextRun) && OnceInv(s)
    requires e.TransportReturns? || e.Record? || e.SendFinal?
    ensures OnceInv(StepOutput(s, e))
  {
    match e
    case TransportReturns(r, answer) => if r in s.runs && s.runs[r].phase.Printing? { ReturnKeepsOnce(s, r, answer); }
    case Record(r, dbOk) => if r in s.runs && s.runs[r].phase.Recording? { RecordKeepsOnce(s, r, dbOk); }
    case SendFinal(r) => if r in s.runs && s.runs[r].phase.Final? { FinalKeepsOnce(s, r); }
  }

  /** The second look at IsProcessed, before the print, never finds a success: the row is the run's own. */
  lemma SecondLookFindsNothing(s: State, r: RunId)
    requires OnceInv(s) && At(s, r, Authorized)
    ensures !Processed(s, s.runs[r].job.id)
  {
    assert Is(s.ledger, s.runs[r].job.id, VPrinting);
  }

  lemma OpenKeepsOnce(s: State, r: RunId, seen: bool)
    requires OnceInv(s) && At(s, r, Authorized)
    ensures OnceInv(StepLockForPrint(s, r, s.runs[r].job, seen))
  {
    SecondLookFindsNothing(s, r);
    NewSegmentKeepsOnce(s, r);
  }

  lemma NewSegmentKeepsOnce(s: State, r: RunId)
    requires OnceInv(s) && At(s, r, Authorized)
    ensures OnceInv(SetPhase(OpenSegment(s, r, s.runs[r].job), r, Printing(0)))
  {
    PartsMove(s.ledger, s.segs, s.runs, r, s.runs[r].(phase := Printing(0)), s.exposed, s.reopened);
    PartsOpen(s.ledger, s.segs, s.runs[r := s.runs[r].(phase := Printing(0))], s.runs[r].job.printer,
              Segment(r, s.runs[r].job.id, s.runs[r].job.data, 0), s.exposed, s.reopened);
  }

  lemma SendKeepsOnce(s: State, r: RunId, n: nat)
    requires SingleRun(s.runs) && OnceInv(s) && r in s.runs && s.runs[r].phase.Printing? && Open(s.segs, r, s.runs[r])
    requires s.runs[r].phase.sent + n <= |s.runs[r].job.data|
    ensures OnceInv(StepSendBytes(s, r, s.runs[r].job, s.runs[r].phase.sent, n))
  {
    SendFields(s, r, n);
    SendKeepsOnceIn(s, StepSendBytes(s, r, s.runs[r].job, s.runs[r].phase.sent, n), r, n);
  }

  lemma SendFields(s: State, r: RunId, n: nat)
    requires r in s.runs && s.runs[r].phase.Printing? && Open(s.segs, r, s.runs[r])
    requires s.runs[r].phase.sent + n <= |s.runs[r].job.data|
    ensures SendShape(s, StepSendBytes(s, r, s.runs[r].job, s.runs[r].phase.sent, n), r, n)
  {}

  /** What sending changes, as far as this invariant is concerned. */
  predicate SendShape(s: State, t: State, r: RunId, n: nat)
    requires r in s.runs && s.runs[r].phase.Printing? && Open(s.segs, r, s.runs[r])
  {
    && t.ledger == s.ledger && SameRecord(s, t)
    && t.segs == Regrown(s.segs, s.runs[r].job.printer, GrownBy(r, s.runs[r], n))
    && t.runs == s.runs[r := s.runs[r].(phase := Printing(s.runs[r].phase.sent + n))]
  }

  lemma SendKeepsOnceIn(s: State, t: State, r: RunId, n: nat)
    requires SingleRun(s.runs) && OnceInv(s) && r in s.runs && s.runs[r].phase.Printing? && Open(s.segs, r, s.runs[r])
    requires SendShape(s, t, r, n)
    ensures OnceInv(t)
  {
    PartsSend(s.ledger, s.segs, s.runs, r, n, s.exposed, s.reopened);
  }

  lemma ReturnKeepsOnce(s: State, r: RunId, answer: Answer)
    requires OnceInv(s) && r in s.runs && s.runs[r].phase.Printing?
    ensures OnceInv(StepTransportReturns(s, r, answer))
  {
    MoveKeepsOnce(s, StepTransportReturns(s, r, answer), r, Recording(s.runs[r].phase.sent, answer));
  }

  lemma RecordKeepsOnce(s: State, r: RunId, dbOk: bool)
    requires SingleRun(s.runs) && SegsMatch(s.segs, s.runs, s.nextRun) && OnceInv(s)
             && r in s.runs && s.runs[r].phase.Recording?
    ensures OnceInv(StepRecord(s, r, s.runs[r].phase.sent, s.runs[r].phase.answer, dbOk))
  {
    RecordFields(s, r, dbOk);
    RecordKeepsOnceIn(s, StepRecord(s, r, s.runs[r].phase.sent, s.runs[r].phase.answer, dbOk), r, dbOk);
  }

  lemma RecordKeepsOnceIn(s: State, t: State, r: RunId, dbOk: bool)
    requires SingleRun(s.runs) && SegsMatch(s.segs, s.runs, s.nextRun) && OnceInv(s)
             && r in s.runs && s.runs[r].phase.Recording?
    requires RecordShape(s, t, r, dbOk)
    ensures OnceInv(t)
  {
    PartsRecord(s.ledger, t.ledger, s.segs, s.runs, s.nextRun, r,
                s.runs[r].(phase := Final(if s.runs[r].phase.answer == AllTaken then RSuccess else RFailed)),
                s.exposed, t.exposed, s.reopened);
  }

  lemma FinalKeepsOnce(s: State, r: RunId)
    requires OnceInv(s) && r in s.runs && s.runs[r].phase.Final?
    ensures OnceInv(SetPhase(Report(s, r, s.runs[r].phase.status), r, Leaving))
  {
    MoveKeepsOnce(s, SetPhase(Report(s, r, s.runs[r].phase.status), r, Leaving), r, Leaving);
  }

  lemma WorldKeepsOnce(s: State, e: WorldEvent)
    requires OnceInv(s)
    ensures OnceInv(StepWorld(s, e))
  {
    match e
    case Stop =>
    case Crash => PartsCrash(s.ledger, s.segs, s.runs, s.up, s.exposed, s.reopened);
    case Restart(missed) => if !s.up { PartsRestart(s.ledger, s.segs, missed, s.exposed, s.reopened); }
    case CleanUp => PartsDelete(s.ledger, VCleaned(s.ledger), s.segs, s.runs, s.up, s.exposed, s.reopened);
    case Purge => PartsDelete(s.ledger, VPurged(s.ledger), s.segs, s.runs, s.up, s.exposed, s.reopened);
  }
}
