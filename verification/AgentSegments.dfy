/**
  Every step keeps the locks, the segments and the paper in agreement.
 */
module AgentSegments {
  import opened Bytes
  import opened Ledger
  import opened Verdicts
  import opened Executor
  import opened AgentState
  import opened AgentQuiet
  import opened AgentPaper

  type Paper = map<PrinterId, seq<Mark>>

  /** What a list of segments looks like on paper. */
  function Flatten(g: seq<Segment>): seq<Mark> {
    if g == [] then [] else Flatten(g[..|g| - 1]) + SegmentMarks(g[|g| - 1])
  }

  function SegmentMarks(g: Segment): seq<Mark> {
    MarksOf(g.run, g.id, if g.sent <= |g.data| then g.data[..g.sent] else g.data)
  }

  function PaperAt(paper: Paper, p: PrinterId): seq<Mark> { if p in paper then paper[p] else [] }
  function SegsAt(segs: Segs, p: PrinterId): seq<Segment> { if p in segs then segs[p] else [] }

  ghost predicate PaperMatches(paper: Paper, segs: Segs) {
    forall p :: PaperAt(paper, p) == Flatten(SegsAt(segs, p))
  }

  lemma {:induction false} MarksOfConcat(r: RunId, id: JobId, a: seq<byte>, b: seq<byte>)
    ensures MarksOf(r, id, a + b) == MarksOf(r, id, a) + MarksOf(r, id, b)
    decreases |b|
  {
    if b == [] {
      assert a + b == a;
    } else {
      assert (a + b)[..|a + b| - 1] == a + b[..|b| - 1];
      MarksOfConcat(r, id, a, b[..|b| - 1]);
    }
  }

  lemma FlattenSnoc(gs: seq<Segment>, g: Segment)
    ensures Flatten(gs + [g]) == Flatten(gs) + SegmentMarks(g)
  {
    assert (gs + [g])[..|gs|] == gs;
  }

  lemma OpeningAddsNothing(gs: seq<Segment>, g: Segment)
    requires g.sent == 0
    ensures Flatten(gs + [g]) == Flatten(gs)
  {
    FlattenSnoc(gs, g);
    assert g.data[..0] == [];
  }

  lemma PaperOpens(paper: Paper, segs: Segs, p: PrinterId, g: Segment)
    requires PaperMatches(paper, segs) && g.sent == 0
    ensures PaperMatches(paper, Appended(segs, p, g))
  {
    OpeningAddsNothing(SegsAt(segs, p), g);
    assert PaperAt(paper, p) == Flatten(SegsAt(segs, p));
    SegsUpdate(paper, segs, p, SegsAt(segs, p) + [g]);
  }

  lemma SegsUpdate(paper: Paper, segs: Segs, p: PrinterId, list: seq<Segment>)
    requires PaperMatches(paper, segs) && PaperAt(paper, p) == Flatten(list)
    ensures PaperMatches(paper, segs[p := list])
  {
    var after := segs[p := list];
    forall q
      ensures PaperAt(paper, q) == Flatten(SegsAt(after, q))
    {
      assert PaperAt(paper, q) == Flatten(SegsAt(segs, q));
    }
  }

  lemma FlattenGrows(gs: seq<Segment>, r: RunId, id: JobId, data: seq<byte>, sent: nat, n: nat)
    requires sent + n <= |data|
    ensures Flatten(gs + [Segment(r, id, data, sent + n)])
            == Flatten(gs + [Segment(r, id, data, sent)]) + MarksOf(r, id, data[sent..sent + n])
  {
    FlattenSnoc(gs, Segment(r, id, data, sent));
    FlattenSnoc(gs, Segment(r, id, data, sent + n));
    SegmentGrows(r, id, data, sent, n);
  }

  lemma SegmentGrows(r: RunId, id: JobId, data: seq<byte>, sent: nat, n: nat)
    requires sent + n <= |data|
    ensures SegmentMarks(Segment(r, id, data, sent + n))
            == SegmentMarks(Segment(r, id, data, sent)) + MarksOf(r, id, data[sent..sent + n])
  {
    PrefixGrows(data, sent, n);
    MarksOfConcat(r, id, data[..sent], data[sent..sent + n]);
  }

  lemma PrefixGrows(data: seq<byte>, sent: nat, n: nat)
    requires sent + n <= |data|
    ensures data[..sent + n] == data[..sent] + data[sent..sent + n]
  {}

  lemma PaperUpdate(paper: Paper, segs: Segs, p: PrinterId, marks: seq<Mark>, list: seq<Segment>)
    requires PaperMatches(paper, segs) && marks == Flatten(list)
    ensures PaperMatches(paper[p := marks], segs[p := list])
  {
    var after := paper[p := marks];
    forall q
      ensures PaperAt(after, q) == Flatten(SegsAt(segs[p := list], q))
    {
      assert PaperAt(paper, q) == Flatten(SegsAt(segs, q));
    }
  }

  /** The next n bytes of a run's document, as they appear on paper. */
  function NextMarks(r: RunId, run: Run, n: nat): seq<Mark>
    requires run.phase.Printing? && run.phase.sent + n <= |run.job.data|
  {
    MarksOf(r, run.job.id, run.job.data[run.phase.sent..run.phase.sent + n])
  }

  /** Sending n more bytes puts exactly those bytes behind everything already on the paper. */
  lemma PaperGrows(paper: Paper, segs: Segs, r: RunId, run: Run, n: nat)
    requires PaperMatches(paper, segs) && run.phase.Printing? && Open(segs, r, run)
    requires run.phase.sent + n <= |run.job.data|
    ensures PaperMatches(paper[run.job.printer := PaperAt(paper, run.job.printer) + NextMarks(r, run, n)],
                         Regrown(segs, run.job.printer, GrownBy(r, run, n)))
  {
    var init := segs[run.job.printer][..|segs[run.job.printer]| - 1];
    assert segs[run.job.printer] == init + [Segment(r, run.job.id, run.job.data, run.phase.sent)];
    FlattenGrows(init, r, run.job.id, run.job.data, run.phase.sent, n);
    assert PaperAt(paper, run.job.printer) == Flatten(SegsAt(segs, run.job.printer));
    PaperUpdate(paper, segs, run.job.printer, PaperAt(paper, run.job.printer) + NextMarks(r, run, n),
                init + [GrownBy(r, run, n)]);
  }

  // ------------------------------------------------------------ the invariant

  predicate Numbered(runs: Runs, nextRun: RunId) { forall r :: r in runs ==> r < nextRun }

  ghost predicate PaperInv(s: State) {
    && Numbered(s.runs, s.nextRun) && LocksMatch(s.locks, s.runs) && SegsMatch(s.segs, s.runs, s.nextRun)
    && PaperMatches(s.paper, s.segs)
  }

  lemma QuietKeepsPaper(s: State, t: State)
    requires PaperInv(s) && Quiet(s, t)
    ensures PaperInv(t)
  {
    LocksQuiet(s.locks, s.runs, t.runs, s.nextRun);
    SegsQuiet(s.segs, s.runs, t.runs, s.nextRun, t.nextRun);
  }

  /** A run moves on without touching segments or paper; `t` says what happens to its lock. */
  lemma MoveKeepsPaper(s: State, t: State, r: RunId, ph: Phase)
    requires PaperInv(s) && r in s.runs && t.runs == s.runs[r := s.runs[r].(phase := ph)] && t.nextRun == s.nextRun
    requires t.segs == s.segs && t.paper == s.paper
    requires Past(s.runs[r].phase) ==> Past(ph)
    requires Sending(ph) ==> Sending(s.runs[r].phase) && ph.sent == s.runs[r].phase.sent
    requires
      || (t.locks == s.locks && HoldsLock(ph) == HoldsLock(s.runs[r].phase))
      || (t.locks == s.locks - {s.runs[r].job.printer} && HoldsLock(s.runs[r].phase) && !HoldsLock(ph))
      || (t.locks == s.locks[s.runs[r].job.printer := r] && s.runs[r].job.printer !in s.locks && HoldsLock(ph))
    ensures PaperInv(t)
  {
    SegsMove(s.segs, s.runs, s.nextRun, r, s.runs[r].(phase := ph));
    if t.locks == s.locks && HoldsLock(ph) == HoldsLock(s.runs[r].phase) {
      LocksKeep(s.locks, s.runs, r, s.runs[r].(phase := ph));
    } else if HoldsLock(ph) {
      LocksTake(s.locks, s.runs, r, s.runs[r].(phase := ph));
    } else {
      LocksRelease(s.locks, s.runs, r, s.runs[r].(phase := ph));
    }
  }

  lemma StepKeepsPaper(s: State, e: Event)
    requires PaperInv(s)
    ensures PaperInv(Step(s, e))
  {
    match e
    case Admission(a) => AdmissionKeepsPaper(s, a);
    case Checks(c) => CheckingKeepsPaper(s, c);
    case Output(o) => OutputKeepsPaper(s, o);
    case Unwinding(u) => UnwindingIsQuiet(s, u); QuietKeepsPaper(s, StepUnwinding(s, u));
    case World(w) => WorldKeepsPaper(s, w);
  }

  lemma AdmissionKeepsPaper(s: State, e: AdmissionEvent)
    requires PaperInv(s)
    ensures PaperInv(StepAdmission(s, e))
  {
    AdmissionIsQuiet(s, e);
    QuietKeepsPaper(s, StepAdmission(s, e));
  }

  lemma CheckingKeepsPaper(s: State, e: CheckingEvent)
    requires PaperInv(s)
    ensures PaperInv(StepChecking(s, e))
  {
    match e
    case Check(r, found) =>
      if At(s, r, Checking) { MoveKeepsPaper(s, StepChecking(s, e), r, CheckLeadsTo(s, s.runs[r].job.id, found)); }
    case LockForBegin(r) =>
      if At(s, r, WantsBegin) && s.runs[r].job.printer !in s.locks {
        MoveKeepsPaper(s, StepLockForBegin(s, r), r, Beginning);
      }
    case BeginNow(r, seen, dbOk) => if At(s, r, Beginning) { BeginKeepsPaper(s, r, seen, dbOk); }
    case HandBack(r) => if At(s, r, HandingBack) { HandBackKeepsPaper(s, r); }
    case ReportPrinting(r, result, at) => if At(s, r, Reporting) { ReportKeepsPaper(s, r, result, at); }
    case AbortNow(r, dbOk) => if At(s, r, Aborting) { AbortKeepsPaper(s, r, dbOk); }
  }

  lemma BeginKeepsPaper(s: State, r: RunId, seen: bool, dbOk: bool)
    requires PaperInv(s) && At(s, r, Beginning)
    ensures PaperInv(StepBegin(s, r, seen, dbOk))
  {
    MoveKeepsPaper(s, StepBegin(s, r, seen, dbOk), r, BeginLeadsTo(s, s.runs[r].job.id, seen, dbOk));
  }

  lemma HandBackKeepsPaper(s: State, r: RunId)
    requires PaperInv(s) && At(s, r, HandingBack)
    ensures PaperInv(SetPhase(Report(s, r, RQueued), r, Leaving))
  {
    MoveKeepsPaper(s, SetPhase(Report(s, r, RQueued), r, Leaving), r, Leaving);
  }

  lemma ReportKeepsPaper(s: State, r: RunId, result: ReportResult, at: Time)
    requires PaperInv(s) && At(s, r, Reporting)
    ensures PaperInv(StepReportPrinting(s, r, result, at))
  {
    MoveKeepsPaper(s, StepReportPrinting(s, r, result, at), r,
                   if MayDispatch(s, s.runs[r].job, result, at) then Authorized else Aborting);
  }

  lemma AbortKeepsPaper(s: State, r: RunId, dbOk: bool)
    requires PaperInv(s) && At(s, r, Aborting)
    ensures PaperInv(StepAbort(s, r, dbOk))
  {
    MoveKeepsPaper(s, StepAbort(s, r, dbOk), r, Leaving);
  }

  lemma OutputKeepsPaper(s: State, e: OutputEvent)
    requires PaperInv(s)
    ensures PaperInv(StepOutput(s, e))
  {
    match e
    case LockForPrint(r, seen) =>
      if At(s, r, Authorized) && s.runs[r].job.printer !in s.locks {
        if seen && Processed(s, s.runs[r].job.id) {
          MoveKeepsPaper(s, SetPhase(s, r, Leaving), r, Leaving);
        } else {
          OpenKeepsPaper(s, r);
        }
      }
    case SendBytes(r, n) =>
      if r in s.runs && s.runs[r].phase.Printing? && s.runs[r].phase.sent + n <= |s.runs[r].job.data| {
        SendKeepsPaper(s, r, n);
      }
    case TransportReturns(r, answer) =>
      if r in s.runs && s.runs[r].phase.Printing? { ReturnKeepsPaper(s, r, answer); }
    case Record(r, dbOk) =>
      if r in s.runs && s.runs[r].phase.Recording? { RecordKeepsPaper(s, r, dbOk); }
    case SendFinal(r) =>
      if r in s.runs && s.runs[r].phase.Final? { FinalKeepsPaper(s, r); }
  }

  lemma OpenKeepsPaper(s: State, r: RunId)
    requires PaperInv(s) && At(s, r, Authorized) && s.runs[r].job.printer !in s.locks
    ensures PaperInv(SetPhase(OpenSegment(s, r, s.runs[r].job), r, Printing(0)))
  {
    var to := s.runs[r].(phase := Printing(0));
    var g := Segment(r, to.job.id, to.job.data, 0);
    LocksTake(s.locks, s.runs, r, to);
    SegsOpenOk(s.segs, s.runs, s.nextRun, r, to);
    SegsOpenOne(s.segs, s.runs, s.nextRun, to.job.printer, g);
    SegsOpenAll(s.segs, s.locks, s.runs, s.nextRun, r, to);
    PaperOpens(s.paper, s.segs, to.job.printer, g);
  }

  /** What sending n bytes leaves alone, and what it changes. */
  predicate HasSent(s: State, t: State, r: RunId, n: nat)
    requires r in s.runs && s.runs[r].phase.Printing? && Open(s.segs, r, s.runs[r])
    requires s.runs[r].phase.sent + n <= |s.runs[r].job.data|
  {
    && t.locks == s.locks && t.nextRun == s.nextRun
    && t.runs == s.runs[r := s.runs[r].(phase := Printing(s.runs[r].phase.sent + n))]
    && t.segs == Regrown(s.segs, s.runs[r].job.printer, GrownBy(r, s.runs[r], n))
    && t.paper == s.paper[s.runs[r].job.printer := PaperAt(s.paper, s.runs[r].job.printer)
                                                   + NextMarks(r, s.runs[r], n)]
  }

  lemma SendKeepsPaper(s: State, r: RunId, n: nat)
    requires PaperInv(s) && r in s.runs && s.runs[r].phase.Printing?
    requires s.runs[r].phase.sent + n <= |s.runs[r].job.data|
    ensures PaperInv(StepSendBytes(s, r, s.runs[r].job, s.runs[r].phase.sent, n))
  {
    StepSends(s, r, n);
    SentKeepsPaper(s, StepSendBytes(s, r, s.runs[r].job, s.runs[r].phase.sent, n), r, n);
  }

  lemma StepSends(s: State, r: RunId, n: nat)
    requires r in s.runs && s.runs[r].phase.Printing? && Open(s.segs, r, s.runs[r])
    requires s.runs[r].phase.sent + n <= |s.runs[r].job.data|
    ensures HasSent(s, StepSendBytes(s, r, s.runs[r].job, s.runs[r].phase.sent, n), r, n)
  {}

  lemma SentKeepsPaper(s: State, t: State, r: RunId, n: nat)
    requires PaperInv(s) && r in s.runs && s.runs[r].phase.Printing? && Open(s.segs, r, s.runs[r])
    requires s.runs[r].phase.sent + n <= |s.runs[r].job.data| && HasSent(s, t, r, n)
    ensures PaperInv(t)
  {
    LocksKeep(s.locks, s.runs, r, s.runs[r].(phase := Printing(s.runs[r].phase.sent + n)));
    SegsGrowOk(s.segs, s.runs, s.nextRun, r, n);
    SegsGrowOne(s.segs, s.runs[r].job.printer, GrownBy(r, s.runs[r], n));
    SegsGrowAll(s.segs, s.locks, s.runs, r, n);
    PaperGrows(s.paper, s.segs, r, s.runs[r], n);
  }

  lemma ReturnKeepsPaper(s: State, r: RunId, answer: Answer)
    requires PaperInv(s) && r in s.runs && s.runs[r].phase.Printing?
    ensures PaperInv(StepTransportReturns(s, r, answer))
  {
    MoveKeepsPaper(s, StepTransportReturns(s, r, answer), r, Recording(s.runs[r].phase.sent, answer));
  }

  lemma RecordKeepsPaper(s: State, r: RunId, dbOk: bool)
    requires PaperInv(s) && r in s.runs && s.runs[r].phase.Recording?
    ensures PaperInv(StepRecord(s, r, s.runs[r].phase.sent, s.runs[r].phase.answer, dbOk))
  {
    MoveKeepsPaper(s, StepRecord(s, r, s.runs[r].phase.sent, s.runs[r].phase.answer, dbOk), r,
                   Final(if s.runs[r].phase.answer == AllTaken then RSuccess else RFailed));
  }

  lemma FinalKeepsPaper(s: State, r: RunId)
    requires PaperInv(s) && r in s.runs && s.runs[r].phase.Final?
    ensures PaperInv(SetPhase(Report(s, r, s.runs[r].phase.status), r, Leaving))
  {
    MoveKeepsPaper(s, SetPhase(Report(s, r, s.runs[r].phase.status), r, Leaving), r, Leaving);
  }

  lemma WorldKeepsPaper(s: State, e: WorldEvent)
    requires PaperInv(s)
    ensures PaperInv(StepWorld(s, e))
  {
    if e.Crash? {
      CrashKeepsSegs(s.segs, s.runs, s.nextRun);
    }
  }

  lemma CrashKeepsSegs(segs: Segs, runs: Runs, nextRun: RunId)
    requires SegsMatch(segs, runs, nextRun)
    ensures SegsMatch(segs, map[], nextRun)
  {
    forall p, i | HasSegment(segs, p, i)
      ensures SegmentOk(segs[p][i], p, map[], nextRun)
    {
      assert SegmentOk(segs[p][i], p, runs, nextRun);
    }
  }
}
