/**
  What holds over whole runs of the agent: any sequence of events from a fresh start.
 */
module AgentRuns {
  import opened Bytes
  import opened Ledger
  import opened Verdicts
  import opened Executor
  import opened AgentState
  import opened AgentBooks
  import opened AgentOwners
  import opened AgentQuiet
  import opened AgentPaper
  import opened AgentSegments
  import opened AgentSuccess
  import opened AgentOnce

  // ------------------------------------------------------------ the invariant over runs

  lemma InitialInv(reprint: bool)
    ensures AgentInv(InitialState(reprint))
  {
    SlotsNone(InitialState(reprint));
  }

  lemma StepInv(s: State, e: Event)
    requires AgentInv(s)
    ensures AgentInv(Step(s, e))
  {
    StepKeepsSlots(s, e);
    StepKeepsBooks(s, e);
    StepKeepsPaper(s, e);
    StepKeepsOnce(s, e);
  }

  lemma {:induction false} RunInv(s: State, events: seq<Event>)
    requires AgentInv(s)
    ensures AgentInv(After(s, events))
    decreases |events|
  {
    if events != [] {
      StepInv(s, events[0]);
      RunInv(Step(s, events[0]), events[1..]);
    }
  }

  // ------------------------------------------------------------ what exposes a job, and what reopens it

  /** BeginPrint accepts the job although it has paper. */
  predicate ReopensJob(s: State, e: Event, id: JobId) {
    e.Checks? && e.c.BeginNow? && At(s, e.c.r, Beginning) && s.runs[e.c.r].job.id == id && Reopens(s, id, e.c.dbOk)
  }

  /**
    The job loses the ledger entry that stands for its paper: bytes went out and the row does
    not say so afterwards, startup misses its printing row, or its success or unknown row is deleted.
   */
  predicate Exposes(s: State, e: Event, id: JobId) {
    || (e.Output? && e.o.Record? && e.o.r in s.runs && s.runs[e.o.r].phase.Recording? && s.runs[e.o.r].job.id == id
        && s.runs[e.o.r].phase.sent > 0
           && !Guarded(LedgerAfterRecord(s.ledger, id, s.runs[e.o.r].phase.answer, e.o.dbOk), id))
    || (e.World? && e.w.Restart? && !s.up && id in e.w.missed && Is(s.ledger, id, VPrinting))
    || (e.World? && e.w.CleanUp? && Is(s.ledger, id, VSuccess))
    || (e.World? && e.w.Purge? && Is(s.ledger, id, VUnknown))
  }

  /** Neither the setting nor the record of exposed and reopened jobs changes. */
  predicate SameMarks(s: State, t: State) {
    t.reprint == s.reprint && t.exposed == s.exposed && t.reopened == s.reopened
  }

  lemma PhaseMarks(base: State, r: RunId, ph: Phase)
    requires r in base.runs
    ensures SameMarks(base, SetPhase(base, r, ph))
  {}

  lemma CheckingMarks(s: State, e: CheckingEvent)
    requires !e.BeginNow?
    ensures SameMarks(s, StepChecking(s, e))
  {
    match e
    case Check(r, found) => if At(s, r, Checking) { PhaseMarks(s, r, CheckLeadsTo(s, s.runs[r].job.id, found)); }
    case LockForBegin(r) => LockForBeginMarks(s, r);
    case HandBack(r) => if At(s, r, HandingBack) { PhaseMarks(Report(s, r, RQueued), r, Leaving); }
    case ReportPrinting(r, result, at) => ReportMarks(s, r, result, at);
    case AbortNow(r, dbOk) => AbortMarks(s, r, dbOk);
  }

  lemma LockForBeginMarks(s: State, r: RunId)
    ensures SameMarks(s, StepChecking(s, LockForBegin(r)))
  {}

  lemma AbortMarks(s: State, r: RunId, dbOk: bool)
    ensures SameMarks(s, StepChecking(s, AbortNow(r, dbOk)))
  {
    if At(s, r, Aborting) {
      PhaseMarks(s.(ledger := if dbOk then VAbort(s.ledger, s.runs[r].job.id) else s.ledger), r, Leaving);
    }
  }

  lemma ReportMarks(s: State, r: RunId, result: ReportResult, at: Time)
    ensures SameMarks(s, StepChecking(s, ReportPrinting(r, result, at)))
  {
    if At(s, r, Reporting) {
      PhaseMarks(Report(s, r, RPrinting), r, if MayDispatch(s, s.runs[r].job, result, at)
          then Authorized else Aborting);
    }
  }

  lemma OutputMarks(s: State, e: OutputEvent)
    requires !e.Record?
    ensures SameMarks(s, StepOutput(s, e))
  {
    match e
    case LockForPrint(r, seen) => if At(s, r, Authorized) { LockMarks(s, r, seen); }
    case SendBytes(r, n) => SendMarks(s, r, n);
    case _ =>
  }

  lemma LockMarks(s: State, r: RunId, seen: bool)
    requires r in s.runs
    ensures SameMarks(s, StepLockForPrint(s, r, s.runs[r].job, seen))
  {
    if seen && Processed(s, s.runs[r].job.id) {
      PhaseMarks(s, r, Leaving);
    } else {
      PhaseMarks(OpenSegment(s, r, s.runs[r].job), r, Printing(0));
    }
  }

  lemma SendMarks(s: State, r: RunId, n: nat)
    ensures SameMarks(s, StepOutput(s, SendBytes(r, n)))
  {
    if r in s.runs && s.runs[r].phase.Printing? && s.runs[r].phase.sent + n <= |s.runs[r].job.data| {
      PhaseMarks(Emit(s, r, s.runs[r].job, s.runs[r].phase.sent, n), r, Printing(s.runs[r].phase.sent + n));
    }
  }

  /** What one step adds to the record. */
  predicate Marked(s: State, t: State, e: Event, id: JobId) {
    && t.reprint == s.reprint
    && (id in t.reopened <==> id in s.reopened || ReopensJob(s, e, id))
    && (id in t.exposed ==> id in s.exposed || Exposes(s, e, id))
  }

  lemma StepMarks(s: State, e: Event, id: JobId)
    requires s.nextRun !in s.runs
    ensures Marked(s, Step(s, e), e, id)
  {
    match e
    case Admission(a) => AdmissionIsQuiet(s, a);
    case Checks(c) => if c.BeginNow? { BeginMarks(s, c, id); } else { CheckingMarks(s, c); }
    case Output(o) => if o.Record? { RecordMarks(s, o, id); } else { OutputMarks(s, o); }
    case Unwinding(u) => UnwindingIsQuiet(s, u);
    case World(w) => WorldMarks(s, w, id);
  }

  lemma BeginMarks(s: State, e: CheckingEvent, id: JobId)
    requires e.BeginNow?
    ensures Marked(s, StepChecking(s, e), Checks(e), id)
  {
    if At(s, e.r, Beginning) { BeginFields(s, e.r, e.seen, e.dbOk); }
  }

  lemma RecordMarks(s: State, e: OutputEvent, id: JobId)
    requires e.Record?
    ensures Marked(s, StepOutput(s, e), Output(e), id)
  {
    if e.r in s.runs && s.runs[e.r].phase.Recording? {
      RecordFields(s, e.r, e.dbOk);
      PhaseMarks(s, e.r, s.runs[e.r].phase);
    }
  }

  lemma WorldMarks(s: State, e: WorldEvent, id: JobId)
    ensures Marked(s, StepWorld(s, e), World(e), id)
  {}

  predicate NeverReopened(s: State, events: seq<Event>, id: JobId)
    decreases |events|
  {
    events == [] || (!ReopensJob(s, events[0], id) && NeverReopened(Step(s, events[0]), events[1..], id))
  }

  predicate NeverExposed(s: State, events: seq<Event>, id: JobId)
    decreases |events|
  {
    events == [] || (!Exposes(s, events[0], id) && NeverExposed(Step(s, events[0]), events[1..], id))
  }

  /** `reopened` holds exactly the jobs that BeginPrint accepted although they had paper. */
  lemma {:induction false} ReopenedMeaning(s: State, events: seq<Event>, id: JobId)
    requires AgentInv(s)
    ensures id in After(s, events).reopened <==> id in s.reopened || !NeverReopened(s, events, id)
    ensures After(s, events).reprint == s.reprint
    decreases |events|
  {
    if events != [] {
      StepMarks(s, events[0], id);
      StepInv(s, events[0]);
      ReopenedMeaning(Step(s, events[0]), events[1..], id);
    }
  }

  /** The first time BeginPrint accepts a job with paper, the job is exposed or the setting is on. */
  lemma FirstReopening(s: State, e: Event, id: JobId)
    requires AgentInv(s) && id !in s.reopened && ReopensJob(s, e, id)
    ensures id in s.exposed || s.reprint
  {
    RegisteredOnce(s);
    AcceptedPaperIsExposed(s, e.c.r, e.c.dbOk);
  }

  /**
    Without reprint_after_crash, BeginPrint never accepts a job that has paper if the job was
    never exposed.
   */
  lemma {:induction false} OnlyExposedAreReopened(s: State, events: seq<Event>, id: JobId)
    requires AgentInv(s) && !s.reprint && id !in s.exposed && id !in s.reopened && NeverExposed(s, events, id)
    ensures NeverReopened(s, events, id)
    decreases |events|
  {
    if events != [] {
      if ReopensJob(s, events[0], id) { FirstReopening(s, events[0], id); }
      StepMarks(s, events[0], id);
      StepInv(s, events[0]);
      OnlyExposedAreReopened(Step(s, events[0]), events[1..], id);
    }
  }

  /** A record that reaches the ledger exposes nothing if the transport kept its contract. */
  lemma HonestRecordGuards(s: State, r: RunId)
    requires AgentInv(s) && r in s.runs && s.runs[r].phase.Recording?
    requires HonestAnswer(s.runs[r].phase.answer, s.runs[r].phase.sent, |s.runs[r].job.data|)
    ensures !Exposes(s, Output(Record(r, true)), s.runs[r].job.id)
  {
    assert Is(s.ledger, s.runs[r].job.id, VPrinting);
  }

  // ------------------------------------------------------------ careful surroundings

  /**
    Nothing goes wrong around the agent: transports keep their contract, results reach the
    ledger, startup misses nothing, and nobody deletes rows.
   */
  predicate Careful(s: State, e: Event) {
    match e
    case Output(o) =>
      && (o.TransportReturns? && o.r in s.runs && s.runs[o.r].phase.Printing? ==>
            HonestAnswer(o.answer, s.runs[o.r].phase.sent, |s.runs[o.r].job.data|))
      && (o.Record? ==> o.dbOk)
    case World(w) => !w.CleanUp? && !w.Purge? && (w.Restart? ==> w.missed == {})
    case _ => true
  }

  predicate AllCareful(s: State, events: seq<Event>)
    decreases |events|
  {
    events == [] || (Careful(s, events[0]) && AllCareful(Step(s, events[0]), events[1..]))
  }

  predicate HonestRun(run: Run) {
    run.phase.Recording? ==> HonestAnswer(run.phase.answer, run.phase.sent, |run.job.data|)
  }

  predicate AllHonest(runs: Runs) { forall r :: r in runs ==> HonestRun(runs[r]) }

  lemma MoveKeepsHonest(s: State, t: State, r: RunId)
    requires AllHonest(s.runs) && r in s.runs && r in t.runs && t.runs == s.runs[r := t.runs[r]] && HonestRun(t.runs[r])
    ensures AllHonest(t.runs)
  {}

  lemma QuietKeepsHonest(was: Runs, now: Runs, nextRun: RunId)
    requires AllHonest(was) && QuietRuns(was, now, nextRun)
    ensures AllHonest(now)
  {
    forall r | r in now
      ensures HonestRun(now[r])
    {
      assert r in was ==> Ages(was[r], now[r]) && HonestRun(was[r]);
    }
  }

  lemma CheckingKeepsHonest(s: State, e: CheckingEvent)
    requires AllHonest(s.runs)
    ensures AllHonest(StepChecking(s, e).runs)
  {
    CheckingMoves(s, e);
    if StepChecking(s, e) != s {
      CheckingNeverRecords(s, e);
      MoveKeepsHonest(s, StepChecking(s, e), e.r);
    }
  }

  lemma CheckingNeverRecords(s: State, e: CheckingEvent)
    requires StepChecking(s, e) != s && e.r in StepChecking(s, e).runs
    ensures !StepChecking(s, e).runs[e.r].phase.Recording?
  {}

  lemma OutputKeepsHonest(s: State, e: OutputEvent)
    requires AllHonest(s.runs) && Careful(s, Output(e))
    ensures AllHonest(StepOutput(s, e).runs)
  {
    OutputMoves(s, e);
    if StepOutput(s, e) != s {
      OutputRecordsHonestly(s, e);
      MoveKeepsHonest(s, StepOutput(s, e), e.r);
    }
  }

  lemma OutputRecordsHonestly(s: State, e: OutputEvent)
    requires Careful(s, Output(e)) && StepOutput(s, e) != s && e.r in StepOutput(s, e).runs
    ensures HonestRun(StepOutput(s, e).runs[e.r])
  {
    if e.TransportReturns? {
      assert StepOutput(s, e) == StepTransportReturns(s, e.r, e.answer);
    } else {
      OnlyReturnsRecord(s, e);
    }
  }

  lemma OnlyReturnsRecord(s: State, e: OutputEvent)
    requires !e.TransportReturns? && StepOutput(s, e) != s && e.r in StepOutput(s, e).runs
    ensures !StepOutput(s, e).runs[e.r].phase.Recording?
  {}

  lemma StepKeepsHonest(s: State, e: Event)
    requires s.nextRun !in s.runs && AllHonest(s.runs) && Careful(s, e)
    ensures AllHonest(Step(s, e).runs)
  {
    match e
    case Admission(a) => AdmissionIsQuiet(s, a); QuietKeepsHonest(s.runs, StepAdmission(s, a).runs, s.nextRun);
    case Checks(c) => CheckingKeepsHonest(s, c);
    case Output(o) => OutputKeepsHonest(s, o);
    case Unwinding(u) => UnwindingIsQuiet(s, u); QuietKeepsHonest(s.runs, StepUnwinding(s, u).runs, s.nextRun);
    case World(w) =>
  }

  /** In careful surroundings no step exposes any job. */
  lemma CarefulExposesNothing(s: State, e: Event, id: JobId)
    requires AgentInv(s) && AllHonest(s.runs) && Careful(s, e)
    ensures !Exposes(s, e, id)
  {
    if e.Output? && e.o.Record? && e.o.r in s.runs && s.runs[e.o.r].phase.Recording? {
      HonestRecordGuards(s, e.o.r);
    }
  }

  lemma {:induction false} CarefulIsNeverExposed(s: State, events: seq<Event>, id: JobId)
    requires AgentInv(s) && AllHonest(s.runs) && AllCareful(s, events)
    ensures NeverExposed(s, events, id)
    decreases |events|
  {
    if events != [] {
      CarefulExposesNothing(s, events[0], id);
      StepKeepsHonest(s, events[0]);
      StepInv(s, events[0]);
      CarefulIsNeverExposed(Step(s, events[0]), events[1..], id);
    }
  }

  // ------------------------------------------------------------ marks on paper

  predicate HasMark(s: State, p: PrinterId, k: int) { 0 <= k < |PaperOf(s, p)| }

  lemma {:induction false} MarksOfAre(r: RunId, id: JobId, bs: seq<byte>)
    ensures |MarksOf(r, id, bs)| == |bs| && forall k :: 0 <= k < |bs| ==> MarksOf(r, id, bs)[k] == Mark(r, id, bs[k])
    decreases |bs|
  {
    if bs != [] {
      MarksOfAre(r, id, bs[..|bs| - 1]);
    }
  }

  /** Every mark lies in a touched segment of its run and job. */
  lemma {:induction false} MarkIsInSegment(g: seq<Segment>, k: int) returns (i: int)
    requires 0 <= k < |Flatten(g)|
    ensures 0 <= i < |g| && 0 < g[i].sent && g[i].run == Flatten(g)[k].run && g[i].id == Flatten(g)[k].id
    decreases |g|
  {
    var init := g[..|g| - 1];
    if k < |Flatten(init)| {
      i := MarkIsInSegment(init, k);
    } else {
      i := |g| - 1;
      MarksOfAre(g[i].run, g[i].id, if g[i].sent <= |g[i].data| then g[i].data[..g[i].sent] else g[i].data);
    }
  }

  // ------------------------------------------------------------ theorems

  /**
    All marks of a job, on whatever printers, were made by one run, unless BeginPrint accepted
    the job when it already had paper; whatever the settings, and whatever happens to other jobs.
   */
  lemma OnceUnlessReopened(reprint: bool, events: seq<Event>, p: PrinterId, k: int, q: PrinterId, l: int)
    requires HasMark(After(InitialState(reprint), events), p, k) && HasMark(After(InitialState(reprint), events), q, l)
    requires PaperOf(After(InitialState(reprint), events), p)[k].id
             == PaperOf(After(InitialState(reprint), events), q)[l].id
    requires NeverReopened(InitialState(reprint), events, PaperOf(After(InitialState(reprint), events), p)[k].id)
    ensures p == q
            && PaperOf(After(InitialState(reprint), events), p)[k].run
               == PaperOf(After(InitialState(reprint), events), q)[l].run
  {
    RunFacts(reprint, events);
    InitialInv(reprint);
    ReopenedMeaning(InitialState(reprint), events, PaperOf(After(InitialState(reprint), events), p)[k].id);
    OneRunPerPaper(After(InitialState(reprint), events), p, k, q, l);
  }

  lemma OneRunPerPaper(s: State, p: PrinterId, k: int, q: PrinterId, l: int)
    requires AgentInv(s) && forall p :: PaperOf(s, p) == Flatten(SegsAt(s.segs, p))
    requires HasMark(s, p, k) && HasMark(s, q, l) && PaperOf(s, p)[k].id == PaperOf(s, q)[l].id
    requires PaperOf(s, p)[k].id !in s.reopened
    ensures p == q && PaperOf(s, p)[k].run == PaperOf(s, q)[l].run
  {
    var i := MarkIsInSegment(SegsAt(s.segs, p), k);
    var j := MarkIsInSegment(SegsAt(s.segs, q), l);
    OneSegmentPerJob(s, p, i, q, j);
  }

  /**
    At most once.  Without reprint_after_crash, all marks of a job that is never exposed were
    made by one run, over every interleaving of deliveries, reports, crashes and restarts.
   */
  lemma AtMostOnce(events: seq<Event>, p: PrinterId, k: int, q: PrinterId, l: int)
    requires HasMark(After(InitialState(false), events), p, k) && HasMark(After(InitialState(false), events), q, l)
    requires PaperOf(After(InitialState(false), events), p)[k].id
             == PaperOf(After(InitialState(false), events), q)[l].id
    requires NeverExposed(InitialState(false), events, PaperOf(After(InitialState(false), events), p)[k].id)
    ensures p == q
            && PaperOf(After(InitialState(false), events), p)[k].run
               == PaperOf(After(InitialState(false), events), q)[l].run
  {
    InitialInv(false);
    OnlyExposedAreReopened(InitialState(false), events, PaperOf(After(InitialState(false), events), p)[k].id);
    OnceUnlessReopened(false, events, p, k, q, l);
  }

  /**
    The same from plain assumptions about the surroundings: honest transports, no lost record,
    no row missed at startup, no row deleted.  Then no job is printed twice.
   */
  lemma AtMostOnceWhenCareful(events: seq<Event>, p: PrinterId, k: int, q: PrinterId, l: int)
    requires AllCareful(InitialState(false), events)
    requires HasMark(After(InitialState(false), events), p, k) && HasMark(After(InitialState(false), events), q, l)
    requires PaperOf(After(InitialState(false), events), p)[k].id
             == PaperOf(After(InitialState(false), events), q)[l].id
    ensures p == q
            && PaperOf(After(InitialState(false), events), p)[k].run
               == PaperOf(After(InitialState(false), events), q)[l].run
  {
    InitialInv(false);
    CarefulIsNeverExposed(InitialState(false), events, PaperOf(After(InitialState(false), events), p)[k].id);
    AtMostOnce(events, p, k, q, l);
  }

  lemma RunFacts(reprint: bool, events: seq<Event>)
    ensures AgentInv(After(InitialState(reprint), events))
    ensures forall p ::
            PaperOf(After(InitialState(reprint), events), p)
                == Flatten(SegsAt(After(InitialState(reprint), events).segs, p))
  {
    InitialInv(reprint);
    RunInv(InitialState(reprint), events);
    forall p
      ensures PaperOf(After(InitialState(reprint), events), p)
              == Flatten(SegsAt(After(InitialState(reprint), events).segs, p))
    {
      assert PaperAt(After(InitialState(reprint), events).paper, p)
             == Flatten(SegsAt(After(InitialState(reprint), events).segs, p));
    }
  }

  lemma OneSegmentPerJob(s: State, p: PrinterId, i: int, q: PrinterId, j: int)
    requires AgentInv(s)
    requires 0 <= i < |SegsAt(s.segs, p)| && 0 <= j < |SegsAt(s.segs, q)|
    requires 0 < SegsAt(s.segs, p)[i].sent && 0 < SegsAt(s.segs, q)[j].sent
             && SegsAt(s.segs, p)[i].id == SegsAt(s.segs, q)[j].id
    requires SegsAt(s.segs, p)[i].id !in s.reopened
    ensures p == q && i == j
  {
    assert Touched(s.segs, p, i) && Touched(s.segs, q, j);
  }

  lemma OneTouchedSegment(s: State, p: PrinterId, i: int, q: PrinterId, j: int)
    requires AgentInv(s) && Touched(s.segs, p, i) && Touched(s.segs, q, j)
    requires s.segs[p][i].id == s.segs[q][j].id && s.segs[p][i].id !in s.reopened
    ensures p == q && i == j && s.segs[p][i].sent <= |s.segs[p][i].data|
  {
    OneSegmentPerJob(s, p, i, q, j);
    assert SegmentOk(s.segs[p][i], p, s.runs, s.nextRun);
  }

  /**
    At most one attempt.  All paper of a job that is not reopened is one segment: one prefix of
    one document on one printer, with nothing of any other job in between.
   */
  lemma OneAttempt(reprint: bool, events: seq<Event>, p: PrinterId, i: int, q: PrinterId, j: int)
    requires Touched(After(InitialState(reprint), events).segs, p, i)
             && Touched(After(InitialState(reprint), events).segs, q, j)
    requires After(InitialState(reprint), events).segs[p][i].id == After(InitialState(reprint), events).segs[q][j].id
    requires NeverReopened(InitialState(reprint), events, After(InitialState(reprint), events).segs[p][i].id)
    ensures p == q && i == j
    ensures After(InitialState(reprint), events).segs[p][i].sent
            <= |After(InitialState(reprint), events).segs[p][i].data|
  {
    InitialInv(reprint);
    RunInv(InitialState(reprint), events);
    ReopenedMeaning(InitialState(reprint), events, After(InitialState(reprint), events).segs[p][i].id);
    OneTouchedSegment(After(InitialState(reprint), events), p, i, q, j);
  }

  /**
    Output is never interleaved: in every run, whatever the settings and whatever breaks, a
    printer's paper is its segments one after the other, each a prefix of one document, each of
    a different run, and no run prints on two printers.
   */
  lemma NeverInterleaved(reprint: bool, events: seq<Event>, p: PrinterId)
    ensures PaperOf(After(InitialState(reprint), events), p)
            == Flatten(SegsAt(After(InitialState(reprint), events).segs, p))
    ensures forall i :: HasSegment(After(InitialState(reprint), events).segs, p, i) ==>
              After(InitialState(reprint), events).segs[p][i].sent
                  <= |After(InitialState(reprint), events).segs[p][i].data|
    ensures OneEach(After(InitialState(reprint), events).segs)
  {
    RunFacts(reprint, events);
    var s := After(InitialState(reprint), events);
    forall i | HasSegment(s.segs, p, i)
      ensures s.segs[p][i].sent <= |s.segs[p][i].data|
    {
      assert SegmentOk(s.segs[p][i], p, s.runs, s.nextRun);
    }
  }

  predicate NoFalseSuccess(s: State, events: seq<Event>)
    decreases |events|
  {
    events == [] || (!FalseSuccess(s, events[0]) && NoFalseSuccess(Step(s, events[0]), events[1..]))
  }

  lemma {:induction false} RunSuccess(s: State, events: seq<Event>)
    requires AgentInv(s) && SuccessInv(s) && NoFalseSuccess(s, events)
    ensures SuccessInv(After(s, events))
    decreases |events|
  {
    if events != [] {
      StepInv(s, events[0]);
      StepKeepsSuccess(s, events[0]);
      RunSuccess(Step(s, events[0]), events[1..]);
    }
  }

  /**
    Every success the agent reports is for a job one of whose documents was accepted whole, in
    one segment.  All it takes is that no transport claims a whole document it has not taken:
    crashes, lost ledger writes, missed rows, deleted rows and reprints do not matter.
   */
  lemma SuccessIsPrinted(reprint: bool, events: seq<Event>, k: int)
    requires NoFalseSuccess(InitialState(reprint), events)
    requires 0 <= k < |After(InitialState(reprint), events).reports|
    requires After(InitialState(reprint), events).reports[k].status == RSuccess
    ensures Full(After(InitialState(reprint), events).segs, After(InitialState(reprint), events).reports[k].id)
  {
    InitialInv(reprint);
    RunSuccess(InitialState(reprint), events);
  }

  /** The executor is never over its limits, its counters are its holders, and a job has one run. */
  lemma ExecutorAccounts(reprint: bool, events: seq<Event>)
    ensures SlotsCounted(After(InitialState(reprint), events))
    ensures SameKeys(After(InitialState(reprint), events).books)
    ensures SingleRun(After(InitialState(reprint), events).runs)
  {
    RunFacts(reprint, events);
    RegisteredOnce(After(InitialState(reprint), events));
  }

  /** When every run has come to its end, every slot and every reservation is back. */
  lemma EverythingReturned(reprint: bool, events: seq<Event>)
    requires After(InitialState(reprint), events).runs == map[]
    ensures After(InitialState(reprint), events).books == EMPTY_BOOKS
  {
    RunFacts(reprint, events);
    NoRunsNoBooks(After(InitialState(reprint), events));
  }

  lemma NoRunsNoBooks(s: State)
    requires SlotsCounted(s) && BooksMatchRuns(s) && s.runs == map[]
    ensures s.books == EMPTY_BOOKS
  {
    assert Holders(s.runs, PendingSlot) == {} && Holders(s.runs, ExecSlot) == {} && Holders(s.runs, WaitGroup) == {};
    assert forall id :: id in s.books.owner ==> Backed(s.runs, id, s.books.owner[id]);
    assert s.books.owner == map[] && s.books.tokens == map[] && s.books.received == map[] && s.books.heard == map[];
  }

  // ------------------------------------------------------------ tokens on reports

  /** The report carries the latest non-empty token delivered for its job, if the job is in flight. */
  predicate CurrentReport(s: State, x: Sent) {
    && x.run in s.runs && x.id == s.runs[x.run].job.id
    && (RegisteredRun(s.runs, x.run) ==> x.id in s.books.heard && x.token == LastNonEmpty(s.books.heard[x.id]))
    && (x.id in s.books.heard && LastNonEmpty(s.books.heard[x.id]) != NoToken ==>
       x.token == LastNonEmpty(s.books.heard[x.id]))
  }

  predicate NoOrCurrentReport(s: State, t: State) {
    t.reports == s.reports
    || (|t.reports| == |s.reports| + 1 && t.reports[..|s.reports|] == s.reports
       && CurrentReport(s, t.reports[|s.reports|]))
  }

  function NewSent(s: State, r: RunId, status: ReportStatus): Sent
    requires r in s.runs
  {
    Sent(r, s.runs[r].job.id, status, ReportToken(s.books, s.runs[r].job))
  }

  lemma ReportIsCurrent(s: State, r: RunId, status: ReportStatus)
    requires BooksMatchRuns(s) && r in s.runs
    ensures CurrentReport(s, NewSent(s, r, status))
    ensures NoOrCurrentReport(s, Report(s, r, status))
  {
    if RegisteredRun(s.runs, r) {
      assert Mine(s.books.owner, s.books.heard, r, s.runs[r].job);
      ReportTokenIsLatest(s.books, s.runs[r].job);
    }
    if s.runs[r].job.id in s.books.heard {
      assert TokenCurrent(s.books, s.runs[r].job.id);
    }
  }

  lemma StepReportsCurrent(s: State, e: Event)
    requires BooksMatchRuns(s)
    ensures NoOrCurrentReport(s, Step(s, e))
  {
    match e
    case Admission(a) => AdmissionReportsCurrent(s, a);
    case Checks(c) => CheckingReportsCurrent(s, c);
    case Output(o) => OutputReportsCurrent(s, o);
    case Unwinding(u) => NothingReported(s, u);
    case World(w) => NothingReportedByWorld(s, w);
  }

  lemma NothingReportedByWorld(s: State, e: WorldEvent)
    ensures StepWorld(s, e).reports == s.reports
  {}

  lemma NothingReported(s: State, e: UnwindingEvent)
    ensures StepUnwinding(s, e).reports == s.reports
  {}

  lemma AdmissionReportsCurrent(s: State, e: AdmissionEvent)
    requires BooksMatchRuns(s)
    ensures NoOrCurrentReport(s, StepAdmission(s, e))
  {
    match e
    case SendReject(r) => if At(s, r, Rejecting) { ReportIsCurrent(s, r, RQueued); }
    case RejectCancelled(r) => if At(s, r, Cancelled) { ReportIsCurrent(s, r, RQueued); }
    case Deliver(d, now) => DeliveryReportsNothing(s, d, now);
    case TakeSlot(r) => if At(s, r, Registered) { SlotReportsNothing(s, r); }
    case _ => OthersReportNothing(s, e);
  }

  lemma DeliveryReportsNothing(s: State, d: Delivery, now: Time)
    ensures StepDeliver(s, d, now).reports == s.reports
  {
    if !s.stopping && !InFlight(s.books, d.id) {
      assert StepRegister(s, d, now).reports == s.reports;
    } else if s.stopping {
      assert StepTurnAway(s, d).reports == s.reports;
    }
  }

  lemma SlotReportsNothing(s: State, r: RunId)
    requires r in s.runs
    ensures StepSlot(s, r).reports == s.reports
  {
    if s.books.pending < MAX_PENDING_JOBS {
      PhaseReportsNothing(s.(books := s.books.(pending := s.books.pending + 1)), r, Waiting);
    } else {
      PhaseReportsNothing(s, r, Overflow);
    }
  }

  lemma PhaseReportsNothing(base: State, r: RunId, ph: Phase)
    requires r in base.runs
    ensures SetPhase(base, r, ph).reports == base.reports
  {}

  lemma OthersReportNothing(s: State, e: AdmissionEvent)
    requires e.DropOverflow? || e.OverflowDone? || e.TakeExec? || e.CancelWait?
    ensures StepAdmission(s, e).reports == s.reports
  {}

  lemma OutputReportsCurrent(s: State, e: OutputEvent)
    requires BooksMatchRuns(s)
    ensures NoOrCurrentReport(s, StepOutput(s, e))
  {
    if e.SendFinal? && e.r in s.runs && s.runs[e.r].phase.Final? {
      ReportIsCurrent(s, e.r, s.runs[e.r].phase.status);
    }
  }

  lemma CheckingReportsCurrent(s: State, e: CheckingEvent)
    requires BooksMatchRuns(s)
    ensures NoOrCurrentReport(s, StepChecking(s, e))
  {
    match e
    case HandBack(r) =>
      if At(s, r, HandingBack) {
        ReportIsCurrent(s, r, RQueued);
        PhaseReportsNothing(Report(s, r, RQueued), r, Leaving);
      }
    case ReportPrinting(r, result, at) => if At(s, r, Reporting) { PrintingReportCurrent(s, r, result, at); }
    case _ => ChecksReportNothing(s, e);
  }

  lemma PrintingReportCurrent(s: State, r: RunId, result: ReportResult, at: Time)
    requires BooksMatchRuns(s) && r in s.runs
    ensures NoOrCurrentReport(s, StepReportPrinting(s, r, result, at))
  {
    ReportIsCurrent(s, r, RPrinting);
    PhaseReportsNothing(Report(s, r, RPrinting), r,
                        if MayDispatch(s, s.runs[r].job, result, at) then Authorized else Aborting);
  }

  lemma ChecksReportNothing(s: State, e: CheckingEvent)
    requires !e.HandBack? && !e.ReportPrinting?
    ensures StepChecking(s, e).reports == s.reports
  {}

  lemma {:induction false} AfterSnoc(s: State, events: seq<Event>, e: Event)
    ensures After(s, events + [e]) == Step(After(s, events), e)
    decreases |events|
  {
    if events != [] {
      assert (events + [e])[1..] == events[1..] + [e];
      AfterSnoc(Step(s, events[0]), events[1..], e);
    } else {
      assert (events + [e])[1..] == [];
    }
  }

  lemma LastReport(s: State, t: State, k: int)
    requires NoOrCurrentReport(s, t) && 0 <= k < |t.reports|
    ensures if k < |s.reports| then t.reports[k] == s.reports[k] else CurrentReport(s, t.reports[k])
  {
    if |t.reports| > |s.reports| {
      assert k < |s.reports| ==> t.reports[..|s.reports|][k] == t.reports[k];
    }
  }

  /** Every report of a run was made at some moment, under the token that was current at that moment. */
  lemma {:induction false} ReportsWereCurrent(reprint: bool, events: seq<Event>, k: int) returns (n: nat)
    requires 0 <= k < |After(InitialState(reprint), events).reports|
    ensures n < |events|
    ensures CurrentReport(After(InitialState(reprint), events[..n]), After(InitialState(reprint), events).reports[k])
    decreases |events|
  {
    var m := |events| - 1;
    assert events == events[..m] + [events[m]];
    AfterSnoc(InitialState(reprint), events[..m], events[m]);
    RunFacts(reprint, events[..m]);
    StepReportsCurrent(After(InitialState(reprint), events[..m]), events[m]);
    LastReport(After(InitialState(reprint), events[..m]), After(InitialState(reprint), events), k);
    if k < |After(InitialState(reprint), events[..m]).reports| {
      n := ReportsWereCurrent(reprint, events[..m], k);
      assert events[..m][..n] == events[..n];
    } else {
      n := m;
    }
  }
}
