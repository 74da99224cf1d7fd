/**
  Per-printer output over every run of the agent.  A printer's paper is the concatenation of
  its segments, each a prefix of one run's document, and no run opens two segments.  Documents
  are never interleaved although the printer lock is dropped and taken again between BeginPrint
  and the physical print.
 */
module AgentPaper {
  import opened Ledger
  import opened Executor
  import opened AgentState
  import opened AgentQuiet

  type Runs = map<RunId, Run>
  type Locks = map<PrinterId, RunId>
  type Segs = map<PrinterId, seq<Segment>>

  // ------------------------------------------------------------ locks

  predicate HoldsLock(ph: Phase) { ph.Beginning? || ph.Printing? || ph.Recording? }

  predicate LockedBy(runs: Runs, p: PrinterId, r: RunId) {
    r in runs && HoldsLock(runs[r].phase) && runs[r].job.printer == p
  }

  predicate HasLock(locks: Locks, p: PrinterId, r: RunId) { p in locks && locks[p] == r }

  /** A printer's lock is held by exactly the run that is between taking and dropping it. */
  ghost predicate LocksMatch(locks: Locks, runs: Runs) {
    && (forall p :: p in locks ==> LockedBy(runs, p, locks[p]))
    && (forall r :: r in runs && HoldsLock(runs[r].phase) ==> HasLock(locks, runs[r].job.printer, r))
  }

  lemma LocksKeep(locks: Locks, runs: Runs, r: RunId, to: Run)
    requires LocksMatch(locks, runs) && r in runs
    requires to.job == runs[r].job && HoldsLock(to.phase) == HoldsLock(runs[r].phase)
    ensures LocksMatch(locks, runs[r := to])
  {
    forall p | p in locks
      ensures LockedBy(runs[r := to], p, locks[p])
    {
      assert LockedBy(runs, p, locks[p]);
    }
  }

  lemma LocksTake(locks: Locks, runs: Runs, r: RunId, to: Run)
    requires LocksMatch(locks, runs) && r in runs && to.job.printer !in locks
    requires to.job == runs[r].job && HoldsLock(to.phase)
    ensures LocksMatch(locks[to.job.printer := r], runs[r := to])
  {
    forall p | p in locks
      ensures LockedBy(runs[r := to], p, locks[p])
    {
      assert LockedBy(runs, p, locks[p]);
    }
  }

  lemma LocksRelease(locks: Locks, runs: Runs, r: RunId, to: Run)
    requires LocksMatch(locks, runs) && r in runs && HoldsLock(runs[r].phase)
    requires to.job == runs[r].job && !HoldsLock(to.phase)
    ensures LocksMatch(locks - {to.job.printer}, runs[r := to])
  {
    assert HasLock(locks, to.job.printer, r);
    var after := runs[r := to];
    forall p | p in locks - {to.job.printer}
      ensures LockedBy(after, p, locks[p])
    {
      assert LockedBy(runs, p, locks[p]);
    }
    forall q | q in after && HoldsLock(after[q].phase)
      ensures HasLock(locks - {to.job.printer}, after[q].job.printer, q)
    {
      assert HasLock(locks, runs[q].job.printer, q);
    }
  }

  lemma LocksQuiet(locks: Locks, was: Runs, now: Runs, nextRun: RunId)
    requires LocksMatch(locks, was) && QuietRuns(was, now, nextRun)
    ensures LocksMatch(locks, now)
  {
    forall p | p in locks
      ensures LockedBy(now, p, locks[p])
    {
      assert LockedBy(was, p, locks[p]);
    }
    forall r | r in now && HoldsLock(now[r].phase)
      ensures HasLock(locks, now[r].job.printer, r)
    {
      assert r in was && Ages(was[r], now[r]);
    }
  }

  // ------------------------------------------------------------ segments

  predicate HasSegment(segs: Segs, p: PrinterId, i: int) { p in segs && 0 <= i < |segs[p]| }

  /** A segment is a prefix of its run's document, and its run, if still there, is past opening it. */
  predicate SegmentOk(g: Segment, p: PrinterId, runs: Runs, nextRun: RunId) {
    && g.sent <= |g.data| && g.run < nextRun
    && (g.run in runs ==>
          && Past(runs[g.run].phase) && runs[g.run].job.printer == p
          && runs[g.run].job.id == g.id && runs[g.run].job.data == g.data)
  }

  ghost predicate SegmentsOk(segs: Segs, runs: Runs, nextRun: RunId) {
    forall p, i :: HasSegment(segs, p, i) ==> SegmentOk(segs[p][i], p, runs, nextRun)
  }

  /** No run has two segments. */
  ghost predicate OneEach(segs: Segs) {
    forall p, i, q, j :: HasSegment(segs, p, i) && HasSegment(segs, q, j) && segs[p][i].run == segs[q][j].run ==>
      p == q && i == j
  }

  /** The printer's last segment is the run's own, grown as far as the run has sent. */
  predicate Open(segs: Segs, r: RunId, run: Run) {
    && run.job.printer in segs && 0 < |segs[run.job.printer]|
    && LastOf(segs, run.job.printer).run == r
    && LastOf(segs, run.job.printer).id == run.job.id && LastOf(segs, run.job.printer).data == run.job.data
    && (Sending(run.phase) ==> LastOf(segs, run.job.printer).sent == run.phase.sent)
  }

  function LastOf(segs: Segs, p: PrinterId): Segment
    requires p in segs && 0 < |segs[p]|
  {
    segs[p][|segs[p]| - 1]
  }

  predicate Sending(ph: Phase) { ph.Printing? || ph.Recording? }

  ghost predicate AllOpen(segs: Segs, runs: Runs) {
    forall r :: r in runs && Sending(runs[r].phase) ==> Open(segs, r, runs[r])
  }

  ghost predicate SegsMatch(segs: Segs, runs: Runs, nextRun: RunId) {
    SegmentsOk(segs, runs, nextRun) && OneEach(segs) && AllOpen(segs, runs)
  }

  lemma SegsQuiet(segs: Segs, was: Runs, now: Runs, nextRun: RunId, next: RunId)
    requires SegsMatch(segs, was, nextRun) && QuietRuns(was, now, nextRun) && nextRun <= next
    ensures SegsMatch(segs, now, next)
  {
    forall p, i | HasSegment(segs, p, i)
      ensures SegmentOk(segs[p][i], p, now, next)
    {
      assert SegmentOk(segs[p][i], p, was, nextRun);
    }
    forall r | r in now && Sending(now[r].phase)
      ensures Open(segs, r, now[r])
    {
      assert r in was && Ages(was[r], now[r]);
    }
  }

  /** A run moves on without touching any segment: it may stop sending, but not start. */
  lemma SegsMove(segs: Segs, runs: Runs, nextRun: RunId, r: RunId, to: Run)
    requires SegsMatch(segs, runs, nextRun) && r in runs && to.job == runs[r].job
    requires Past(runs[r].phase) ==> Past(to.phase)
    requires Sending(to.phase) ==> Sending(runs[r].phase) && to.phase.sent == runs[r].phase.sent
    ensures SegsMatch(segs, runs[r := to], nextRun)
  {
    forall p, i | HasSegment(segs, p, i)
      ensures SegmentOk(segs[p][i], p, runs[r := to], nextRun)
    {
      assert SegmentOk(segs[p][i], p, runs, nextRun);
    }
    var after := runs[r := to];
    forall q | q in after && Sending(after[q].phase)
      ensures Open(segs, q, after[q])
    {
      assert Open(segs, q, runs[q]);
    }
  }

  function Appended(segs: Segs, p: PrinterId, g: Segment): Segs {
    segs[p := (if p in segs then segs[p] else []) + [g]]
  }

  lemma SegsOpenOk(segs: Segs, runs: Runs, nextRun: RunId, r: RunId, to: Run)
    requires SegsMatch(segs, runs, nextRun) && r in runs && r < nextRun
    requires to == runs[r].(phase := Printing(0))
    ensures SegmentsOk(Appended(segs, to.job.printer, Segment(r, to.job.id, to.job.data, 0)), runs[r := to], nextRun)
  {
    var g := Segment(r, to.job.id, to.job.data, 0);
    var after := Appended(segs, to.job.printer, g);
    forall p, i | HasSegment(after, p, i)
      ensures SegmentOk(after[p][i], p, runs[r := to], nextRun)
    {
      if HasSegment(segs, p, i) {
        assert after[p][i] == segs[p][i] && SegmentOk(segs[p][i], p, runs, nextRun);
      } else {
        assert after[p][i] == g;
      }
    }
  }

  lemma SegsOpenOne(segs: Segs, runs: Runs, nextRun: RunId, p: PrinterId, g: Segment)
    requires SegsMatch(segs, runs, nextRun) && g.run in runs && !Past(runs[g.run].phase)
    ensures OneEach(Appended(segs, p, g))
  {
    var after := Appended(segs, p, g);
    forall a, i | HasSegment(after, a, i)
      ensures || (HasSegment(segs, a, i) && after[a][i] == segs[a][i] && segs[a][i].run != g.run)
              || (a == p && i == |after[p]| - 1 && after[a][i] == g)
    {
      if HasSegment(segs, a, i) {
        assert SegmentOk(segs[a][i], a, runs, nextRun);
      }
    }
  }

  lemma SegsOpenAll(segs: Segs, locks: Locks, runs: Runs, nextRun: RunId, r: RunId, to: Run)
    requires SegsMatch(segs, runs, nextRun) && LocksMatch(locks, runs) && r in runs
    requires to == runs[r].(phase := Printing(0)) && to.job.printer !in locks
    ensures AllOpen(Appended(segs, to.job.printer, Segment(r, to.job.id, to.job.data, 0)), runs[r := to])
  {
    var after := runs[r := to];
    forall q | q in after && Sending(after[q].phase)
      ensures Open(Appended(segs, to.job.printer, Segment(r, to.job.id, to.job.data, 0)), q, after[q])
    {
      if q != r {
        assert Open(segs, q, runs[q]);
        assert HasLock(locks, runs[q].job.printer, q);
      }
    }
  }

  function Regrown(segs: Segs, p: PrinterId, g: Segment): Segs
    requires p in segs && 0 < |segs[p]|
  {
    segs[p := segs[p][..|segs[p]| - 1] + [g]]
  }

  /** Growing replaces one segment by one of the same run; everything else stays in place. */
  lemma RegrownAt(segs: Segs, p: PrinterId, g: Segment)
    requires p in segs && 0 < |segs[p]|
    ensures forall a, i :: HasSegment(Regrown(segs, p, g), a, i) <==> HasSegment(segs, a, i)
    ensures forall a, i :: HasSegment(segs, a, i) ==>
              Regrown(segs, p, g)[a][i] == if a == p && i == |segs[p]| - 1 then g else segs[a][i]
  {}

  lemma SegsGrowOk(segs: Segs, runs: Runs, nextRun: RunId, r: RunId, n: nat)
    requires SegsMatch(segs, runs, nextRun) && r in runs && runs[r].phase.Printing?
    requires Open(segs, r, runs[r]) && runs[r].phase.sent + n <= |runs[r].job.data|
    ensures SegmentsOk(Regrown(segs, runs[r].job.printer, GrownBy(r, runs[r], n)),
            runs[r := runs[r].(phase := Printing(runs[r].phase.sent + n))], nextRun)
  {
    var p := runs[r].job.printer;
    var after := Regrown(segs, p, GrownBy(r, runs[r], n));
    RegrownAt(segs, p, GrownBy(r, runs[r], n));
    assert HasSegment(segs, p, |segs[p]| - 1);
    forall a, i | HasSegment(after, a, i)
      ensures SegmentOk(after[a][i], a, runs[r := runs[r].(phase := Printing(runs[r].phase.sent + n))], nextRun)
    {
      assert SegmentOk(segs[a][i], a, runs, nextRun);
    }
  }

  function GrownBy(r: RunId, run: Run, n: nat): Segment
    requires run.phase.Printing?
  {
    Segment(r, run.job.id, run.job.data, run.phase.sent + n)
  }

  lemma SegsGrowOne(segs: Segs, p: PrinterId, g: Segment)
    requires OneEach(segs) && p in segs && 0 < |segs[p]| && LastOf(segs, p).run == g.run
    ensures OneEach(Regrown(segs, p, g))
  {
    RegrownAt(segs, p, g);
    var after := Regrown(segs, p, g);
    forall a, i | HasSegment(after, a, i)
      ensures HasSegment(segs, a, i) && after[a][i].run == segs[a][i].run
    {
    }
  }

  lemma SegsGrowAll(segs: Segs, locks: Locks, runs: Runs, r: RunId, n: nat)
    requires AllOpen(segs, runs) && LocksMatch(locks, runs) && r in runs && runs[r].phase.Printing?
    requires Open(segs, r, runs[r])
    ensures AllOpen(Regrown(segs, runs[r].job.printer, GrownBy(r, runs[r], n)),
            runs[r := runs[r].(phase := Printing(runs[r].phase.sent + n))])
  {
    var after := runs[r := runs[r].(phase := Printing(runs[r].phase.sent + n))];
    forall q | q in after && Sending(after[q].phase)
      ensures Open(Regrown(segs, runs[r].job.printer, GrownBy(r, runs[r], n)), q, after[q])
    {
      if q != r {
        assert Open(segs, q, runs[q]);
        assert HasLock(locks, runs[q].job.printer, q) && HasLock(locks, runs[r].job.printer, r);
      }
    }
  }
}
