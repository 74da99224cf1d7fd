/** The sweep, statement by statement, is one of the runs of JobRuns. */
module SweepRuns {
  import opened JobRows
  import opened JobRuns
  import opened PrintJobs

  function SweepEvents(c: Clocks): seq<Event> {
    [EvExpire(c.t1)] + ([EvRequeue(c.t2)] + ([EvSilent(c.t3)] + ([EvPrinting(c.t4)] + [EvExhausted(c.t5)])))
  }

  lemma SweepStep(j: Job, e: Event, row: Row)
    requires (e.EvExpire? && row == SweepExpire(j.row, e.at))
          || (e.EvRequeue? && row == SweepRequeue(j.row, e.at))
          || (e.EvSilent? && row == SweepSilent(j.row, e.at))
          || (e.EvPrinting? && row == SweepPrinting(j.row, e.at))
          || (e.EvExhausted? && row == SweepExhausted(j.row, e.at))
    ensures Step(j, e) == j.(row := row)
  {}

  /** The sweep is one of the runs of JobRuns. */
  lemma SweepIsRun(j: Job, c: Clocks)
    ensures JobRuns.After(j, SweepEvents(c)) == j.(row := SweepRow(j.row, c))
  {
    var r1 := SweepExpire(j.row, c.t1);
    SweepStep(j, EvExpire(c.t1), r1);
    AfterCons(j, EvExpire(c.t1), [EvRequeue(c.t2)] + ([EvSilent(c.t3)] + ([EvPrinting(c.t4)] + [EvExhausted(c.t5)])));
    SweepTailIsRun(j.(row := r1), c);
  }

  lemma SweepTailIsRun(j: Job, c: Clocks)
    ensures JobRuns.After(j, [EvRequeue(c.t2)] + ([EvSilent(c.t3)] + ([EvPrinting(c.t4)] + [EvExhausted(c.t5)])))
            == j.(row := SweepExhausted(SweepPrinting(SweepSilent(SweepRequeue(j.row, c.t2), c.t3), c.t4), c.t5))
  {
    var r2 := SweepRequeue(j.row, c.t2);
    var j2 := j.(row := r2);
    SweepStep(j, EvRequeue(c.t2), r2);
    AfterCons(j, EvRequeue(c.t2), [EvSilent(c.t3)] + ([EvPrinting(c.t4)] + [EvExhausted(c.t5)]));
    var r3 := SweepSilent(r2, c.t3);
    var j3 := j.(row := r3);
    SweepStep(j2, EvSilent(c.t3), r3);
    AfterCons(j2, EvSilent(c.t3), [EvPrinting(c.t4)] + [EvExhausted(c.t5)]);
    var r4 := SweepPrinting(r3, c.t4);
    SweepStep(j3, EvPrinting(c.t4), r4);
    AfterCons(j3, EvPrinting(c.t4), [EvExhausted(c.t5)]);
    SweepStep(j.(row := r4), EvExhausted(c.t5), SweepExhausted(r4, c.t5));
    AfterOne(j.(row := r4), EvExhausted(c.t5));
  }
}
