/**
  What the ledger says about a job, without its texts.  The machine of AgentState runs on
  verdicts; the lemmas here show that every ledger transition commutes with reading the
  verdicts off, so nothing the machine decides depends on what was left out.
 */
module Verdicts {
  import opened Wrappers
  import opened Markers
  import opened Bytes
  import opened Ledger
  import opened Transport

  /** VLookalike: a failed row that SQL's LIKE takes for marked although it carries no marker. */
  datatype Verdict = VQueued | VPrinting | VSuccess | VUnknown | VLookalike | VPlain

  type Verdicts = map<JobId, Verdict>

  function VerdictOf(e: Entry): Verdict {
    match e.status
    case LQueued => VQueued
    case LPrinting => VPrinting
    case LSuccess => VSuccess
    case LFailed => if OutcomeUnknownEntry(e) then VUnknown else if SqlUnknown(e) then VLookalike else VPlain
  }

  function VerdictsOf(rows: Rows): Verdicts { map id | id in rows :: VerdictOf(rows[id]) }

  /** The job has, or may have, been printed: it must not be printed again. */
  predicate VProtected(v: Verdict) { v == VSuccess || v == VUnknown }

  predicate VReopenable(v: Verdict, allow: bool) {
    if allow then v != VSuccess else v == VQueued || v == VPrinting || v == VPlain
  }

  function VBegin(vs: Verdicts, id: JobId, allow: bool): Option<Verdicts> {
    if id in vs && !VReopenable(vs[id], allow) then None else Some(vs[id := VPrinting])
  }

  function VAbort(vs: Verdicts, id: JobId): Verdicts {
    if id in vs && vs[id] == VPrinting then vs[id := VQueued] else vs
  }

  function VRecord(vs: Verdicts, id: JobId, v: Verdict): Verdicts {
    if id in vs then vs[id := v] else vs
  }

  function VMarkAll(vs: Verdicts, missed: set<JobId>): Verdicts {
    map id | id in vs :: if vs[id] == VPrinting && id !in missed then VUnknown else vs[id]
  }

  function VCleaned(vs: Verdicts): Verdicts { map id | id in vs && vs[id] != VSuccess && vs[id] != VPlain :: vs[id] }

  function VPurged(vs: Verdicts): Verdicts { map id | id in vs && vs[id] != VUnknown && vs[id] != VLookalike :: vs[id] }

  // ------------------------------------------------------------ transports

  /** A transport's answer, without its text. */
  datatype Answer = AllTaken | Ambiguous | NothingTaken(lookalike: bool)

  function AnswerOf(err: Option<GoError>): Answer {
    if err == None then AllTaken
    else if OutcomeUnknown(err.value) then Ambiguous
    else NothingTaken(UnknownMarkerSql(err.value.msg))
  }

  function AnswerVerdict(a: Answer): Verdict {
    match a
    case AllTaken => VSuccess
    case Ambiguous => VUnknown
    case NothingTaken(lookalike) => if lookalike then VLookalike else VPlain
  }

  /** The transport contract in terms of answers: what `sent` of `total` bytes allows it to say. */
  predicate HonestAnswer(a: Answer, sent: nat, total: nat) {
    && sent <= total
    && (a == AllTaken ==> sent == total)
    && (a.NothingTaken? ==> sent == 0)
  }

  lemma HonestRefines(err: Option<GoError>, accepted: seq<byte>, data: seq<byte>)
    requires accepted <= data
    ensures Honest(err, accepted, data) <==> HonestAnswer(AnswerOf(err), |accepted|, |data|)
  {
    if |accepted| == |data| {
      assert accepted == data[..|data|] == data;
    }
  }

  // ------------------------------------------------------------ refinement

  lemma ReopenableRefines(e: Entry, allow: bool)
    ensures Reopenable(e, allow) <==> VReopenable(VerdictOf(e), allow)
    ensures Protected(e) <==> VProtected(VerdictOf(e))
  {
    RefusedExactly(e);
  }

  lemma BeginRefines(rows: Rows, id: JobId, printer: PrinterId, payload: seq<byte>, token: string, allow: bool)
    ensures var b := Begin(rows, id, printer, payload, token, allow);
            var v := VBegin(VerdictsOf(rows), id, allow);
            && (b.None? <==> v.None?)
            && (b.Some? ==> VerdictsOf(b.value) == v.value)
  {
    BeginMeaning(rows, id, printer, payload, token, allow);
    if id in rows {
      ReopenableRefines(rows[id], allow);
    }
  }

  lemma AbortRefines(rows: Rows, id: JobId, reason: string)
    ensures VerdictsOf(Abort(rows, id, reason)) == VAbort(VerdictsOf(rows), id)
  {}

  /** Recording a transport's result gives the row the verdict of the transport's answer. */
  lemma RecordRefines(rows: Rows, id: JobId, err: Option<GoError>)
    ensures var after := if err == None then SetStatus(rows, id, LSuccess)
                         else SetStatusWithError(rows, id, LFailed, FailureMessage(err.value));
            VerdictsOf(after) == VRecord(VerdictsOf(rows), id, AnswerVerdict(AnswerOf(err)))
  {
    if err.Some? && id in rows {
      var e := rows[id].(status := LFailed, lastError := Some(FailureMessage(err.value)));
      FailureMessageKeepsAmbiguity(err.value);
      assert VerdictOf(e) == AnswerVerdict(AnswerOf(err));
    }
  }

  lemma MarkAllRefines(rows: Rows)
    ensures VerdictsOf(MarkAll(rows)) == VMarkAll(VerdictsOf(rows), {})
  {
    forall id | id in rows
      ensures VerdictOf(MarkAll(rows)[id]) == VMarkAll(VerdictsOf(rows), {})[id]
    {
      InterruptedIsProtected(rows[id]);
      ReopenableRefines(MarkAll(rows)[id], false);
    }
  }

  lemma CleanedRefines(rows: Rows)
    ensures VerdictsOf(Cleaned(rows)) == VCleaned(VerdictsOf(rows))
    ensures VerdictsOf(Purged(rows)) == VPurged(VerdictsOf(rows))
  {
    forall id | id in rows
      ensures Removable(rows[id]) <==> VerdictOf(rows[id]) in {VSuccess, VPlain}
      ensures Evidence(rows[id]) <==> VerdictOf(rows[id]) in {VUnknown, VLookalike}
    {
      RefusedExactly(rows[id]);
      ReopenableRefines(rows[id], false);
    }
  }

  lemma QuestionsRefine(rows: Rows, id: JobId)
    ensures IsProcessed(rows, id) <==> id in VerdictsOf(rows) && VerdictsOf(rows)[id] == VSuccess
    ensures WasOutcomeUnknown(rows, id) <==> id in VerdictsOf(rows) && VerdictsOf(rows)[id] == VUnknown
  {}
}
