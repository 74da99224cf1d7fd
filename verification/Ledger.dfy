/**
  The agent's durable ledger: what survives a crash, and the only evidence that decides
  whether a job may be sent to a printer again.
 */
module Ledger {
  import opened Wrappers
  import opened Markers
  import opened Bytes

  datatype JobId = JobId(text: string)
  datatype PrinterId = PrinterId(text: string)

  datatype LedgerStatus = LQueued | LPrinting | LSuccess | LFailed

  datatype Entry = Entry(printer: PrinterId, payload: seq<byte>, status: LedgerStatus,
                         lastError: Option<string>, token: Option<string>)

  type Rows = map<JobId, Entry>

  // ------------------------------------------------------------ questions

  predicate IsProcessed(rows: Rows, id: JobId) {
    id in rows && rows[id].status == LSuccess
  }

  /** The Go check: a failed row whose error starts with one of the markers. */
  predicate OutcomeUnknownEntry(e: Entry) {
    e.status == LFailed && e.lastError.Some? && HasUnknownOutcomeMarker(e.lastError.value)
  }

  predicate WasOutcomeUnknown(rows: Rows, id: JobId) {
    id in rows && OutcomeUnknownEntry(rows[id])
  }

  predicate WasInterrupted(rows: Rows, id: JobId) {
    id in rows && rows[id].lastError.Some? && AGENT_RESTART_DURING_PRINT <= rows[id].lastError.value
  }

  /** The SQL check; a NULL error never matches. */
  predicate SqlUnknown(e: Entry) {
    e.lastError.Some? && UnknownMarkerSql(e.lastError.value)
  }

  /** The row already has a physical outcome that forbids printing the job again. */
  predicate Protected(e: Entry) {
    e.status == LSuccess || OutcomeUnknownEntry(e)
  }

  // ------------------------------------------------------------ transitions

  /** The guard of BeginPrint. */
  predicate Reopenable(e: Entry, allowUnknownReprint: bool) {
    if allowUnknownReprint then e.status != LSuccess
    else e.status == LQueued || e.status == LPrinting || (e.status == LFailed && !SqlUnknown(e))
  }

  /** A protected row is never reopened; a success row not even when reprinting is allowed. */
  lemma ProtectedIsRefused(e: Entry, allow: bool)
    requires Protected(e)
    ensures !Reopenable(e, false)
    ensures e.status == LSuccess ==> !Reopenable(e, allow)
  {
    if e.status == LFailed {
      MarkerImpliesSql(e.lastError.value);
    }
  }

  /** The guard refuses exactly the protected rows and those the looser SQL match adds to them. */
  lemma RefusedExactly(e: Entry)
    ensures !Reopenable(e, false) <==> Protected(e) || (e.status == LFailed && SqlUnknown(e))
  {
    if OutcomeUnknownEntry(e) {
      MarkerImpliesSql(e.lastError.value);
    }
  }

  /** INSERT OR IGNORE, as the first statement of BeginPrint. */
  function Inserted(rows: Rows, id: JobId, printer: PrinterId, payload: seq<byte>, token: string): Rows {
    if id in rows then rows else rows[id := Entry(printer, payload, LQueued, None, Some(token))]
  }

  /** BeginPrint as one transaction: None when the guard refuses and everything is rolled back. */
  function Begin(
      rows: Rows, id: JobId, printer: PrinterId, payload: seq<byte>, token: string, allow: bool): Option<Rows> {
    var with := Inserted(rows, id, printer, payload, token);
    var e := with[id];
    if Reopenable(e, allow) then
      Some(with[id := e.(status := LPrinting, token := if token != "" then Some(token) else e.token)])
    else None
  }

  function Abort(rows: Rows, id: JobId, reason: string): Rows {
    if id in rows && rows[id].status == LPrinting then
      rows[id := rows[id].(status := LQueued, lastError := Some(reason), token := None)]
    else rows
  }

  function SetStatus(rows: Rows, id: JobId, status: LedgerStatus): Rows {
    if id in rows then rows[id := rows[id].(status := status)] else rows
  }

  function SetStatusWithError(rows: Rows, id: JobId, status: LedgerStatus, err: string): Rows {
    if id in rows then rows[id := rows[id].(status := status, lastError := Some(err))] else rows
  }

  const INTERRUPTED_TEXT := AGENT_RESTART_DURING_PRINT + ": unknown"

  function Interrupted(e: Entry): Entry {
    e.(status := LFailed, lastError := Some(INTERRUPTED_TEXT))
  }

  /** Every row that was printing when the process died. */
  function MarkAll(rows: Rows): Rows {
    map id | id in rows :: if rows[id].status == LPrinting then Interrupted(rows[id]) else rows[id]
  }

  // ------------------------------------------------------------ what the transitions give

  /** Begin changes one row and refuses exactly when the stored row forbids it. */
  lemma BeginMeaning(rows: Rows, id: JobId, printer: PrinterId, payload: seq<byte>, token: string, allow: bool)
    ensures var b := Begin(rows, id, printer, payload, token, allow);
            && (b.None? <==> id in rows && !Reopenable(rows[id], allow))
            && (b.Some? ==> b.value.Keys == rows.Keys + {id} && b.value[id].status == LPrinting)
            && (b.Some? ==> forall k :: k in rows && k != id ==> b.value[k] == rows[k])
            && (b.Some? && token != "" ==> b.value[id].token == Some(token))
  {}

  /** AbortPrint takes back what BeginPrint did: the job can be begun again and carries no token. */
  lemma AbortUndoesBegin(
      rows: Rows, id: JobId, printer: PrinterId, payload: seq<byte>, token: string, allow: bool, reason: string)
    requires Begin(rows, id, printer, payload, token, allow).Some?
    ensures var undone := Abort(Begin(rows, id, printer, payload, token, allow).value, id, reason);
            && undone.Keys == rows.Keys + {id}
            && undone[id].status == LQueued && undone[id].token == None && Reopenable(undone[id], allow)
            && (forall k :: k in rows && k != id ==> undone[k] == rows[k])
  {}

  lemma InterruptedIsProtected(e: Entry)
    ensures Protected(Interrupted(e)) && !Reopenable(Interrupted(e), false)
  {
    MarkedByPrefix(1, ": unknown");
    ProtectedIsRefused(Interrupted(e), false);
  }

  /** After the startup scan no row is printing, and every row that was is protected. */
  lemma MarkAllProtects(rows: Rows, id: JobId)
    requires id in rows
    ensures MarkAll(rows)[id].status != LPrinting
    ensures rows[id].status == LPrinting ==> Protected(MarkAll(rows)[id]) && WasInterrupted(MarkAll(rows), id)
    ensures rows[id].status != LPrinting ==> MarkAll(rows)[id] == rows[id]
  {
    InterruptedIsProtected(rows[id]);
    assert AGENT_RESTART_DURING_PRINT <= AGENT_RESTART_DURING_PRINT + ": unknown";
  }

  // ------------------------------------------------------------ cleanup

  /** A terminal row whose physical outcome is provable. */
  predicate Removable(e: Entry) {
    e.status == LSuccess || (e.status == LFailed && !SqlUnknown(e))
  }

  /** A row kept as evidence of an unknown outcome. */
  predicate Evidence(e: Entry) {
    e.status == LFailed && SqlUnknown(e)
  }

  function Cleaned(rows: Rows): Rows { map id | id in rows && !Removable(rows[id]) :: rows[id] }

  function Purged(rows: Rows): Rows { map id | id in rows && !Evidence(rows[id]) :: rows[id] }

  function EvidenceIds(rows: Rows): set<JobId> { set id | id in rows && Evidence(rows[id]) }

  function RemovableIds(rows: Rows): set<JobId> { set id | id in rows && Removable(rows[id]) }

  /**
    Cleanup keeps every row WasOutcomeUnknown protects; the failed rows it leaves are exactly
    the ones that are counted, and purging removes exactly those.
   */
  lemma CleanupKeepsEvidence(rows: Rows)
    ensures forall id :: WasOutcomeUnknown(rows, id) ==> id in Cleaned(rows) && Cleaned(rows)[id] == rows[id]
    ensures (set id | id in Cleaned(rows) && Cleaned(rows)[id].status == LFailed) == EvidenceIds(rows)
    ensures EvidenceIds(Cleaned(rows)) == EvidenceIds(rows)
    ensures Purged(Cleaned(rows)).Keys == rows.Keys - RemovableIds(rows) - EvidenceIds(rows)
    ensures forall id :: id in Purged(Cleaned(rows)) ==> Purged(Cleaned(rows))[id].status in {LQueued, LPrinting}
  {
    forall id | WasOutcomeUnknown(rows, id)
      ensures id in Cleaned(rows)
    {
      MarkerImpliesSql(rows[id].lastError.value);
    }
  }

  /**
    What cleanup gives up: a later delivery that the ledger refused before is accepted after
    a cleanup exactly for the jobs it knew to be printed.
   */
  lemma CleanupForgetsOnlySuccess(rows: Rows, id: JobId, printer: PrinterId, payload: seq<byte>, token: string)
    ensures Begin(rows, id, printer, payload, token, false).None?
         && Begin(Cleaned(rows), id, printer, payload, token, false).Some?
        <==> IsProcessed(rows, id)
  {
    if id in rows {
      RefusedExactly(rows[id]);
    }
  }

  // ------------------------------------------------------------ the ledger as an object

  datatype BeginResult = Begun | TerminalState | Unavailable

  class Queue {
    var rows: Rows

    constructor ()
      ensures rows == map[]
    {
      rows := map[];
    }

    /** Insert-or-ignore: a known id is left alone. */
    method Push(id: JobId, printer: PrinterId, payload: seq<byte>)
      modifies this
      ensures id in old(rows) ==> rows == old(rows)
      ensures id !in old(rows) ==> rows == old(rows)[id := Entry(printer, payload, LQueued, None, None)]
    {
      if id !in rows {
        rows := rows[id := Entry(printer, payload, LQueued, None, None)];
      }
    }

    /** `dbOk` is the database's answer: a failed write leaves the ledger as it was. */
    method UpdateStatus(id: JobId, status: LedgerStatus, dbOk: bool)
      modifies this
      ensures rows == if dbOk then SetStatus(old(rows), id, status) else old(rows)
    {
      if dbOk && id in rows {
        rows := rows[id := rows[id].(status := status)];
      }
    }

    method UpdateStatusWithError(id: JobId, status: LedgerStatus, err: string, dbOk: bool)
      modifies this
      ensures rows == if dbOk then SetStatusWithError(old(rows), id, status, err) else old(rows)
    {
      if dbOk && id in rows {
        rows := rows[id := rows[id].(status := status, lastError := Some(err))];
      }
    }

    method AbortPrint(id: JobId, reason: string, dbOk: bool)
      modifies this
      ensures rows == if dbOk then Abort(old(rows), id, reason) else old(rows)
    {
      if dbOk && id in rows && rows[id].status == LPrinting {
        rows := rows[id := rows[id].(status := LQueued, lastError := Some(reason), token := None)];
      }
    }

    method BeginPrint(id: JobId, printer: PrinterId, payload: seq<byte>, token: string, allow: bool, dbOk: bool)
        returns (res: BeginResult)
      modifies this
      ensures res == Unavailable <==> !dbOk
      ensures res == TerminalState <==> dbOk && id in old(rows) && !Reopenable(old(rows)[id], allow)
      ensures res != Begun ==> rows == old(rows)
      ensures res == Begun ==> Begin(old(rows), id, printer, payload, token, allow) == Some(rows)
    {
      if !dbOk {
        return Unavailable;
      }
      var before := rows;
      if id !in rows {
        rows := rows[id := Entry(printer, payload, LQueued, None, Some(token))];
      }
      var e := rows[id];
      if !Reopenable(e, allow) {
        rows := before;  // rollback
        return TerminalState;
      }
      rows := rows[id := e.(status := LPrinting, token := if token != "" then Some(token) else e.token)];
      return Begun;
    }

    /**
      The startup scan: one query, then one update per row found.  `failAt` is the update
      that fails, if any; the scan stops there.
     */
    method MarkInterrupted(failAt: Option<nat>) returns (found: set<JobId>, ok: bool)
      modifies this
      ensures found == set id | id in old(rows) && old(rows)[id].status == LPrinting
      ensures ok ==> rows == MarkAll(old(rows))
      ensures ok <==> failAt == None || failAt.value >= |found|
      ensures rows.Keys == old(rows).Keys
      ensures forall id :: id in rows ==> rows[id] == old(rows)[id] || rows[id] == MarkAll(old(rows))[id]
    {
      found := set id | id in rows && rows[id].status == LPrinting;
      var left := found;
      var done: nat := 0;
      while left != {}
        invariant left <= found && done + |left| == |found|
        invariant rows.Keys == old(rows).Keys
        invariant forall id :: id in rows ==>
                    rows[id] == if id in found - left then Interrupted(old(rows)[id]) else old(rows)[id]
        invariant failAt == None || failAt.value >= done
        decreases |left|
      {
        var id :| id in left;
        if failAt == Some(done) {
          ok := false;
          return;
        }
        UpdateStatusWithError(id, LFailed, INTERRUPTED_TEXT, true);
        left := left - {id};
        done := done + 1;
      }
      ok := true;
      assert forall id :: id in rows ==> rows[id] == MarkAll(old(rows))[id];
    }

    method CleanupTerminal() returns (count: nat)
      modifies this
      ensures rows == Cleaned(old(rows)) && count == |RemovableIds(old(rows))|
    {
      count := |RemovableIds(rows)|;
      rows := map id | id in rows && !Removable(rows[id]) :: rows[id];
    }

    method CountOutcomeUnknown() returns (count: nat)
      ensures count == |EvidenceIds(rows)|
    {
      var ids := set id | id in rows && Evidence(rows[id]);
      assert ids == EvidenceIds(rows);
      count := |ids|;
    }

    method PurgeOutcomeUnknown() returns (count: nat)
      modifies this
      ensures rows == Purged(old(rows)) && count == |EvidenceIds(old(rows))|
    {
      count := |EvidenceIds(rows)|;
      rows := map id | id in rows && !Evidence(rows[id]) :: rows[id];
    }
  }
}
