/**
  The byte loops that hand a payload to a printer, against any sequence of write results.
  What matters is honesty: whether the error a transport returns tells the truth about the
  bytes the device has taken.
 */
module Transport {
  import opened Wrappers
  import opened Markers
  import opened Bytes

  const MAX_PRINT_BYTES: int := 5 * 1024 * 1024
  const NETWORK_CHUNK: int := 16 * 1024
  const USB_CHUNK: int := 8192

  /**
    The contract the agent relies on.  No error: every byte was taken, in order.  An error
    without an unknown-outcome marker: not one byte was taken.  Anything else is marked.
   */
  predicate Honest(err: Option<GoError>, accepted: seq<byte>, data: seq<byte>) {
    && accepted <= data
    && (err == None ==> accepted == data)
    && (err.Some? && !OutcomeUnknown(err.value) ==> accepted == [])
  }

  /** What a caller learns from an honest outcome, whatever the payload. */
  lemma HonestVerdict(err: Option<GoError>, accepted: seq<byte>, data: seq<byte>)
    requires Honest(err, accepted, data) && data != []
    ensures err == None ==> accepted == data && accepted != []
    ensures accepted != [] ==> err == None || OutcomeUnknown(err.value)
    ensures err.Some? && accepted != [] ==> HasUnknownOutcomeMarker(FailureMessage(err.value))
  {
    if err.Some? {
      FailureMessageKeepsAmbiguity(err.value);
    }
  }

  /** One turn of a write loop: was the job cancelled by then, and if not, what did the write say. */
  datatype WriteStep = WriteStep(cancelled: bool, n: nat, err: Option<string>)

  function Min(a: int, b: int): int { if a <= b then a else b }

  function Progress(written: nat, total: nat): string {
    Decimal(written) + "/" + Decimal(total)
  }

  /** A message of this module that goes on after one of its own plain first words. */
  lemma PlainStays(head: string, rest: string)
    requires head != "" && head[0] in {'p', 'w', 'r', 's', 'W', 'O', 'S', 'C', 'c', 'E'}
    ensures !OutcomeUnknown(PlainError(head + rest))
  {
    assert (head + rest)[0] == head[0];
    UnmarkedByFirstChar(head + rest);
  }

  /** What a write takes of the next chunk continues what was taken before. */
  lemma TakenInOrder(data: seq<byte>, written: nat, chunk: seq<byte>, n: nat)
    requires written <= |data| && chunk <= data[written..] && n <= |chunk|
    ensures data[..written] + chunk[..n] == data[..written + n]
  {
    assert chunk[..n] == data[written..][..n] == data[written..written + n];
  }

  // ------------------------------------------------------------ raw TCP

  /**
    NetworkPrinter.Print.  The environment chooses the dial error, the pre-flight error, the
    result of every write and the error of the closing half-shutdown.
   */
  method NetworkPrint(data: seq<byte>, dial: Option<string>, preflight: Option<string>, env: nat -> WriteStep,
                      closing: Option<string>)
      returns (err: Option<GoError>, accepted: seq<byte>)
    ensures Honest(err, accepted, data)
    // The marker is there exactly when some byte was taken.
    ensures err.Some? ==> (OutcomeUnknown(err.value) <==> accepted != [])
    ensures err.Some? ==> (HasUnknownOutcomeMarker(err.value.msg) <==> accepted != [])
    ensures err == None ==> 0 < |data| <= MAX_PRINT_BYTES && dial == None && preflight == None && closing == None
  {
    accepted := [];
    if |data| == 0 {
      PlainStays("refusing to print empty payload", "");
      assert "refusing to print empty payload" + "" == "refusing to print empty payload";
      return Some(PlainError("refusing to print empty payload")), [];
    }
    if |data| > MAX_PRINT_BYTES {
      PlainStays("payload ", Progress(|data|, MAX_PRINT_BYTES));
      return Some(PlainError("payload " + Progress(|data|, MAX_PRINT_BYTES))), [];
    }
    if dial.Some? {
      PlainStays("ERR_PRINTER_OFFLINE: dial: ", dial.value);
      return Some(PlainError("ERR_PRINTER_OFFLINE: dial: " + dial.value)), [];
    }
    if preflight.Some? {
      PlainStays("pre-flight health check failed: ", preflight.value);
      return Some(PlainError("pre-flight health check failed: " + preflight.value)), [];
    }
    var written := 0;
    var turn: nat := 0;
    while written < |data|
      invariant 0 <= written <= |data|
      invariant accepted == data[..written]
      decreases |data| - written
    {
      var step := env(turn);
      turn := turn + 1;
      if step.cancelled {
        var msg := "print cancelled after " + Progress(written, |data|);
        if written > 0 {
          return Some(MarkUnknown(msg)), accepted;
        }
        PlainStays("print cancelled after ", Progress(written, |data|));
        return Some(PlainError(msg)), accepted;
      }
      var chunk := data[written..];
      if |chunk| > NETWORK_CHUNK {
        chunk := chunk[..NETWORK_CHUNK];
      }
      var n := Min(step.n, |chunk|);
      TakenInOrder(data, written, chunk, n);
      accepted := accepted + chunk[..n];
      written := written + n;
      if step.err.Some? {
        var rest := Progress(written, |data|) + ": " + step.err.value;
        if written > 0 {
          return Some(MarkUnknown("write " + rest)), accepted;
        }
        PlainStays("write ", rest);
        return Some(PlainError("write " + rest)), accepted;
      }
      if n == 0 {
        if written > 0 {
          return Some(MarkUnknown("short write 0 bytes after " + Progress(written, |data|))), accepted;
        }
        PlainStays("short write 0 bytes", "");
        assert "short write 0 bytes" + "" == "short write 0 bytes";
        return Some(PlainError("short write 0 bytes")), accepted;
      }
    }
    if closing.Some? {
      return Some(MarkUnknown("failed to half-close print connection: " + closing.value)), accepted;
    }
    return None, accepted;
  }

  // ------------------------------------------------------------ Windows spooler

  datatype Cleanup = EndPage | EndDoc | ClosePrinter

  /** Which of the session's stages the injected system calls let through. */
  datatype SpoolerEnv = SpoolerEnv(
    opens: bool, cancelledBeforeDoc: bool, docStarts: bool, cancelledBeforePage: bool, pageStarts: bool,
    writes: nat -> WriteStep, pageEnds: bool, docEnds: bool)

  predicate ReachesFirstWrite(e: SpoolerEnv) {
    && e.opens && !e.cancelledBeforeDoc && e.docStarts && !e.cancelledBeforePage && e.pageStarts
    && !e.writes(0).cancelled
  }

  /** The first WritePrinter call reports failure and, all the same, a number of bytes written. */
  predicate SpoolerLies(e: SpoolerEnv) {
    ReachesFirstWrite(e) && e.writes(0).err.Some? && e.writes(0).n > 0
  }

  datatype Stage = NotOpened | Opened | DocStarted | PageStarted

  /** How far the session comes before its writes. */
  function StageOf(e: SpoolerEnv): Stage {
    if !e.opens then NotOpened
    else if e.cancelledBeforeDoc || !e.docStarts then Opened
    else if e.cancelledBeforePage || !e.pageStarts then DocStarted
    else PageStarted
  }

  /** The calls that have to be made at some time once a stage is reached, innermost first. */
  function Due(s: Stage): seq<Cleanup> {
    match s
    case NotOpened => []
    case Opened => [ClosePrinter]
    case DocStarted => [EndDoc, ClosePrinter]
    case PageStarted => [EndPage, EndDoc, ClosePrinter]
  }

  /**
    executeSpoolerSessionWithSyscalls.  The calls that end page and document are deferred as
    soon as the page or the document is open; the two flags keep the deferred call from
    repeating one that was made explicitly.
   */
  class SpoolerSession {
    var pageCompleted: bool
    var docCompleted: bool
    /** The deferred calls, the last one registered at the end. */
    var deferred: seq<Cleanup>
    /** Every call made to the spooler to end something, in order. */
    var calls: seq<Cleanup>

    constructor ()
      ensures !pageCompleted && !docCompleted && deferred == [] && calls == []
    {
      pageCompleted, docCompleted, deferred, calls := false, false, [], [];
    }

    /** A deferred call comes round: it is skipped if its flag says that it was made already. */
    method RunDeferred(d: Cleanup)
      modifies this`calls
      ensures calls == old(calls) + Round(d, pageCompleted, docCompleted)
    {
      if d == EndPage && pageCompleted {
        return;
      }
      if d == EndDoc && docCompleted {
        return;
      }
      calls := calls + [d];
    }

    /** On return, the deferred calls come round last in, first out. */
    method Unwind()
      modifies this`calls, this`deferred
      ensures deferred == [] && calls == old(calls) + Remaining(old(deferred), pageCompleted, docCompleted)
    {
      ghost var total := calls + Remaining(deferred, pageCompleted, docCompleted);
      while deferred != []
        invariant calls + Remaining(deferred, pageCompleted, docCompleted) == total
        decreases |deferred|
      {
        RemainingStep(calls, deferred, pageCompleted, docCompleted);
        RunDeferred(deferred[|deferred| - 1]);
        deferred := deferred[..|deferred| - 1];
      }
    }

    /** The whole session: every call that is due is made exactly once, innermost first, on every path. */
    method Execute(data: seq<byte>, e: SpoolerEnv) returns (err: Option<GoError>, accepted: seq<byte>)
      requires !pageCompleted && !docCompleted && deferred == [] && calls == []
      modifies this
      ensures accepted <= data
      ensures err == None ==> accepted == data && e.pageEnds && e.docEnds
      // Honest, unless the very first write fails and reports bytes.
      ensures Honest(err, accepted, data) <==> !(data != [] && SpoolerLies(e))
      ensures calls == Due(StageOf(e)) && deferred == []
    {
      err, accepted := Work(data, e);
      RemainingIsDue(StageOf(e), pageCompleted, docCompleted);
      Unwind();
    }

    /** The body up to its return, before any deferred call. */
    method Work(data: seq<byte>, e: SpoolerEnv) returns (err: Option<GoError>, accepted: seq<byte>)
      requires !pageCompleted && !docCompleted && deferred == [] && calls == []
      modifies this
      ensures accepted <= data
      ensures err == None ==> accepted == data && e.pageEnds && e.docEnds
      ensures Honest(err, accepted, data) <==> !(data != [] && SpoolerLies(e))
      ensures deferred == Registered(StageOf(e)) && calls == Explicit(pageCompleted, docCompleted)
      ensures (docCompleted ==> pageCompleted) && (pageCompleted ==> StageOf(e) == PageStarted)
    {
      err := OpenPage(e);
      accepted := [];
      if err.Some? {
        return;
      }
      err, accepted := WriteAll(data, e);
      if err.Some? {
        return;
      }
      pageCompleted := true;
      calls := calls + [EndPage];
      if !e.pageEnds {
        return Some(MarkUnknown("spooler EndPagePrinter failed")), accepted;
      }
      docCompleted := true;
      calls := calls + [EndDoc];
      if !e.docEnds {
        return Some(MarkUnknown("spooler session failed to close")), accepted;
      }
      return None, accepted;
    }

    /** From OpenPrinter to StartPagePrinter; each success defers the call that undoes it. */
    method OpenPage(e: SpoolerEnv) returns (err: Option<GoError>)
      requires deferred == []
      modifies this`deferred
      ensures deferred == Registered(StageOf(e))
      ensures err == None <==> StageOf(e) == PageStarted
      ensures err.Some? ==> !OutcomeUnknown(err.value)
    {
      if !e.opens {
        err := Plainly("OpenPrinterW failed");
        return;
      }
      deferred := deferred + [ClosePrinter];
      if e.cancelledBeforeDoc {
        err := Plainly("spooler job cancelled before doc start");
        return;
      }
      if !e.docStarts {
        err := Plainly("StartDocPrinterW failed");
        return;
      }
      deferred := deferred + [EndDoc];
      if e.cancelledBeforePage {
        err := Plainly("spooler job cancelled before page start");
        return;
      }
      if !e.pageStarts {
        err := Plainly("StartPagePrinter failed");
        return;
      }
      deferred := deferred + [EndPage];
      err := None;
    }

    /** The write loop. */
    method WriteAll(data: seq<byte>, e: SpoolerEnv) returns (err: Option<GoError>, accepted: seq<byte>)
      requires StageOf(e) == PageStarted
      ensures accepted <= data && (err == None ==> accepted == data)
      ensures Honest(err, accepted, data) <==> !(data != [] && SpoolerLies(e))
    {
      accepted := [];
      var written := 0;
      var turn: nat := 0;
      while written < |data|
        invariant 0 <= written <= |data|
        invariant accepted == data[..written]
        invariant turn == 0 <==> written == 0
        invariant turn > 0 ==> data != [] && !SpoolerLies(e)
        decreases |data| - written
      {
        var step := e.writes(turn);
        if step.cancelled {
          if written > 0 {
            MarkedByPrefix(3, ": print cancelled after " + Progress(written, |data|));
            return Some(PlainError(UNKNOWN_PARTIAL_DELIVERY
              + (": print cancelled after " + Progress(written, |data|)))), accepted;
          }
          err := Plainly("print cancelled");
          return;
        }
        var chunk := data[written..];
        var n := Min(step.n, |chunk|);
        TakenInOrder(data, written, chunk, n);
        accepted := accepted + chunk[..n];
        var rest := Progress(written, |data|) + (if step.err.Some? then ": " + step.err.value else "");
        if step.err.Some? {
          if written > 0 {
            MarkedByPrefix(3, ": WritePrinter failed after " + rest);
            return Some(PlainError(UNKNOWN_PARTIAL_DELIVERY + (": WritePrinter failed after " + rest))), accepted;
          }
          PlainStays("WritePrinter failed after ", rest);
          return Some(PlainError("WritePrinter failed after " + rest)), accepted;
        }
        if n == 0 {
          if written > 0 {
            MarkedByPrefix(3, ": WritePrinter wrote 0 bytes after " + rest);
            return Some(PlainError(UNKNOWN_PARTIAL_DELIVERY + (": WritePrinter wrote 0 bytes after " + rest))),
              accepted;
          }
          err := Plainly("WritePrinter wrote 0 bytes");
          return;
        }
        written := written + n;
        turn := turn + 1;
      }
      return None, accepted;
    }
  }

  /** The deferred calls a stage leaves behind, in the order they were registered. */
  function Registered(s: Stage): seq<Cleanup> {
    match s
    case NotOpened => []
    case Opened => [ClosePrinter]
    case DocStarted => [ClosePrinter, EndDoc]
    case PageStarted => [ClosePrinter, EndDoc, EndPage]
  }

  /** The calls the body makes itself: EndPage, and EndDoc after it. */
  function Explicit(page: bool, doc: bool): seq<Cleanup> {
    (if page then [EndPage] else []) + (if doc then [EndDoc] else [])
  }

  /** What a deferred call still does, given the two flags. */
  function Round(d: Cleanup, page: bool, doc: bool): seq<Cleanup> {
    if (d == EndPage && page) || (d == EndDoc && doc) then [] else [d]
  }

  function Remaining(ds: seq<Cleanup>, page: bool, doc: bool): seq<Cleanup> {
    if ds == [] then [] else Round(ds[|ds| - 1], page, doc) + Remaining(ds[..|ds| - 1], page, doc)
  }

  lemma RemainingStep(calls: seq<Cleanup>, ds: seq<Cleanup>, page: bool, doc: bool)
    requires ds != []
    ensures calls + Remaining(ds, page, doc)
            == calls + Round(ds[|ds| - 1], page, doc) + Remaining(ds[..|ds| - 1], page, doc)
  {
    Reassociate(calls, Round(ds[|ds| - 1], page, doc), Remaining(ds[..|ds| - 1], page, doc));
  }

  lemma Reassociate(a: seq<Cleanup>, b: seq<Cleanup>, c: seq<Cleanup>)
    ensures a + (b + c) == a + b + c
  {}

  lemma RemainingSnoc(ds: seq<Cleanup>, d: Cleanup, page: bool, doc: bool)
    ensures Remaining(ds + [d], page, doc) == Round(d, page, doc) + Remaining(ds, page, doc)
  {
    assert (ds + [d])[..|ds|] == ds;
  }

  lemma RemainingClose(page: bool, doc: bool)
    ensures Remaining([ClosePrinter], page, doc) == [ClosePrinter]
  {
    RemainingSnoc([], ClosePrinter, page, doc);
    assert [] + [ClosePrinter] == [ClosePrinter];
  }

  lemma RemainingDoc(page: bool, doc: bool)
    ensures Remaining([ClosePrinter, EndDoc], page, doc) == Round(EndDoc, page, doc) + [ClosePrinter]
  {
    RemainingClose(page, doc);
    RemainingSnoc([ClosePrinter], EndDoc, page, doc);
    assert [ClosePrinter] + [EndDoc] == [ClosePrinter, EndDoc];
  }

  lemma RemainingPage(page: bool, doc: bool)
    ensures Remaining([ClosePrinter, EndDoc, EndPage], page, doc)
            == Round(EndPage, page, doc) + (Round(EndDoc, page, doc) + [ClosePrinter])
  {
    RemainingDoc(page, doc);
    RemainingSnoc([ClosePrinter, EndDoc], EndPage, page, doc);
    assert [ClosePrinter, EndDoc] + [EndPage] == [ClosePrinter, EndDoc, EndPage];
  }

  /** What is left to the deferred calls completes what the body has called itself. */
  lemma RemainingIsDue(s: Stage, page: bool, doc: bool)
    requires (doc ==> page) && (page ==> s == PageStarted)
    ensures Explicit(page, doc) + Remaining(Registered(s), page, doc) == Due(s)
  {
    match s
    case NotOpened =>
    case Opened => RemainingClose(page, doc);
    case DocStarted => RemainingDoc(page, doc);
    case PageStarted => RemainingPage(page, doc);
  }

  /** An error of this module whose text is plain from its first character on. */
  method Plainly(text: string) returns (err: Option<GoError>)
    requires text != "" && text[0] in {'p', 'w', 'r', 's', 'W', 'O', 'S', 'C', 'c', 'E'}
    ensures err.Some? && !OutcomeUnknown(err.value)
  {
    PlainStays(text, "");
    assert text + "" == text;
    return Some(PlainError(text));
  }

  // ------------------------------------------------------------ direct USB

  /** A bounded write: it comes back, or it is abandoned and some of the chunk may go out later. */
  datatype UsbWrite =
    | Back(n: nat, err: Option<string>)
    | AbandonedOnCancel(late: nat)
    | AbandonedOnTimeout(late: nat)

  datatype UsbStep = UsbStep(cancelled: bool, write: UsbWrite)

  predicate UsbLies(s: UsbStep) {
    && !s.cancelled && s.write.Back? && s.write.n > 0
    && s.write.err.Some? && !HasUnknownOutcomeMarker(s.write.err.value)
  }

  class USBPrinter {
    /** Set once a write had to be abandoned in mid-call; only a restart clears it. */
    var wedged: bool

    constructor ()
      ensures !wedged
    {
      wedged := false;
    }

    /** writeChunkBounded: `taken` is what the device took or may still take of the chunk. */
    method WriteChunkBounded(chunk: seq<byte>, w: UsbWrite) returns (n: nat, err: Option<GoError>, taken: seq<byte>)
      requires chunk != []
      modifies this
      ensures n <= |chunk| && taken <= chunk
      ensures w.Back? ==> wedged == old(wedged) && n == Min(w.n, |chunk|) && taken == chunk[..n]
      ensures w.Back? ==> err == (if w.err.Some? then Some(PlainError(w.err.value)) else None)
      ensures !w.Back? ==> wedged && n == 0 && err.Some? && HasUnknownOutcomeMarker(err.value.msg)
    {
      match w
      case Back(k, e) =>
        n := Min(k, |chunk|);
        taken := chunk[..n];
        err := if e.Some? then Some(PlainError(e.value)) else None;
      case AbandonedOnCancel(late) =>
        wedged := true;
        n := 0;
        taken := chunk[..Min(late, |chunk|)];
        err := Some(MarkUnknown("USB write abandoned on cancellation"));
      case AbandonedOnTimeout(late) =>
        wedged := true;
        n := 0;
        taken := chunk[..Min(late, |chunk|)];
        err := Some(MarkUnknown("USB write exceeded the operation boundary"));
    }

    /** USBPrinter.Print; `accepted` counts what an abandoned write may still put out. */
    method Print(data: seq<byte>, cancelled: bool, openError: Option<string>, env: nat -> UsbStep)
        returns (err: Option<GoError>, accepted: seq<byte>, writes: nat)
      modifies this
      ensures accepted <= data
      ensures err == None ==> accepted == data && 0 < |data| <= MAX_PRINT_BYTES
      // The latch is never cleared, and behind it no write is ever issued.
      ensures old(wedged) ==> wedged && writes == 0 && accepted == [] && err.Some?
      ensures wedged && !old(wedged) ==> err.Some? && HasUnknownOutcomeMarker(err.value.msg)
      // Honest, unless the very first write fails without a marker and reports bytes.
      ensures Honest(err, accepted, data) <==> !(writes > 0 && UsbLies(env(0)))
    {
      accepted, writes := [], 0;
      if |data| == 0 {
        PlainStays("refusing to print empty payload", "");
        assert "refusing to print empty payload" + "" == "refusing to print empty payload";
        return Some(PlainError("refusing to print empty payload")), [], 0;
      }
      if |data| > MAX_PRINT_BYTES {
        PlainStays("payload ", Progress(|data|, MAX_PRINT_BYTES));
        return Some(PlainError("payload " + Progress(|data|, MAX_PRINT_BYTES))), [], 0;
      }
      if wedged {
        return Some(PlainError("USB device is wedged after a stalled write")), [], 0;
      }
      if cancelled {
        PlainStays("context canceled", "");
        assert "context canceled" + "" == "context canceled";
        return Some(PlainError("context canceled")), [], 0;
      }
      if openError.Some? {
        PlainStays("CreateFile failed: ", openError.value);
        return Some(PlainError("CreateFile failed: " + openError.value)), [], 0;
      }
      err, accepted, writes := SendChunks(data, env);
    }

    /** The write loop of Print. */
    method SendChunks(data: seq<byte>, env: nat -> UsbStep)
        returns (err: Option<GoError>, accepted: seq<byte>, writes: nat)
      requires !wedged && 0 < |data|
      modifies this
      ensures accepted <= data
      ensures err == None ==> accepted == data
      ensures wedged ==> err.Some? && HasUnknownOutcomeMarker(err.value.msg)
      ensures Honest(err, accepted, data) <==> !(writes > 0 && UsbLies(env(0)))
    {
      accepted, writes := [], 0;
      var written := 0;
      while written < |data|
        invariant 0 <= written <= |data| && !wedged
        invariant accepted == data[..written]
        invariant writes == 0 <==> written == 0
        invariant writes > 0 ==> !UsbLies(env(0))
        decreases |data| - written
      {
        var step := env(writes);
        if step.cancelled {
          var msg := "print cancelled after " + Progress(written, |data|);
          if written > 0 {
            return Some(MarkUnknown(msg)), accepted, writes;
          }
          PlainStays("print cancelled after ", Progress(written, |data|));
          return Some(PlainError(msg)), accepted, writes;
        }
        var chunk := data[written..];
        if |chunk| > USB_CHUNK {
          chunk := chunk[..USB_CHUNK];
        }
        var n, e, taken := WriteChunkBounded(chunk, step.write);
        writes := writes + 1;
        assert taken == chunk[..|taken|];
        TakenInOrder(data, written, chunk, |taken|);
        accepted := accepted + taken;
        if e.Some? {
          if HasUnknownOutcomeMarker(e.value.msg) {
            return e, accepted, writes;
          }
          var rest := Progress(written, |data|) + ": " + e.value.msg;
          if written > 0 {
            return Some(MarkUnknown("WriteFile failed after " + rest)), accepted, writes;
          }
          PlainStays("WriteFile failed after ", rest);
          return Some(PlainError("WriteFile failed after " + rest)), accepted, writes;
        }
        if n == 0 {
          if written > 0 {
            return Some(MarkUnknown("WriteFile wrote 0 bytes after " + Progress(written, |data|))), accepted, writes;
          }
          PlainStays("WriteFile wrote 0 bytes", "");
          assert "WriteFile wrote 0 bytes" + "" == "WriteFile wrote 0 bytes";
          return Some(PlainError("WriteFile wrote 0 bytes")), accepted, writes;
        }
        written := written + n;
      }
      return None, accepted, writes;
    }
  }
}
