/**
  The agent's job executor: which job ids are in flight, under which claim token, and how
  many slots are taken.  Every critical section of dispatchJob and of its goroutine is one
  function on these books and one method of the class that keeps them.
 */
module Executor {
  import opened Wrappers
  import opened Bytes
  import opened Ledger

  const MAX_CONCURRENT_JOBS: int := 8
  const MAX_PENDING_JOBS: int := 64

  type RunId = nat
  type Time = int

  /** A claim token as a delivery carries it; an empty or missing one is NoToken. */
  datatype ClaimToken = NoToken | Tok(text: string)

  /** A job as it arrives over the WebSocket or in a poll. */
  datatype Delivery = Delivery(id: JobId, printer: PrinterId, data: seq<byte>, token: ClaimToken,
      expiresAt: Option<Time>)

  /**
    The maps under inFlightMu and the three counters.  `owner` says which run registered a
    job id and `heard` lists the tokens delivered since then; both only serve the proofs.
   */
  datatype Books = Books(
    owner: map<JobId, RunId>,
    tokens: map<JobId, ClaimToken>,
    received: map<JobId, Time>,
    heard: map<JobId, seq<ClaimToken>>,
    pending: nat,
    exec: nat,
    wg: nat)

  const EMPTY_BOOKS := Books(map[], map[], map[], map[], 0, 0, 0)

  predicate InFlight(b: Books, id: JobId) { id in b.owner }

  /** The in-flight ids, the token map and the receipt times always cover the same jobs. */
  ghost predicate SameKeys(b: Books) {
    forall id ::
      (id in b.tokens <==> id in b.owner) && (id in b.received <==> id in b.owner) && (id in b.heard <==> id in b.owner)
  }

  function LastNonEmpty(ts: seq<ClaimToken>): ClaimToken {
    if ts == [] then NoToken
    else if ts[|ts| - 1] != NoToken then ts[|ts| - 1]
    else LastNonEmpty(ts[..|ts| - 1])
  }

  /** The stored token is the latest non-empty one that was delivered since registration. */
  predicate TokensCurrent(b: Books) {
    forall id :: id in b.owner ==> TokenCurrent(b, id)
  }

  predicate TokenCurrent(b: Books, id: JobId) {
    id in b.tokens && id in b.heard && b.tokens[id] == LastNonEmpty(b.heard[id])
  }

  // ------------------------------------------------------------ critical sections

  /** A delivery of a job that is already in flight: adopt a newer token, never run it twice. */
  function Adopt(b: Books, d: Delivery, now: Time): Books {
    var h := if d.id in b.heard then b.heard[d.id := b.heard[d.id] + [d.token]] else b.heard;
    if d.token != NoToken then b.(tokens := b.tokens[d.id := d.token], received := b.received[d.id := now], heard := h)
    else b.(heard := h)
  }

  function Register(b: Books, d: Delivery, r: RunId, now: Time): Books {
    b.(owner := b.owner[d.id := r], tokens := b.tokens[d.id := d.token], received := b.received[d.id := now],
       heard := b.heard[d.id := [d.token]], wg := b.wg + 1)
  }

  function Forget(b: Books, id: JobId): Books {
    b.(owner := b.owner - {id}, tokens := b.tokens - {id}, received := b.received - {id}, heard := b.heard - {id})
  }

  function CurrentClaimToken(b: Books, id: JobId): ClaimToken {
    if id in b.tokens then b.tokens[id] else NoToken
  }

  /** The token a report about a job carries: the live one if there is one, else the run's own. */
  function ReportToken(b: Books, d: Delivery): ClaimToken {
    if CurrentClaimToken(b, d.id) != NoToken then CurrentClaimToken(b, d.id) else d.token
  }

  lemma AdoptKeeps(b: Books, d: Delivery, now: Time)
    requires SameKeys(b) && TokensCurrent(b) && InFlight(b, d.id)
    ensures SameKeys(Adopt(b, d, now)) && TokensCurrent(Adopt(b, d, now))
    ensures Adopt(b, d, now).owner == b.owner
  {
    var h := b.heard[d.id];
    var a := Adopt(b, d, now);
    assert (h + [d.token])[..|h|] == h;
    assert a.heard[d.id] == h + [d.token];
    assert LastNonEmpty(h + [d.token]) == if d.token != NoToken then d.token else LastNonEmpty(h);
    forall id | id in a.owner
      ensures TokenCurrent(a, id)
    {
      if id != d.id {
        assert TokenCurrent(b, id);
      }
    }
  }

  lemma RegisterKeeps(b: Books, d: Delivery, r: RunId, now: Time)
    requires SameKeys(b) && TokensCurrent(b) && !InFlight(b, d.id)
    ensures SameKeys(Register(b, d, r, now)) && TokensCurrent(Register(b, d, r, now))
  {
    var a := Register(b, d, r, now);
    assert [d.token][..0] == [];
    assert LastNonEmpty([d.token]) == d.token;
    forall id | id in a.owner
      ensures TokenCurrent(a, id)
    {
      if id != d.id {
        assert TokenCurrent(b, id);
      }
    }
  }

  lemma ForgetKeeps(b: Books, id: JobId)
    requires SameKeys(b) && TokensCurrent(b)
    ensures SameKeys(Forget(b, id)) && TokensCurrent(Forget(b, id)) && !InFlight(Forget(b, id), id)
  {
    forall k | k in Forget(b, id).owner
      ensures TokenCurrent(Forget(b, id), k)
    {
      assert TokenCurrent(b, k);
    }
  }

  /** A report about a job in flight carries the latest non-empty token delivered for it. */
  lemma ReportTokenIsLatest(b: Books, d: Delivery)
    requires SameKeys(b) && TokensCurrent(b) && InFlight(b, d.id)
    requires 0 < |b.heard[d.id]| && b.heard[d.id][0] == d.token
    ensures ReportToken(b, d) == LastNonEmpty(b.heard[d.id])
  {
    assert TokenCurrent(b, d.id);
    LastNonEmptyOfEmpties(b.heard[d.id]);
  }

  lemma {:induction false} LastNonEmptyOfEmpties(ts: seq<ClaimToken>)
    ensures LastNonEmpty(ts) == NoToken ==> forall i :: 0 <= i < |ts| ==> ts[i] == NoToken
    decreases |ts|
  {
    if ts != [] && ts[|ts| - 1] == NoToken {
      LastNonEmptyOfEmpties(ts[..|ts| - 1]);
      forall i | 0 <= i < |ts| && LastNonEmpty(ts) == NoToken
        ensures ts[i] == NoToken
      {
        if i < |ts| - 1 {
          assert ts[..|ts| - 1][i] == ts[i];
        }
      }
    }
  }

  // ------------------------------------------------------------ dispatch authorization

  const STALE_CLAIM_SAFETY_WINDOW: int := 90 * 1000

  datatype ReportResult = Accepted | StaleClaim | TransitionRejected | TransportError

  /** authorizeDispatchAfterReportFailure, for a report that was not accepted. */
  function Authorize(received: Option<Time>, expiresAt: Option<Time>, now: Time, result: ReportResult): bool {
    if result == StaleClaim || result == TransitionRejected then false
    else if received == None then false
    else if expiresAt.Some? && expiresAt.value <= now then false
    else now - received.value < STALE_CLAIM_SAFETY_WINDOW
  }

  /**
    Dispatch goes ahead exactly when the gateway did not refuse, with a known receipt, inside the
    lease window and the TTL.
   */
  lemma AuthorizeMeaning(received: Option<Time>, expiresAt: Option<Time>, now: Time, result: ReportResult)
    ensures Authorize(received, expiresAt, now, result) <==>
            && result != StaleClaim && result != TransitionRejected
            && (exists t :: received == Some(t) && now < t + STALE_CLAIM_SAFETY_WINDOW)
            && (forall t :: expiresAt == Some(t) ==> now < t)
  {
    if Authorize(received, expiresAt, now, result) {
      assert received == Some(received.value);
    }
  }

  /** The sweep has already taken back a claim made at `claimedAt` when dispatch is still authorized. */
  predicate Overlap(claimedAt: Time, received: Time, swept: Time, now: Time) {
    && claimedAt < swept - STALE_CLAIM_SAFETY_WINDOW && swept <= now
    && Authorize(Some(received), None, now, TransportError)
  }

  /**
    The agent counts its window from receipt, the sweep from the claim.  The two overlap
    exactly when the delivery took at least two clock ticks.
   */
  lemma WindowsOverlapByLatency(claimedAt: Time, received: Time)
    requires claimedAt <= received
    ensures (exists swept: Time, now: Time :: Overlap(claimedAt, received, swept, now)) <==> received - claimedAt >= 2
  {
    if received - claimedAt >= 2 {
      var swept := claimedAt + STALE_CLAIM_SAFETY_WINDOW + 1;
      assert Overlap(claimedAt, received, swept, swept);
    }
  }

  // ------------------------------------------------------------ the executor as an object

  datatype Admission = ShuttingDown | Duplicate | Admitted

  class JobExecutor {
    var inFlight: set<JobId>
    var inFlightTokens: map<JobId, ClaimToken>
    var inFlightReceived: map<JobId, Time>
    var pendingUsed: nat
    var execUsed: nat
    var wg: nat
    var shutdown: bool
    ghost var owner: map<JobId, RunId>
    ghost var heard: map<JobId, seq<ClaimToken>>

    ghost function Abs(): Books
      reads this
    {
      Books(owner, inFlightTokens, inFlightReceived, heard, pendingUsed, execUsed, wg)
    }

    ghost predicate Valid()
      reads this
    {
      (forall id :: id in inFlight <==> id in owner) && SameKeys(Abs()) && TokensCurrent(Abs())
      && pendingUsed <= MAX_PENDING_JOBS && execUsed <= MAX_CONCURRENT_JOBS
    }

    constructor ()
      ensures Valid() && Abs() == EMPTY_BOOKS && !shutdown
    {
      inFlight, inFlightTokens, inFlightReceived := {}, map[], map[];
      pendingUsed, execUsed, wg, shutdown := 0, 0, 0, false;
      owner, heard := map[], map[];
    }

    /** dispatchJob under inFlightMu: refuse, adopt or register. */
    method Admit(d: Delivery, now: Time, ghost r: RunId) returns (a: Admission)
      requires Valid()
      modifies this
      ensures Valid() && shutdown == old(shutdown)
      ensures a == if old(shutdown) then ShuttingDown else if InFlight(old(Abs()), d.id) then Duplicate else Admitted
      ensures Abs() == match a
                       case ShuttingDown => old(Abs())
                       case Duplicate => Adopt(old(Abs()), d, now)
                       case Admitted => Register(old(Abs()), d, r, now)
    {
      if shutdown {
        return ShuttingDown;
      }
      if d.id in inFlight {
        AdoptToken(d, now);
        return Duplicate;
      }
      RegisterJob(d, now, r);
      return Admitted;
    }

    method AdoptToken(d: Delivery, now: Time)
      requires Valid() && InFlight(Abs(), d.id)
      modifies this
      ensures Valid() && shutdown == old(shutdown) && Abs() == Adopt(old(Abs()), d, now)
    {
      AdoptKeeps(Abs(), d, now);
      ghost var after := Adopt(Abs(), d, now);
      heard := heard[d.id := heard[d.id] + [d.token]];
      if d.token != NoToken {
        inFlightTokens := inFlightTokens[d.id := d.token];
        inFlightReceived := inFlightReceived[d.id := now];
      }
      assert Abs() == after;
    }

    method RegisterJob(d: Delivery, now: Time, ghost r: RunId)
      requires Valid() && !InFlight(Abs(), d.id)
      modifies this
      ensures Valid() && shutdown == old(shutdown) && Abs() == Register(old(Abs()), d, r, now)
    {
      RegisterKeeps(Abs(), d, r, now);
      ghost var after := Register(Abs(), d, r, now);
      inFlight, inFlightTokens, inFlightReceived, wg, owner, heard :=
        inFlight + {d.id}, inFlightTokens[d.id := d.token], inFlightReceived[d.id := now], wg + 1,
        owner[d.id := r], heard[d.id := [d.token]];
      assert Abs() == after;
    }

    method ForgetJob(id: JobId)
      requires Valid()
      modifies this
      ensures Valid() && shutdown == old(shutdown) && Abs() == Forget(old(Abs()), id)
    {
      ForgetKeeps(Abs(), id);
      inFlight := inFlight - {id};
      inFlightTokens := inFlightTokens - {id};
      inFlightReceived := inFlightReceived - {id};
      owner := owner - {id};
      heard := heard - {id};
    }

    /** The non-blocking send on pendingSlots. */
    method TryPendingSlot() returns (ok: bool)
      requires Valid()
      modifies this
      ensures Valid() && shutdown == old(shutdown) && ok == (old(pendingUsed) < MAX_PENDING_JOBS)
      ensures Abs() == old(Abs()).(pending := if ok then old(pendingUsed) + 1 else old(pendingUsed))
    {
      ok := pendingUsed < MAX_PENDING_JOBS;
      if ok {
        pendingUsed := pendingUsed + 1;
      }
    }

    /** The send on execSem, as far as it can go ahead now. */
    method TryExecSlot() returns (ok: bool)
      requires Valid()
      modifies this
      ensures Valid() && shutdown == old(shutdown) && ok == (old(execUsed) < MAX_CONCURRENT_JOBS)
      ensures Abs() == old(Abs()).(exec := if ok then old(execUsed) + 1 else old(execUsed))
    {
      ok := execUsed < MAX_CONCURRENT_JOBS;
      if ok {
        execUsed := execUsed + 1;
      }
    }

    method LiveToken(id: JobId) returns (token: ClaimToken)
      requires Valid()
      ensures token == CurrentClaimToken(Abs(), id)
      ensures id in inFlight ==> token == LastNonEmpty(heard[id])
    {
      assert id in inFlight ==> TokenCurrent(Abs(), id);
      token := if id in inFlightTokens then inFlightTokens[id] else NoToken;
    }
  }
}
