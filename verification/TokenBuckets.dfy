/**
  The per-agent message limiter of the gateway's WebSocket server: token buckets that outlive
  connections, and the collection of buckets nobody has used for an hour.
 */
module TokenBuckets {
  const CAPACITY: real := 20.0
  const REFILL_PER_SECOND: real := 5.0
  const IDLE_TTL_MS: int := 60 * 60 * 1000

  type AgentId = string

  // ------------------------------------------------------------ one bucket

  datatype Bucket = Bucket(tokens: real, last: int)

  function Min(a: real, b: real): real { if a <= b then a else b }

  /** What flows in while the clock goes from one reading to the next; nothing if it goes back. */
  function Inflow(from: int, to: int): real {
    if to <= from then 0.0 else (to - from) as real / 1000.0 * REFILL_PER_SECOND
  }

  function Refilled(b: Bucket, now: int): Bucket {
    Bucket(Min(CAPACITY, b.tokens + Inflow(b.last, now)), now)
  }

  predicate Allows(b: Bucket, now: int) { Refilled(b, now).tokens >= 1.0 }

  function Consumed(b: Bucket, now: int): Bucket {
    if Allows(b, now) then Bucket(Refilled(b, now).tokens - 1.0, now) else Refilled(b, now)
  }

  /** TokenBucket, with the clock reading as a parameter. */
  class TokenBucket {
    var tokens: real
    var lastRefillMs: int

    function State(): Bucket
      reads this
    {
      Bucket(tokens, lastRefillMs)
    }

    constructor (now: int)
      ensures State() == Bucket(CAPACITY, now)
    {
      tokens, lastRefillMs := CAPACITY, now;
    }

    method Consume(now: int) returns (ok: bool)
      modifies this
      ensures ok == Allows(old(State()), now) && State() == Consumed(old(State()), now)
    {
      var elapsed := if now <= lastRefillMs then 0.0 else (now - lastRefillMs) as real / 1000.0;
      tokens := Min(CAPACITY, tokens + elapsed * REFILL_PER_SECOND);
      lastRefillMs := now;
      if tokens < 1.0 {
        return false;
      }
      tokens := tokens - 1.0;
      return true;
    }
  }

  // ------------------------------------------------------------ all buckets

  datatype Entry = Entry(bucket: Bucket, lastSeen: int)

  type Entries = map<AgentId, Entry>

  function EntryFor(m: Entries, a: AgentId, now: int): Entry {
    if a in m then m[a] else Entry(Bucket(CAPACITY, now), now)
  }

  /** One message of one agent: look the bucket up, creating it if needed, and consume. */
  function AfterMessage(m: Entries, a: AgentId, now: int): Entries {
    m[a := Entry(Consumed(EntryFor(m, a, now).bucket, now), now)]
  }

  predicate Accepts(m: Entries, a: AgentId, now: int) { Allows(EntryFor(m, a, now).bucket, now) }

  predicate Idle(e: Entry, now: int) { now - e.lastSeen > IDLE_TTL_MS }

  function Pruned(m: Entries, now: int): Entries { map a | a in m && !Idle(m[a], now) :: m[a] }

  datatype Slot = Slot(bucket: TokenBucket, lastSeenMs: int)

  /** The server's map of buckets.  No two agents share one. */
  class MessageLimiter {
    var slots: map<AgentId, Slot>

    ghost function Buckets(): set<TokenBucket>
      reads this
    {
      set a | a in slots :: slots[a].bucket
    }

    ghost predicate Valid()
      reads this
    {
      forall a, b :: a in slots && b in slots && a != b ==> slots[a].bucket != slots[b].bucket
    }

    ghost function Abs(): Entries
      reads this, Buckets()
    {
      map a | a in slots :: Entry(slots[a].bucket.State(), slots[a].lastSeenMs)
    }

    constructor ()
      ensures Valid() && Abs() == map[]
    {
      slots := map[];
    }

    method GetBucketForAgent(a: AgentId, now: int) returns (bucket: TokenBucket)
      requires Valid()
      modifies this
      ensures Valid() && slots == old(slots)[a := Slot(bucket, now)]
      ensures a in old(slots) ==> bucket == old(slots[a].bucket)
      ensures a !in old(slots) ==> fresh(bucket) && bucket.State() == Bucket(CAPACITY, now)
    {
      if a in slots {
        bucket := slots[a].bucket;
        slots := slots[a := Slot(bucket, now)];
        return;
      }
      bucket := new TokenBucket(now);
      slots := slots[a := Slot(bucket, now)];
    }

    /** The head of the message handler: true lets the message through, false closes the socket. */
    method OnMessage(a: AgentId, now: int) returns (ok: bool)
      requires Valid()
      modifies this, Buckets()
      ensures Valid() && ok == Accepts(old(Abs()), a, now) && Abs() == AfterMessage(old(Abs()), a, now)
    {
      var bucket := GetBucketForAgent(a, now);
      ok := bucket.Consume(now);
    }

    method PruneIdle(now: int) returns (pruned: nat)
      requires Valid()
      modifies this
      ensures Valid() && Abs() == Pruned(old(Abs()), now) && pruned == |old(slots)| - |slots|
    {
      pruned := 0;
      var todo := slots.Keys;
      while todo != {}
        invariant todo <= slots.Keys && Swept(old(slots), slots, todo, now)
        invariant pruned == |old(slots)| - |slots|
        decreases todo
      {
        var a :| a in todo;
        todo := todo - {a};
        if now - slots[a].lastSeenMs > IDLE_TTL_MS {
          DropOne(slots, a);
          slots := slots - {a};
          pruned := pruned + 1;
        }
      }
    }
  }

  lemma DropOne(m: map<AgentId, Slot>, a: AgentId)
    requires a in m
    ensures |m - {a}| == |m| - 1
  {
    assert (m - {a}).Keys == m.Keys - {a};
  }

  /** All slots outside `todo` have been looked at: the idle ones are gone, the others untouched. */
  predicate Swept(was: map<AgentId, Slot>, left: map<AgentId, Slot>, todo: set<AgentId>, now: int) {
    && (forall a :: a in left ==> a in was && left[a] == was[a])
    && (forall a :: a in was && (a in todo || now - was[a].lastSeenMs <= IDLE_TTL_MS) ==> a in left)
    && (forall a :: a in left && a !in todo ==> now - left[a].lastSeenMs <= IDLE_TTL_MS)
  }

  // ------------------------------------------------------------ runs

  datatype Event = Message(agent: AgentId, now: int) | Prune(now: int)

  function Step(m: Entries, e: Event): Entries {
    match e
    case Message(a, now) => AfterMessage(m, a, now)
    case Prune(now) => Pruned(m, now)
  }

  predicate Monotone(clock: int, events: seq<Event>)
    decreases |events|
  {
    events == [] || (clock <= events[0].now && Monotone(events[0].now, events[1..]))
  }

  /** No reading lies ahead of the clock and no bucket is out of bounds. */
  predicate Sane(m: Entries, clock: int) {
    forall a :: a in m ==> 0.0 <= m[a].bucket.tokens <= CAPACITY && m[a].bucket.last == m[a].lastSeen <= clock
  }

  lemma StepKeepsSane(m: Entries, e: Event, clock: int)
    requires Sane(m, clock) && clock <= e.now
    ensures Sane(Step(m, e), e.now)
  {}

  function LastReading(clock: int, events: seq<Event>): int {
    if events == [] then clock else events[|events| - 1].now
  }

  /** How many messages of an agent a run lets through. */
  function AcceptedOf(m: Entries, events: seq<Event>, a: AgentId): nat
    decreases |events|
  {
    if events == [] then 0
    else (if events[0].Message? && events[0].agent == a && Accepts(m, a, events[0].now) then 1 else 0)
         + AcceptedOf(Step(m, events[0]), events[1..], a)
  }

  /** What the agent could spend at once if it sent now. */
  function Credit(m: Entries, a: AgentId, now: int): real { Refilled(EntryFor(m, a, now).bucket, now).tokens }

  /** One step costs exactly the message it lets through and gains at most the time that passes. */
  lemma StepPaysForMessages(m: Entries, e: Event, clock: int, a: AgentId)
    requires Sane(m, clock) && clock <= e.now
    ensures Credit(Step(m, e), a, e.now) + (if e.Message? && e.agent == a && Accepts(m, a, e.now) then 1.0 else 0.0)
            <= Credit(m, a, clock) + Inflow(clock, e.now)
    ensures 0.0 <= Credit(m, a, clock) <= CAPACITY
  {}

  /**
    The limit holds across reconnects and collections: from any state the limiter can be in,
    messages accepted over t seconds are at most what is in the bucket plus 5t, so at most 20 + 5t.
   */
  lemma {:induction false} AtMostTwentyPlusFivePerSecond(m: Entries, events: seq<Event>, clock: int, a: AgentId)
    requires Sane(m, clock) && Monotone(clock, events)
    ensures clock <= LastReading(clock, events)
    ensures AcceptedOf(m, events, a) as real <= Credit(m, a, clock) + Inflow(clock, LastReading(clock, events))
    ensures AcceptedOf(m, events, a) as real <= CAPACITY + Inflow(clock, LastReading(clock, events))
    decreases |events|
  {
    if events == [] {
      assert 0.0 <= Credit(m, a, clock) <= CAPACITY;
    } else {
      StepKeepsSane(m, events[0], clock);
      StepPaysForMessages(m, events[0], clock, a);
      AtMostTwentyPlusFivePerSecond(Step(m, events[0]), events[1..], events[0].now, a);
    }
  }

  function Burst(a: AgentId, now: int, n: nat): seq<Event> {
    if n == 0 then [] else [Message(a, now)] + Burst(a, now, n - 1)
  }

  /** The bound is met: of n messages at one instant, exactly those that are covered by whole tokens pass. */
  lemma {:induction false} BurstTakesWholeTokens(m: Entries, a: AgentId, now: int, n: nat)
    requires Sane(m, now)
    ensures AcceptedOf(m, Burst(a, now, n), a)
            == if n as real <= Credit(m, a, now) then n else Credit(m, a, now).Floor
    decreases n
  {
    if n > 0 {
      assert Burst(a, now, n)[1..] == Burst(a, now, n - 1);
      StepKeepsSane(m, Message(a, now), now);
      BurstTakesWholeTokens(Step(m, Message(a, now)), a, now, n - 1);
      BurstCredit(m, a, now);
    }
  }

  lemma BurstCredit(m: Entries, a: AgentId, now: int)
    requires Sane(m, now)
    ensures Credit(AfterMessage(m, a, now), a, now) == Credit(m, a, now) - (if Accepts(m, a, now) then 1.0 else 0.0)
  {}

  // ------------------------------------------------------------ collection is invisible

  function Decisions(m: Entries, events: seq<Event>): seq<bool>
    decreases |events|
  {
    if events == [] then []
    else if events[0].Prune? then Decisions(Step(m, events[0]), events[1..])
    else [Accepts(m, events[0].agent, events[0].now)] + Decisions(Step(m, events[0]), events[1..])
  }

  function WithoutPrunes(events: seq<Event>): seq<Event>
    decreases |events|
  {
    if events == [] then []
    else if events[0].Prune? then WithoutPrunes(events[1..])
    else [events[0]] + WithoutPrunes(events[1..])
  }

  /** The collected map is the full one without some buckets that have been idle for over an hour. */
  predicate Collected(some: Entries, all: Entries, clock: int) {
    && (forall a :: a in some ==> a in all && some[a] == all[a])
    && (forall a :: a in all && a !in some ==> Idle(all[a], clock))
  }

  lemma IdleIsFull(e: Entry, now: int)
    requires 0.0 <= e.bucket.tokens && e.bucket.last == e.lastSeen && Idle(e, now)
    ensures Refilled(e.bucket, now) == Refilled(Bucket(CAPACITY, now), now)
  {}

  lemma MessageKeepsCollected(some: Entries, all: Entries, clock: int, a: AgentId, now: int)
    requires Sane(all, clock) && Collected(some, all, clock) && clock <= now
    ensures Accepts(some, a, now) == Accepts(all, a, now)
    ensures Collected(AfterMessage(some, a, now), AfterMessage(all, a, now), now)
  {
    if a in all && a !in some {
      IdleIsFull(all[a], now);
    }
  }

  /** With a monotone clock, every decision is the one a limiter without collection would make. */
  lemma {:induction false} CollectionIsInvisible(some: Entries, all: Entries, events: seq<Event>, clock: int)
    requires Sane(all, clock) && Collected(some, all, clock) && Monotone(clock, events)
    ensures Decisions(some, events) == Decisions(all, WithoutPrunes(events))
    decreases |events|
  {
    if events != [] {
      var e := events[0];
      if e.Prune? {
        CollectionIsInvisible(Step(some, e), all, events[1..], e.now);
      } else {
        MessageKeepsCollected(some, all, clock, e.agent, e.now);
        StepKeepsSane(all, e, clock);
        CollectionIsInvisible(Step(some, e), Step(all, e), events[1..], e.now);
        assert WithoutPrunes(events)[1..] == WithoutPrunes(events[1..]);
      }
    }
  }

  /** Monotone matters: with a clock that goes back and forth, an empty bucket refills in no time. */
  lemma ClockJumpsRefill(b: Bucket, now: int)
    requires b.tokens == 0.0 && b.last == now
    ensures Refilled(Refilled(b, now - 4000), now).tokens == CAPACITY
    ensures Refilled(b, now).tokens == 0.0
  {}
}
