/**
  The fixed windows that limit how many jobs an API key may create per minute and per hour.
 */
module RateWindows {
  import opened Wrappers
  import opened JobStatus

  const PER_MINUTE: int := 60
  const PER_HOUR: int := 1000

  datatype Unit = Minute | Hour

  function Width(u: Unit): int { if u == Minute then 60 * 1000 else 60 * 60 * 1000 }
  function Cap(u: Unit): int { if u == Minute then PER_MINUTE else PER_HOUR }

  datatype Window = Window(started: Time, count: nat)

  datatype Limits = Limits(minute: Window, hour: Window)

  function Of(l: Limits, u: Unit): Window { if u == Minute then l.minute else l.hour }

  function Elapsed(w: Window, now: Time): int { if now <= w.started then 0 else now - w.started }

  /** The window with one more create in it: the same window, or a new one that begins now. */
  function Counted(w: Window, now: Time, u: Unit): Window {
    if Elapsed(w, now) >= Width(u) then Window(now, 1) else Window(w.started, w.count + 1)
  }

  function Both(l: Limits, now: Time): Limits { Limits(Counted(l.minute, now, Minute), Counted(l.hour, now, Hour)) }

  predicate WithinCaps(l: Limits) { l.minute.count <= PER_MINUTE && l.hour.count <= PER_HOUR }

  /** Whole seconds until the window may begin anew. */
  function SecondsLeft(w: Window, now: Time, u: Unit): int {
    if Elapsed(w, now) >= Width(u) then 0 else (Width(u) - Elapsed(w, now) + 999) / 1000
  }

  function Max(a: int, b: int): int { if a >= b then a else b }

  function RetryAfter(l: Limits, now: Time): int {
    Max(1, Max(SecondsLeft(l.minute, now, Minute), SecondsLeft(l.hour, now, Hour)))
  }

  /** The counters after a create at this time, or the seconds to wait. */
  function TakeRate(l: Option<Limits>, now: Time): Result<Limits, int> {
    if l == None then Ok(Limits(Window(now, 1), Window(now, 1)))
    else if WithinCaps(Both(l.value, now)) then Ok(Both(l.value, now))
    else Err(RetryAfter(l.value, now))
  }

  /** Counters as some run of creates before `clock` leaves them. */
  predicate Sane(l: Option<Limits>, clock: Time) {
    l.Some? ==>
      && 1 <= l.value.minute.count <= PER_MINUTE && l.value.minute.started <= clock
      && 1 <= l.value.hour.count <= PER_HOUR && l.value.hour.started <= clock
  }

  // ------------------------------------------------------------ runs

  predicate Monotone(clock: Time, times: seq<Time>)
    decreases |times|
  {
    times == [] || (clock <= times[0] && Monotone(times[0], times[1..]))
  }

  function AfterTake(l: Option<Limits>, now: Time): Option<Limits> {
    if TakeRate(l, now).Ok? then Some(TakeRate(l, now).value) else l
  }

  /** How many of the requests at these times are granted. */
  function Grants(l: Option<Limits>, times: seq<Time>): nat
    decreases |times|
  {
    if times == [] then 0
    else (if TakeRate(l, times[0]).Ok? then 1 else 0) + Grants(AfterTake(l, times[0]), times[1..])
  }

  lemma TakeKeepsSane(l: Option<Limits>, clock: Time, now: Time)
    requires Sane(l, clock) && clock <= now
    ensures Sane(AfterTake(l, now), now)
  {}

  /**
    What an interval of one width beginning at `from` can still see: the rest of this window, and
    one more if this one began before.
   */
  function Room(l: Option<Limits>, u: Unit, from: Time): int {
    if l == None then Cap(u)
    else if Of(l.value, u).started >= from then Cap(u) - Of(l.value, u).count
    else 2 * Cap(u) - Of(l.value, u).count
  }

  lemma TakeUsesRoom(l: Option<Limits>, clock: Time, now: Time, u: Unit, from: Time)
    requires Sane(l, clock) && clock <= now && from <= now < from + Width(u)
    ensures Room(AfterTake(l, now), u, from) + (if TakeRate(l, now).Ok? then 1 else 0) <= Room(l, u, from)
  {}

  /** How many of the requests at these times are granted between two instants, the second excluded. */
  function GrantsIn(l: Option<Limits>, times: seq<Time>, from: Time, to: Time): nat
    decreases |times|
  {
    if times == [] then 0
    else (if TakeRate(l, times[0]).Ok? && from <= times[0] < to then 1 else 0)
         + GrantsIn(AfterTake(l, times[0]), times[1..], from, to)
  }

  lemma {:induction false} NothingAfter(l: Option<Limits>, clock: Time, times: seq<Time>, from: Time, to: Time)
    requires Monotone(clock, times) && to <= clock
    ensures GrantsIn(l, times, from, to) == 0
    decreases |times|
  {
    if times != [] {
      NothingAfter(AfterTake(l, times[0]), times[0], times[1..], from, to);
    }
  }

  /** Once the interval has begun, it sees no more than the room that is left in it. */
  lemma {:induction false} RestOfInterval(l: Option<Limits>, clock: Time, times: seq<Time>, u: Unit, from: Time)
    requires Sane(l, clock) && Monotone(clock, times) && (times != [] ==> from <= times[0])
    ensures GrantsIn(l, times, from, from + Width(u)) <= Room(l, u, from)
    decreases |times|
  {
    if times != [] {
      TakeKeepsSane(l, clock, times[0]);
      if times[0] < from + Width(u) {
        TakeUsesRoom(l, clock, times[0], u, from);
        RestOfInterval(AfterTake(l, times[0]), times[0], times[1..], u, from);
      } else {
        NothingAfter(AfterTake(l, times[0]), times[0], times[1..], from, from + Width(u));
      }
    }
  }

  lemma {:induction false} IntervalIsBounded(l: Option<Limits>, clock: Time, times: seq<Time>, u: Unit, from: Time)
    requires Sane(l, clock) && Monotone(clock, times)
    ensures GrantsIn(l, times, from, from + Width(u)) <= 2 * Cap(u) - 1
    decreases |times|
  {
    if times != [] && times[0] < from {
      TakeKeepsSane(l, clock, times[0]);
      IntervalIsBounded(AfterTake(l, times[0]), times[0], times[1..], u, from);
    } else {
      RestOfInterval(l, clock, times, u, from);
    }
  }

  /**
    Over every sequence of requests of a key since its first, with a monotone clock: any
    half-open minute sees at most 119 grants and any hour at most 1999, one window that was
    already begun and one that begins inside.
   */
  lemma AnyIntervalIsBounded(clock: Time, times: seq<Time>, u: Unit, from: Time)
    requires Monotone(clock, times)
    ensures GrantsIn(None, times, from, from + Width(u)) <= 2 * Cap(u) - 1
  {
    IntervalIsBounded(None, clock, times, u, from);
  }

  // ------------------------------------------------------------ the bounds are met

  function AfterTakes(l: Option<Limits>, times: seq<Time>): Option<Limits>
    decreases |times|
  {
    if times == [] then l else AfterTakes(AfterTake(l, times[0]), times[1..])
  }

  /** From these counters, so many of the requests are granted, and the counters become those. */
  predicate Gives(l: Option<Limits>, times: seq<Time>, n: nat, after: Option<Limits>) {
    Grants(l, times) == n && AfterTakes(l, times) == after
  }

  lemma {:induction false} GivesConcat(
      l: Option<Limits>, a: seq<Time>, n: nat, mid: Option<Limits>, b: seq<Time>, m: nat, after: Option<Limits>)
    requires Gives(l, a, n, mid) && Gives(mid, b, m, after)
    ensures Gives(l, a + b, n + m, after)
    decreases |a|
  {
    if a == [] {
      assert a + b == b;
    } else {
      assert (a + b)[0] == a[0] && (a + b)[1..] == a[1..] + b;
      GivesConcat(AfterTake(l, a[0]), a[1..], if TakeRate(l, a[0]).Ok? then n - 1 else n, mid, b, m, after);
    }
  }

  function Repeat(t: Time, n: nat): seq<Time> { if n == 0 then [] else [t] + Repeat(t, n - 1) }

  predicate Begun(w: Window, t: Time, u: Unit) { w.started <= t < w.started + Width(u) }
  predicate Over(w: Window, t: Time, u: Unit) { w.started + Width(u) <= t }

  function More(w: Window, n: nat): Window { Window(w.started, w.count + n) }

  /** n creates at one instant, in windows with room for them. */
  lemma {:induction false} RepeatGives(l: Limits, t: Time, n: nat)
    requires Begun(l.minute, t, Minute) && Begun(l.hour, t, Hour)
    requires l.minute.count + n <= PER_MINUTE && l.hour.count + n <= PER_HOUR
    ensures Gives(Some(l), Repeat(t, n), n, Some(Limits(More(l.minute, n), More(l.hour, n))))
    decreases n
  {
    if n > 0 {
      assert Repeat(t, n)[1..] == Repeat(t, n - 1);
      RepeatGives(Both(l, t), t, n - 1);
    }
  }

  /** The first create of a batch, and the others. */
  lemma RepeatFirst(l: Option<Limits>, t: Time, n: nat, after: Option<Limits>)
    requires n > 0 && TakeRate(l, t).Ok? && Gives(AfterTake(l, t), Repeat(t, n - 1), n - 1, after)
    ensures Gives(l, Repeat(t, n), n, after)
  {
    assert Repeat(t, n)[1..] == Repeat(t, n - 1);
  }

  /** n creates at one instant of a fresh minute, in an hour with room for them. */
  lemma PartOfMinute(l: Limits, t: Time, n: nat)
    requires 0 < n <= PER_MINUTE && Over(l.minute, t, Minute) && Begun(l.hour, t, Hour) && l.hour.count + n <= PER_HOUR
    ensures Gives(Some(l), Repeat(t, n), n, Some(Limits(Window(t, n), More(l.hour, n))))
  {
    RepeatGives(Both(l, t), t, n - 1);
    RepeatFirst(Some(l), t, n, Some(Limits(Window(t, n), More(l.hour, n))));
  }

  /** n creates at the instant that opens a fresh minute and a fresh hour. */
  lemma NewHour(l: Limits, t: Time, n: nat)
    requires 0 < n <= PER_MINUTE && Over(l.minute, t, Minute) && Over(l.hour, t, Hour)
    ensures Gives(Some(l), Repeat(t, n), n, Some(Limits(Window(t, n), Window(t, n))))
  {
    RepeatGives(Both(l, t), t, n - 1);
    RepeatFirst(Some(l), t, n, Some(Limits(Window(t, n), Window(t, n))));
  }

  function Times(n: nat, quota: nat): nat { n * quota }

  lemma TimesNext(n: nat, quota: nat)
    requires n > 0
    ensures Times(n, quota) == quota + Times(n - 1, quota)
  {}

  /** The instant n minutes later. */
  function MinutesOn(start: Time, n: nat): Time { start + n * Width(Minute) }

  /** n minutes, each with all its `quota` creates at one instant. */
  function MinuteBatches(start: Time, quota: nat, n: nat): seq<Time>
    decreases n
  {
    if n == 0 then [] else Repeat(start, quota) + MinuteBatches(MinutesOn(start, 1), quota, n - 1)
  }

  function LastBatch(l: Limits, start: Time, quota: nat, n: nat): Window {
    if n == 0 then l.minute else Window(MinutesOn(start, n - 1), quota)
  }

  lemma {:induction false} ManyBatches(l: Limits, start: Time, quota: nat, n: nat)
    requires 0 < quota <= PER_MINUTE && Over(l.minute, start, Minute) && l.hour.started <= start
    requires MinutesOn(start, n) <= l.hour.started + Width(Hour) && l.hour.count + Times(n, quota) <= PER_HOUR
    ensures Gives(Some(l), MinuteBatches(start, quota, n), Times(n, quota),
                  Some(Limits(LastBatch(l, start, quota, n), More(l.hour, Times(n, quota)))))
    decreases n
  {
    if n > 0 {
      TimesNext(n, quota);
      PartOfMinute(l, start, quota);
      var mid := Limits(Window(start, quota), More(l.hour, quota));
      ManyBatches(mid, MinutesOn(start, 1), quota, n - 1);
      GivesConcat(Some(l), Repeat(start, quota), quota, Some(mid),
                  MinuteBatches(MinutesOn(start, 1), quota, n - 1), Times(n - 1, quota),
                  Some(Limits(LastBatch(l, start, quota, n), More(l.hour, Times(n, quota)))));
    }
  }

  /** Some minutes in full, and then m more creates. */
  function Load(start: Time, quota: nat, n: nat, m: nat): seq<Time> {
    MinuteBatches(start, quota, n) + Repeat(MinutesOn(start, n), m)
  }

  lemma LoadGives(l: Limits, start: Time, quota: nat, n: nat, m: nat)
    requires 0 < quota <= PER_MINUTE && 0 < m <= PER_MINUTE && Over(l.minute, start, Minute) && l.hour.started <= start
    requires MinutesOn(start, n + 1) <= l.hour.started + Width(Hour) && l.hour.count + Times(n, quota) + m <= PER_HOUR
    ensures Gives(Some(l), Load(start, quota, n, m), Times(n, quota) + m,
                  Some(Limits(Window(MinutesOn(start, n), m), More(l.hour, Times(n, quota) + m))))
  {
    var mid := Limits(LastBatch(l, start, quota, n), More(l.hour, Times(n, quota)));
    ManyBatches(l, start, quota, n);
    PartOfMinute(mid, MinutesOn(start, n), m);
    GivesConcat(Some(l), MinuteBatches(start, quota, n), Times(n, quota), Some(mid), Repeat(MinutesOn(start, n), m), m,
                Some(Limits(Window(MinutesOn(start, n), m), More(l.hour, Times(n, quota) + m))));
  }

  predicate AllBetween(times: seq<Time>, from: Time, to: Time) {
    forall k :: 0 <= k < |times| ==> from <= times[k] < to
  }

  /** In order, between two instants. */
  predicate InOrder(times: seq<Time>, from: Time, to: Time) { Monotone(from, times) && AllBetween(times, from, to) }

  lemma {:induction false} OrderedConcat(a: seq<Time>, b: seq<Time>, from: Time, mid: Time, to: Time)
    requires InOrder(a, from, mid) && InOrder(b, mid, to) && from <= mid <= to
    ensures InOrder(a + b, from, to)
    decreases |a|
  {
    if a == [] {
      assert a + b == b;
    } else {
      assert (a + b)[0] == a[0] && (a + b)[1..] == a[1..] + b;
      assert forall k :: 0 <= k < |a[1..]| ==> a[1..][k] == a[k + 1];
      MonotoneWithin(a[1..], a[0], mid);
      OrderedConcat(a[1..], b, a[0], mid, to);
      forall k | 0 <= k < |a + b|
        ensures from <= (a + b)[k] < to
      {
        assert k > 0 ==> (a + b)[k] == (a + b)[1..][k - 1];
      }
    }
  }

  lemma {:induction false} MonotoneWithin(times: seq<Time>, from: Time, to: Time)
    requires Monotone(from, times) && forall k :: 0 <= k < |times| ==> times[k] < to
    ensures InOrder(times, from, to)
    decreases |times|
  {
    if times != [] {
      assert forall k :: 0 <= k < |times[1..]| ==> times[1..][k] == times[k + 1];
      MonotoneWithin(times[1..], times[0], to);
      forall k | 0 <= k < |times|
        ensures from <= times[k]
      {
        assert k > 0 ==> times[k] == times[1..][k - 1];
      }
    }
  }

  lemma {:induction false} RepeatOrdered(t: Time, n: nat, to: Time)
    requires t < to
    ensures InOrder(Repeat(t, n), t, to)
    decreases n
  {
    if n > 0 {
      RepeatOrdered(t, n - 1, to);
    }
  }

  lemma {:induction false} BatchesOrdered(start: Time, quota: nat, n: nat)
    ensures InOrder(MinuteBatches(start, quota, n), start, MinutesOn(start, n))
    decreases n
  {
    if n > 0 {
      RepeatOrdered(start, quota, MinutesOn(start, 1));
      BatchesOrdered(MinutesOn(start, 1), quota, n - 1);
      OrderedConcat(Repeat(start, quota), MinuteBatches(MinutesOn(start, 1), quota, n - 1),
                    start, MinutesOn(start, 1), MinutesOn(start, n));
    }
  }

  lemma LoadOrdered(start: Time, quota: nat, n: nat, m: nat)
    ensures InOrder(Load(start, quota, n, m), start, MinutesOn(start, n + 1))
  {
    BatchesOrdered(start, quota, n);
    RepeatOrdered(MinutesOn(start, n), m, MinutesOn(start, n + 1));
    OrderedConcat(MinuteBatches(start, quota, n), Repeat(MinutesOn(start, n), m),
                  start, MinutesOn(start, n), MinutesOn(start, n + 1));
  }

  lemma Widen(times: seq<Time>, from: Time, to: Time, later: Time)
    requires InOrder(times, from, to) && to <= later
    ensures InOrder(times, from, later)
  {}

  lemma {:induction false} AllInside(l: Option<Limits>, times: seq<Time>, from: Time, to: Time)
    requires AllBetween(times, from, to)
    ensures GrantsIn(l, times, from, to) == Grants(l, times)
    decreases |times|
  {
    if times != [] {
      assert from <= times[0] < to;
      assert forall k :: 0 <= k < |times[1..]| ==> times[1..][k] == times[k + 1];
      AllInside(AfterTake(l, times[0]), times[1..], from, to);
    }
  }

  /** A create at time 0 and then this load from some instant on: what the interval from there grants. */
  lemma AfterTheFirst(times: seq<Time>, from: Time, u: Unit, n: nat, after: Option<Limits>)
    requires 0 < from && InOrder(times, from, from + Width(u))
    requires Gives(Some(Limits(Window(0, 1), Window(0, 1))), times, n, after)
    ensures Monotone(0, [0] + times) && GrantsIn(None, [0] + times, from, from + Width(u)) == n
  {
    assert ([0] + times)[1..] == times;
    MonotoneFrom(0, from, times);
    AllInside(AfterTake(None, 0), times, from, from + Width(u));
  }

  lemma MonotoneFrom(earlier: Time, later: Time, times: seq<Time>)
    requires earlier <= later && Monotone(later, times)
    ensures Monotone(earlier, times)
  {}

  /** The minute's bound is met: 59 creates at the end of a minute that has seen one, and 60 when the next begins. */
  lemma HundredNineteenHappen() returns (times: seq<Time>, from: Time)
    ensures Monotone(0, times) && GrantsIn(None, times, from, from + Width(Minute)) == 2 * Cap(Minute) - 1
  {
    from := Width(Minute) - 1;
    var load := TwoMinutes(PER_MINUTE);
    times := [0] + load;
  }

  lemma TwoMinutes(quota: nat) returns (load: seq<Time>)
    requires quota == PER_MINUTE
    ensures Monotone(0, [0] + load)
    ensures GrantsIn(None, [0] + load, Width(Minute) - 1, 2 * Width(Minute) - 1) == 2 * Cap(Minute) - 1
  {
    var next := Width(Minute);
    load := AcrossMinutes(next, quota);
    TwoMinutesInOrder(next, quota);
    var after := TwoMinutesGive(Limits(Window(0, 1), Window(0, 1)), next, quota);
    AfterTheFirst(load, next - 1, Minute, 2 * quota - 1, after);
  }

  /** One create less than the quota just before a minute begins, and the whole quota when it does. */
  function AcrossMinutes(next: Time, quota: nat): seq<Time>
    requires quota > 0
  {
    Repeat(next - 1, quota - 1) + Repeat(next, quota)
  }

  lemma TwoMinutesInOrder(next: Time, quota: nat)
    requires quota > 0 && next > 1
    ensures InOrder(AcrossMinutes(next, quota), next - 1, 2 * next - 1)
  {
    RepeatOrdered(next - 1, quota - 1, next);
    RepeatOrdered(next, quota, 2 * next - 1);
    OrderedConcat(Repeat(next - 1, quota - 1), Repeat(next, quota), next - 1, next, 2 * next - 1);
  }

  lemma TwoMinutesGive(l: Limits, next: Time, quota: nat) returns (after: Option<Limits>)
    requires quota == PER_MINUTE && next == Width(Minute) && l == Limits(Window(0, 1), Window(0, 1))
    ensures Gives(Some(l), AcrossMinutes(next, quota), 2 * quota - 1, after)
  {
    var full := Limits(More(l.minute, quota - 1), More(l.hour, quota - 1));
    after := Some(Limits(Window(next, quota), More(full.hour, quota)));
    RepeatGives(l, next - 1, quota - 1);
    PartOfMinute(full, next, quota);
    GivesConcat(Some(l), Repeat(next - 1, quota - 1), quota - 1, Some(full), Repeat(next, quota), quota, after);
  }

  /**
    The hour's bound is met: a run of a key's requests, in order of time, of which one hour
    grants 1999.  The first create opens an hour at time 0; 999 fill it up later on, and the
    next hour, with its own thousand, opens as soon as it may.
   */
  lemma NineteenNinetyNineHappen() returns (times: seq<Time>, from: Time)
    ensures Monotone(0, times) && GrantsIn(None, times, from, from + Width(Hour)) == 2 * Cap(Hour) - 1
  {
    from := 2_000_000;
    var load := TwoHours(PER_MINUTE, 16, 39, 15, 40, from);
    times := [0] + load;
  }

  /** Both hours fit the minutes' caps: n full minutes and m more, and a full minute, n2 more and m2. */
  predicate FillHours(quota: nat, n: nat, m: nat, n2: nat, m2: nat) {
    && quota == PER_MINUTE && 0 < m <= PER_MINUTE && 0 < m2 <= PER_MINUTE
    && 1 + Times(n, quota) + m == PER_HOUR && quota + Times(n2, quota) + m2 == PER_HOUR
  }

  lemma TwoHours(quota: nat, n: nat, m: nat, n2: nat, m2: nat, from: Time) returns (load: seq<Time>)
    requires FillHours(quota, n, m, n2, m2) && Width(Minute) <= from
    requires MinutesOn(from, n + 1) <= Width(Hour) && MinutesOn(Width(Hour), n2 + 2) <= from + Width(Hour)
    ensures Monotone(0, [0] + load)
    ensures GrantsIn(None, [0] + load, from, from + Width(Hour)) == 2 * Cap(Hour) - 1
  {
    var next := FirstOfHour(quota, n2, m2, from);
    var l, full := Limits(Window(0, 1), Window(0, 1)), Limits(Window(MinutesOn(from, n), m), Window(0, PER_HOUR));
    load := Load(from, quota, n, m) + next;
    LoadGives(l, from, quota, n, m);
    LoadOrdered(from, quota, n, m);
    Widen(Load(from, quota, n, m), from, MinutesOn(from, n + 1), Width(Hour));
    OrderedConcat(Load(from, quota, n, m), next, from, Width(Hour), from + Width(Hour));
    var after := NextHourGives(full, quota, n2, m2, next);
    GivesConcat(Some(l), Load(from, quota, n, m), PER_HOUR - 1, Some(full), next, PER_HOUR, after);
    AfterTheFirst(load, from, Hour, 2 * PER_HOUR - 1, after);
  }

  function NextHour(quota: nat, n2: nat, m2: nat): seq<Time> {
    Repeat(Width(Hour), quota) + Load(MinutesOn(Width(Hour), 1), quota, n2, m2)
  }

  lemma FirstOfHour(quota: nat, n2: nat, m2: nat, from: Time) returns (next: seq<Time>)
    requires MinutesOn(Width(Hour), n2 + 2) <= from + Width(Hour)
    ensures next == NextHour(quota, n2, m2) && InOrder(next, Width(Hour), from + Width(Hour))
  {
    next := NextHour(quota, n2, m2);
    var second := MinutesOn(Width(Hour), 1);
    RepeatOrdered(Width(Hour), quota, second);
    LoadOrdered(second, quota, n2, m2);
    Widen(Load(second, quota, n2, m2), second, MinutesOn(second, n2 + 1), from + Width(Hour));
    OrderedConcat(Repeat(Width(Hour), quota), Load(second, quota, n2, m2), Width(Hour), second, from + Width(Hour));
  }

  lemma NextHourGives(l: Limits, quota: nat, n2: nat, m2: nat, next: seq<Time>) returns (after: Option<Limits>)
    requires quota == PER_MINUTE && 0 < m2 <= PER_MINUTE && quota + Times(n2, quota) + m2 == PER_HOUR
    requires Over(l.minute, Width(Hour), Minute) && Over(l.hour, Width(Hour), Hour)
    requires MinutesOn(Width(Hour), n2 + 2) <= 2 * Width(Hour)
    requires next == NextHour(quota, n2, m2)
    ensures Gives(Some(l), next, PER_HOUR, after)
  {
    var second, mid := MinutesOn(Width(Hour), 1), Limits(Window(Width(Hour), quota), Window(Width(Hour), quota));
    after := Some(Limits(Window(MinutesOn(second, n2), m2), Window(Width(Hour), PER_HOUR)));
    NewHour(l, Width(Hour), quota);
    LoadGives(mid, second, quota, n2, m2);
    GivesConcat(Some(l), Repeat(Width(Hour), quota), quota, Some(mid),
                Load(second, quota, n2, m2), Times(n2, quota) + m2, after);
  }

  // ------------------------------------------------------------ the advice to wait

  /** Whoever waits as long as advised is granted the next create. */
  lemma AdviceSuffices(l: Option<Limits>, clock: Time, now: Time, later: Time)
    requires Sane(l, clock) && clock <= now && TakeRate(l, now).Err?
    requires now + TakeRate(l, now).error * 1000 <= later
    ensures TakeRate(l, later).Ok?
  {}

  predicate Full(l: Limits, now: Time, u: Unit) { Counted(Of(l, u), now, u).count > Cap(u) }

  /** When only one window is full, the wait for that one is enough. */
  lemma FullWindowDecides(l: Option<Limits>, clock: Time, now: Time, later: Time, u: Unit)
    requires Sane(l, clock) && clock <= now && TakeRate(l, now).Err?
    requires !Full(l.value, now, if u == Minute then Hour else Minute)
    requires now + SecondsLeft(Of(l.value, u), now, u) * 1000 <= later
    ensures TakeRate(l, later).Ok?
  {}

  /** The wait for the full windows alone. */
  function NeededWait(l: Limits, now: Time): int {
    Max(if Full(l, now, Minute) then SecondsLeft(l.minute, now, Minute) else 0,
        if Full(l, now, Hour) then SecondsLeft(l.hour, now, Hour) else 0)
  }

  /** After k whole seconds a create is granted if and only if k covers the wait for every full window. */
  lemma NeededWaitIsExact(l: Option<Limits>, clock: Time, now: Time, k: nat)
    requires Sane(l, clock) && clock <= now && TakeRate(l, now).Err?
    ensures TakeRate(l, now + k * 1000).Ok? <==> k >= NeededWait(l.value, now)
  {}

  /** A window that is not full makes the advice longer than any full window needs. */
  predicate IdleWindowDelays(l: Limits, now: Time) {
    exists u: Unit :: !Full(l, now, u) && SecondsLeft(Of(l, u), now, u) > NeededWait(l, now)
  }

  /** The advice is the shortest wait if and only if no window that is not full delays it. */
  lemma AdviceIsExact(l: Option<Limits>, clock: Time, now: Time)
    requires Sane(l, clock) && clock <= now && TakeRate(l, now).Err?
    ensures TakeRate(l, now + (TakeRate(l, now).error - 1) * 1000).Err? <==> !IdleWindowDelays(l.value, now)
  {
    NeededWaitIsExact(l, clock, now, TakeRate(l, now).error - 1);
    assert !Full(l.value, now, Minute) && SecondsLeft(l.value.minute, now, Minute) > NeededWait(l.value, now)
           ==> IdleWindowDelays(l.value, now);
    assert !Full(l.value, now, Hour) && SecondsLeft(l.value.hour, now, Hour) > NeededWait(l.value, now)
           ==> IdleWindowDelays(l.value, now);
  }

  /** Sixty creates at time 0, one more a second later: the advice is 3599 seconds, and 59 are enough. */
  lemma AdviceIsTooLong()
    ensures TakeRate(Some(Limits(Window(0, 60), Window(0, 60))), 1000) == Err(3599)
    ensures TakeRate(Some(Limits(Window(0, 60), Window(0, 60))), 1000 + 59 * 1000).Ok?
    ensures IdleWindowDelays(Limits(Window(0, 60), Window(0, 60)), 1000)
  {
    var l := Limits(Window(0, 60), Window(0, 60));
    assert !Full(l, 1000, Hour) && SecondsLeft(Of(l, Hour), 1000, Hour) == 3599 && NeededWait(l, 1000) == 59;
  }

  /** Those sixty creates are granted. */
  lemma SixtyAtOnce()
    ensures Gives(None, Repeat(0, 60), 60, Some(Limits(Window(0, 60), Window(0, 60))))
  {
    AllAtOnce(PER_MINUTE);
  }

  lemma AllAtOnce(quota: nat)
    requires quota == PER_MINUTE
    ensures Gives(None, Repeat(0, quota), quota, Some(Limits(Window(0, quota), Window(0, quota))))
  {
    RepeatGives(Limits(Window(0, 1), Window(0, 1)), 0, quota - 1);
    RepeatFirst(None, 0, quota, Some(Limits(Window(0, quota), Window(0, quota))));
  }
}
