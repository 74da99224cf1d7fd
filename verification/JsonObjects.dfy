/**
  JSON values, and objects as JavaScript keeps them: array indices first, ascending, then the
  other keys in the order they were added.  Strings are sequences of UTF-16 code units, because
  JavaScript compares them so.
 */
module JsonObjects {
  import opened Wrappers
  import opened JsText

  datatype Json =
    | Null
    | Bool(b: bool)
    | Num(n: Number)
    | Str(s: Text)
    | Arr(items: Items)
    | Obj(fields: Fields)

  datatype Items = NoItems | Item(head: Json, tail: Items)

  datatype Fields = NoFields | Field(key: Text, value: Json, rest: Fields)

  // ------------------------------------------------------------ keys

  /** `a < b` on JavaScript strings. */
  predicate UnitLess(a: Text, b: Text)
    decreases |a|
  {
    if b == [] then false
    else if a == [] then true
    else a[0] < b[0] || (a[0] == b[0] && UnitLess(a[1..], b[1..]))
  }

  const ZERO: CodeUnit := 48
  const NINE: CodeUnit := 57

  predicate Digits(t: Text) { forall i :: 0 <= i < |t| ==> ZERO <= t[i] <= NINE }

  function Value(t: Text): int
    decreases |t|
  {
    if t == [] then 0 else Value(t[..|t| - 1]) * 10 + (t[|t| - 1] as int - 48)
  }

  newtype NonzeroDigit = x: int | 1 <= x < 10 witness 1

  /**
    A finite JavaScript number as Number::toString (section 6.1.6.1.20 of ECMA-262) sees it: the
    shortest row of digits that stands for it, which does not end in 0, and where among them the
    decimal point lies.  Both zeros are one.
   */
  datatype Number = Zero | Decimal(negative: bool, front: nat, last: NonzeroDigit, point: int)

  const MAX_INDEX: int := 0xFFFF_FFFE

  /** A canonical numeral below 2^32 - 1: such keys come first, in numeric order. */
  predicate IsIndex(t: Text) {
    0 < |t| <= 10 && Digits(t) && (t[0] == ZERO ==> |t| == 1) && Value(t) <= MAX_INDEX
  }

  /** The order of the keys in a canonical object. */
  predicate KeyBefore(a: Text, b: Text) {
    if IsIndex(a) && IsIndex(b) then Value(a) < Value(b)
    else if IsIndex(a) || IsIndex(b) then IsIndex(a)
    else UnitLess(a, b)
  }

  lemma {:induction false} UnitLessIsTotal(a: Text, b: Text)
    ensures a != b ==> UnitLess(a, b) != UnitLess(b, a)
    ensures a == b ==> !UnitLess(a, b)
    decreases |a|
  {
    if a != [] && b != [] {
      assert a == [a[0]] + a[1..] && b == [b[0]] + b[1..];
      UnitLessIsTotal(a[1..], b[1..]);
    }
  }

  lemma {:induction false} UnitLessIsTransitive(a: Text, b: Text, c: Text)
    requires UnitLess(a, b) && UnitLess(b, c)
    ensures UnitLess(a, c)
    decreases |a|
  {
    if a != [] && a[0] == b[0] && b[0] == c[0] {
      UnitLessIsTransitive(a[1..], b[1..], c[1..]);
    }
  }

  lemma {:induction false} ValueBounds(t: Text)
    requires Digits(t) && t != []
    ensures Value(t) < Pow10(|t|)
    ensures t[0] != ZERO ==> Pow10(|t| - 1) <= Value(t)
    decreases |t|
  {
    if |t| > 1 {
      ValueBounds(t[..|t| - 1]);
    }
  }

  function Pow10(n: nat): (r: int)
    ensures r > 0
  {
    if n == 0 then 1 else 10 * Pow10(n - 1)
  }

  lemma {:induction false} Pow10Grows(m: nat, n: nat)
    requires m <= n
    ensures Pow10(m) <= Pow10(n)
    decreases n - m
  {
    if m < n {
      Pow10Grows(m + 1, n);
    }
  }

  /** Two canonical numerals of the same value are the same text. */
  lemma {:induction false} ValueIsInjective(a: Text, b: Text)
    requires Digits(a) && Digits(b) && |a| == |b| && Value(a) == Value(b)
    ensures a == b
    decreases |a|
  {
    if a != [] {
      var x, y := a[..|a| - 1], b[..|b| - 1];
      assert Value(x) * 10 + (a[|a| - 1] as int - 48) == Value(y) * 10 + (b[|b| - 1] as int - 48);
      assert Value(x) == Value(y);
      ValueIsInjective(x, y);
      assert a == x + [a[|a| - 1]] && b == y + [b[|b| - 1]];
    }
  }

  lemma ShorterIsSmaller(a: Text, b: Text)
    requires IsIndex(a) && IsIndex(b) && |a| < |b|
    ensures Value(a) < Value(b)
  {
    ValueBounds(a);
    ValueBounds(b);
    Pow10Grows(|a|, |b| - 1);
  }

  lemma IndexIsInjective(a: Text, b: Text)
    requires IsIndex(a) && IsIndex(b) && Value(a) == Value(b)
    ensures a == b
  {
    if |a| < |b| {
      ShorterIsSmaller(a, b);
    } else if |b| < |a| {
      ShorterIsSmaller(b, a);
    } else {
      ValueIsInjective(a, b);
    }
  }

  lemma KeyBeforeIsTotal(a: Text, b: Text)
    ensures a != b ==> KeyBefore(a, b) != KeyBefore(b, a)
    ensures a == b ==> !KeyBefore(a, b)
  {
    UnitLessIsTotal(a, b);
    if IsIndex(a) && IsIndex(b) && Value(a) == Value(b) {
      IndexIsInjective(a, b);
    }
  }

  lemma KeyBeforeIsTransitive(a: Text, b: Text, c: Text)
    requires KeyBefore(a, b) && KeyBefore(b, c)
    ensures KeyBefore(a, c)
  {
    if !IsIndex(a) && !IsIndex(b) && !IsIndex(c) {
      UnitLessIsTransitive(a, b, c);
    }
  }

  // ------------------------------------------------------------ objects

  function Lookup(fs: Fields, k: Text): Option<Json> {
    match fs
    case NoFields => None
    case Field(key, value, rest) => if key == k then Some(value) else Lookup(rest, k)
  }

  predicate Has(fs: Fields, k: Text) { Lookup(fs, k).Some? }

  /** Adding a property to an object: the place of a new key is JavaScript's, an old key keeps its place. */
  function Put(fs: Fields, k: Text, v: Json): Fields {
    match fs
    case NoFields => Field(k, v, NoFields)
    case Field(key, value, rest) =>
      if key == k then Field(k, v, rest)
      else if IsIndex(k) && KeyBefore(k, key) && !Has(rest, k) then Field(k, v, fs)
      else Field(key, value, Put(rest, k, v))
  }

  function FromEntriesOnto(o: Fields, entries: Fields): Fields
    decreases entries
  {
    match entries
    case NoFields => o
    case Field(k, v, rest) => FromEntriesOnto(Put(o, k, v), rest)
  }

  /** Object.fromEntries. */
  function FromEntries(entries: Fields): Fields { FromEntriesOnto(NoFields, entries) }

  function InsertByUnits(k: Text, v: Json, fs: Fields): Fields {
    match fs
    case NoFields => Field(k, v, NoFields)
    case Field(key, value, rest) =>
      if UnitLess(key, k) then Field(key, value, InsertByUnits(k, v, rest)) else Field(k, v, fs)
  }

  /** The entries sorted with the comparator of canonicalize. */
  function SortByUnits(fs: Fields): Fields {
    match fs
    case NoFields => NoFields
    case Field(k, v, rest) => InsertByUnits(k, v, SortByUnits(rest))
  }

  predicate Distinct(fs: Fields) {
    match fs
    case NoFields => true
    case Field(k, _, rest) => !Has(rest, k) && Distinct(rest)
  }

  // ------------------------------------------------------------ sorted objects

  predicate AllAfter(k: Text, fs: Fields) {
    match fs
    case NoFields => true
    case Field(key, _, rest) => KeyBefore(k, key) && AllAfter(k, rest)
  }

  /** The keys stand in canonical order. */
  predicate Sorted(fs: Fields) {
    match fs
    case NoFields => true
    case Field(k, _, rest) => AllAfter(k, rest) && Sorted(rest)
  }

  predicate UnitsAfter(k: Text, fs: Fields) {
    match fs
    case NoFields => true
    case Field(key, _, rest) => UnitLess(k, key) && UnitsAfter(k, rest)
  }

  predicate UnitSorted(fs: Fields) {
    match fs
    case NoFields => true
    case Field(k, _, rest) => UnitsAfter(k, rest) && UnitSorted(rest)
  }

  lemma {:induction false} AllAfterHas(k: Text, fs: Fields, x: Text)
    requires AllAfter(k, fs) && Has(fs, x)
    ensures KeyBefore(k, x)
  {
    if fs.key != x {
      AllAfterHas(k, fs.rest, x);
    }
  }

  lemma {:induction false} AllAfterTransitive(j: Text, k: Text, fs: Fields)
    requires KeyBefore(j, k) && AllAfter(k, fs)
    ensures AllAfter(j, fs)
  {
    if fs.Field? {
      KeyBeforeIsTransitive(j, k, fs.key);
      AllAfterTransitive(j, k, fs.rest);
    }
  }

  ghost predicate SameLookups(fs: Fields, gs: Fields) { forall k :: Lookup(fs, k) == Lookup(gs, k) }

  lemma SortedHead(fs: Fields, k: Text)
    requires Sorted(fs) && fs.Field? && Has(fs, k) && k != fs.key
    ensures KeyBefore(fs.key, k)
  {
    AllAfterHas(fs.key, fs.rest, k);
  }

  lemma SortedHeadIsNew(fs: Fields)
    requires Sorted(fs) && fs.Field?
    ensures !Has(fs.rest, fs.key)
  {
    if Has(fs.rest, fs.key) {
      AllAfterHas(fs.key, fs.rest, fs.key);
      KeyBeforeIsTotal(fs.key, fs.key);
    }
  }

  lemma HeadHas(fs: Fields)
    requires fs.Field?
    ensures Has(fs, fs.key)
  {}

  /** A canonical object is determined by what its keys map to. */
  lemma {:induction false} SortedIsUnique(fs: Fields, gs: Fields)
    requires Sorted(fs) && Sorted(gs) && SameLookups(fs, gs)
    ensures fs == gs
    decreases fs
  {
    match fs
    case NoFields =>
      if gs.Field? { HeadHas(gs); }
    case Field(k, v, rest) =>
      assert Lookup(fs, k) == Lookup(gs, k);
      assert Lookup(fs, gs.key) == Lookup(gs, gs.key);
      if gs.key != k {
        SortedHead(fs, gs.key);
        SortedHead(gs, k);
        KeyBeforeIsTotal(k, gs.key);
      }
      SortedHeadIsNew(fs);
      SortedHeadIsNew(gs);
      forall x
        ensures Lookup(rest, x) == Lookup(gs.rest, x)
      {
        assert Lookup(fs, x) == Lookup(gs, x);
      }
      SortedIsUnique(rest, gs.rest);
  }

  // ------------------------------------------------------------ sorting and rebuilding keep the mapping

  lemma {:induction false} InsertLookup(k: Text, v: Json, fs: Fields, x: Text)
    requires !Has(fs, k)
    ensures Lookup(InsertByUnits(k, v, fs), x) == if x == k then Some(v) else Lookup(fs, x)
  {
    if fs.Field? {
      InsertLookup(k, v, fs.rest, x);
    }
  }

  lemma {:induction false} SortLookup(fs: Fields, x: Text)
    requires Distinct(fs)
    ensures Lookup(SortByUnits(fs), x) == Lookup(fs, x)
  {
    if fs.Field? {
      SortLookup(fs.rest, x);
      SortLookup(fs.rest, fs.key);
      InsertLookup(fs.key, fs.value, SortByUnits(fs.rest), x);
    }
  }

  lemma {:induction false} UnitsAfterInsert(j: Text, k: Text, v: Json, fs: Fields)
    requires UnitsAfter(j, fs) && UnitLess(j, k)
    ensures UnitsAfter(j, InsertByUnits(k, v, fs))
  {
    if fs.Field? {
      UnitsAfterInsert(j, k, v, fs.rest);
    }
  }

  lemma {:induction false} UnitsAfterTransitive(j: Text, k: Text, fs: Fields)
    requires UnitLess(j, k) && UnitsAfter(k, fs)
    ensures UnitsAfter(j, fs)
  {
    if fs.Field? {
      UnitLessIsTransitive(j, k, fs.key);
      UnitsAfterTransitive(j, k, fs.rest);
    }
  }

  lemma {:induction false} InsertSorts(k: Text, v: Json, fs: Fields)
    requires UnitSorted(fs) && !Has(fs, k)
    ensures UnitSorted(InsertByUnits(k, v, fs))
  {
    if fs.Field? {
      UnitLessIsTotal(fs.key, k);
      if UnitLess(fs.key, k) {
        InsertSorts(k, v, fs.rest);
        UnitsAfterInsert(fs.key, k, v, fs.rest);
      } else {
        UnitsAfterTransitive(k, fs.key, fs.rest);
      }
    }
  }

  lemma {:induction false} SortSorts(fs: Fields)
    requires Distinct(fs)
    ensures UnitSorted(SortByUnits(fs))
  {
    if fs.Field? {
      SortSorts(fs.rest);
      SortLookup(fs.rest, fs.key);
      InsertSorts(fs.key, fs.value, SortByUnits(fs.rest));
    }
  }

  lemma {:induction false} PutLookup(fs: Fields, k: Text, v: Json, x: Text)
    ensures Lookup(Put(fs, k, v), x) == if x == k then Some(v) else Lookup(fs, x)
  {
    if fs.Field? {
      PutLookup(fs.rest, k, v, x);
    }
  }

  /** Every key that is no index stands before k in unit order. */
  predicate NamesBefore(fs: Fields, k: Text) {
    match fs
    case NoFields => true
    case Field(key, _, rest) => (!IsIndex(key) ==> UnitLess(key, k)) && NamesBefore(rest, k)
  }

  lemma {:induction false} AllAfterPut(j: Text, fs: Fields, k: Text, v: Json)
    requires AllAfter(j, fs) && KeyBefore(j, k)
    ensures AllAfter(j, Put(fs, k, v))
  {
    if fs.Field? {
      AllAfterPut(j, fs.rest, k, v);
    }
  }

  /** A new index finds its place among the indices, a new name goes last. */
  lemma {:induction false} PutKeepsSorted(fs: Fields, k: Text, v: Json)
    requires Sorted(fs) && !Has(fs, k) && NamesBefore(fs, k)
    ensures Sorted(Put(fs, k, v))
  {
    if fs.Field? {
      KeyBeforeIsTotal(k, fs.key);
      if IsIndex(k) && KeyBefore(k, fs.key) {
        AllAfterTransitive(k, fs.key, fs.rest);
      } else {
        PutKeepsSorted(fs.rest, k, v);
        AllAfterPut(fs.key, fs.rest, k, v);
      }
    }
  }

  lemma {:induction false} NamesBeforePut(fs: Fields, k: Text, v: Json, j: Text)
    requires NamesBefore(fs, k) && UnitLess(k, j)
    ensures NamesBefore(Put(fs, k, v), j)
  {
    if fs.Field? {
      if !IsIndex(fs.key) { UnitLessIsTransitive(fs.key, k, j); }
      NamesBeforeTransitive(fs.rest, k, j);
      NamesBeforePut(fs.rest, k, v, j);
    }
  }

  lemma {:induction false} NamesBeforeTransitive(fs: Fields, k: Text, j: Text)
    requires NamesBefore(fs, k) && UnitLess(k, j)
    ensures NamesBefore(fs, j)
  {
    if fs.Field? {
      if !IsIndex(fs.key) { UnitLessIsTransitive(fs.key, k, j); }
      NamesBeforeTransitive(fs.rest, k, j);
    }
  }

  lemma {:induction false} UnitsAfterHas(k: Text, fs: Fields, x: Text)
    requires UnitsAfter(k, fs) && Has(fs, x)
    ensures UnitLess(k, x)
  {
    if fs.key != x {
      UnitsAfterHas(k, fs.rest, x);
    }
  }

  lemma UnitHeadIsNew(entries: Fields)
    requires UnitSorted(entries) && entries.Field?
    ensures !Has(entries.rest, entries.key)
  {
    if Has(entries.rest, entries.key) {
      UnitsAfterHas(entries.key, entries.rest, entries.key);
      UnitLessIsTotal(entries.key, entries.key);
    }
  }

  ghost predicate Apart(o: Fields, entries: Fields) { forall x :: !(Has(o, x) && Has(entries, x)) }

  lemma {:induction false} RebuildSorts(o: Fields, entries: Fields)
    requires Sorted(o) && UnitSorted(entries) && Apart(o, entries)
    requires entries.Field? ==> NamesBefore(o, entries.key)
    ensures Sorted(FromEntriesOnto(o, entries))
    decreases entries
  {
    if entries.Field? {
      var k, v := entries.key, entries.value;
      assert Has(entries, k);
      PutKeepsSorted(o, k, v);
      UnitHeadIsNew(entries);
      forall x
        ensures !(Has(Put(o, k, v), x) && Has(entries.rest, x))
      {
        PutLookup(o, k, v, x);
        assert !(Has(o, x) && Has(entries, x));
      }
      if entries.rest.Field? { NamesBeforePut(o, k, v, entries.rest.key); }
      RebuildSorts(Put(o, k, v), entries.rest);
    }
  }

  lemma {:induction false} RebuildLookup(o: Fields, entries: Fields, x: Text)
    requires Distinct(entries)
    ensures Lookup(FromEntriesOnto(o, entries), x) == if Has(entries, x) then Lookup(entries, x) else Lookup(o, x)
    decreases entries
  {
    if entries.Field? {
      PutLookup(o, entries.key, entries.value, x);
      RebuildLookup(Put(o, entries.key, entries.value), entries.rest, x);
    }
  }

  lemma {:induction false} UnitSortedIsDistinct(fs: Fields)
    requires UnitSorted(fs)
    ensures Distinct(fs)
  {
    if fs.Field? {
      UnitHeadIsNew(fs);
      UnitSortedIsDistinct(fs.rest);
    }
  }

  function Tidy(fs: Fields): Fields { FromEntries(SortByUnits(fs)) }

  lemma {:induction false} TidyMeaning(fs: Fields)
    requires Distinct(fs)
    ensures Sorted(Tidy(fs)) && SameLookups(Tidy(fs), fs)
  {
    SortSorts(fs);
    UnitSortedIsDistinct(SortByUnits(fs));
    RebuildSorts(NoFields, SortByUnits(fs));
    forall x
      ensures Lookup(Tidy(fs), x) == Lookup(fs, x)
    {
      RebuildLookup(NoFields, SortByUnits(fs), x);
      SortLookup(fs, x);
    }
  }
}
