/**
  The canonical form behind idempotency fingerprints: a JSON value with the keys of every
  object sorted, at every depth.
 */
module Canonical {
  import opened Wrappers
  import opened JsText
  import opened JsonObjects

  /** canonicalize.  Sorting only looks at keys, so it may come after the children are canonical. */
  function Canon(v: Json): Json {
    match v
    case Arr(items) => Arr(CanonItems(items))
    case Obj(fields) => Obj(FromEntries(SortByUnits(CanonFields(fields))))
    case _ => v
  }

  function CanonItems(items: Items): Items {
    match items
    case NoItems => NoItems
    case Item(head, tail) => Item(Canon(head), CanonItems(tail))
  }

  function CanonFields(fs: Fields): Fields {
    match fs
    case NoFields => NoFields
    case Field(k, v, rest) => Field(k, Canon(v), CanonFields(rest))
  }

  // ------------------------------------------------------------ the same value

  /** The two values differ at most in the order of the keys of objects, at any depth. */
  predicate Same(a: Json, b: Json)
    decreases a
  {
    match a
    case Arr(xs) => b.Arr? && SameItems(xs, b.items)
    case Obj(fs) => b.Obj? && SameFields(fs, b.fields) && NoMore(b.fields, fs)
    case _ => a == b
  }

  predicate SameItems(xs: Items, ys: Items)
    decreases xs
  {
    match xs
    case NoItems => ys == NoItems
    case Item(x, rest) => ys.Item? && Same(x, ys.head) && SameItems(rest, ys.tail)
  }

  /** Every field of the first has its counterpart in the second. */
  predicate SameFields(fs: Fields, gs: Fields)
    decreases fs
  {
    match fs
    case NoFields => true
    case Field(k, v, rest) => Lookup(gs, k).Some? && Same(v, Lookup(gs, k).value) && SameFields(rest, gs)
  }

  predicate NoMore(gs: Fields, fs: Fields) {
    match gs
    case NoFields => true
    case Field(k, _, rest) => Has(fs, k) && NoMore(rest, fs)
  }

  /** No object has a key twice, as in any JavaScript value. */
  predicate Proper(v: Json) {
    match v
    case Arr(items) => ProperItems(items)
    case Obj(fields) => ProperFields(fields)
    case _ => true
  }

  predicate ProperItems(items: Items) {
    match items
    case NoItems => true
    case Item(head, tail) => Proper(head) && ProperItems(tail)
  }

  predicate ProperFields(fs: Fields) {
    match fs
    case NoFields => true
    case Field(k, v, rest) => !Has(rest, k) && Proper(v) && ProperFields(rest)
  }

  // ------------------------------------------------------------ canonical forms

  lemma {:induction false} CanonFieldsLookup(fs: Fields, x: Text)
    ensures Lookup(CanonFields(fs), x) == if Has(fs, x) then Some(Canon(Lookup(fs, x).value)) else None
  {
    if fs.Field? {
      CanonFieldsLookup(fs.rest, x);
    }
  }

  lemma {:induction false} CanonFieldsDistinct(fs: Fields)
    requires ProperFields(fs)
    ensures Distinct(CanonFields(fs))
  {
    if fs.Field? {
      CanonFieldsLookup(fs.rest, fs.key);
      CanonFieldsDistinct(fs.rest);
    }
  }

  lemma {:induction false} ProperLookup(fs: Fields, x: Text)
    requires ProperFields(fs) && Has(fs, x)
    ensures Proper(Lookup(fs, x).value)
  {
    if fs.key != x {
      ProperLookup(fs.rest, x);
    }
  }

  /** What a canonical object maps its keys to, and that its order is fixed. */
  lemma {:induction false} CanonObject(fs: Fields)
    requires ProperFields(fs)
    ensures Sorted(Canon(Obj(fs)).fields) && SameLookups(Canon(Obj(fs)).fields, CanonFields(fs))
  {
    CanonFieldsDistinct(fs);
    TidyMeaning(CanonFields(fs));
  }

  lemma {:induction false} NoMoreMeaning(gs: Fields, fs: Fields)
    ensures NoMore(gs, fs) <==> forall x :: Has(gs, x) ==> Has(fs, x)
  {
    if gs.Field? {
      NoMoreMeaning(gs.rest, fs);
      if NoMore(gs, fs) {
        forall x | Has(gs, x)
          ensures Has(fs, x)
        {
        }
      } else if Has(fs, gs.key) {
        var x :| Has(gs.rest, x) && !Has(fs, x);
        assert Has(gs, x);
      } else {
        assert Has(gs, gs.key);
      }
    }
  }

  /** Canonical forms are equal exactly when the values are the same up to key order, at every depth. */
  lemma {:induction false} CanonDecidesSame(a: Json, b: Json)
    requires Proper(a) && Proper(b)
    ensures Canon(a) == Canon(b) <==> Same(a, b)
    decreases a, 0
  {
    match a
    case Arr(xs) => if b.Arr? { ItemsDecideSame(xs, b.items); }
    case Obj(fs) => if b.Obj? { ObjectsDecideSame(fs, b.fields); }
    case _ =>
  }

  lemma {:induction false} ItemsDecideSame(xs: Items, ys: Items)
    requires ProperItems(xs) && ProperItems(ys)
    ensures CanonItems(xs) == CanonItems(ys) <==> SameItems(xs, ys)
    decreases xs, 0
  {
    if xs.Item? && ys.Item? {
      CanonDecidesSame(xs.head, ys.head);
      ItemsDecideSame(xs.tail, ys.tail);
    }
  }

  lemma {:induction false} ObjectsDecideSame(fs: Fields, gs: Fields)
    requires ProperFields(fs) && ProperFields(gs)
    ensures Canon(Obj(fs)) == Canon(Obj(gs)) <==> SameFields(fs, gs) && NoMore(gs, fs)
    decreases fs, 1
  {
    CanonObject(fs);
    CanonObject(gs);
    NoMoreMeaning(gs, fs);
    FieldsDecideSame(fs, gs);
    if SameFields(fs, gs) && NoMore(gs, fs) {
      forall x
        ensures Lookup(CanonFields(fs), x) == Lookup(CanonFields(gs), x)
      {
        CanonFieldsLookup(fs, x);
        CanonFieldsLookup(gs, x);
      }
      SortedIsUnique(Canon(Obj(fs)).fields, Canon(Obj(gs)).fields);
    }
    if Canon(Obj(fs)) == Canon(Obj(gs)) {
      forall x
        ensures Lookup(CanonFields(fs), x) == Lookup(CanonFields(gs), x) && Has(fs, x) == Has(gs, x)
      {
        assert Lookup(Canon(Obj(fs)).fields, x) == Lookup(CanonFields(fs), x);
        CanonFieldsLookup(fs, x);
        CanonFieldsLookup(gs, x);
      }
    }
  }

  ghost predicate Agree(fs: Fields, gs: Fields, x: Text) {
    Has(gs, x) && Lookup(CanonFields(fs), x) == Lookup(CanonFields(gs), x)
  }

  /** Field by field: the second object has the same canonical value under every key of the first. */
  lemma {:induction false} FieldsDecideSame(fs: Fields, gs: Fields)
    requires ProperFields(fs) && ProperFields(gs)
    ensures SameFields(fs, gs) <==> forall x :: Has(fs, x) ==> Agree(fs, gs, x)
    decreases fs, 0
  {
    if fs.Field? {
      FieldsDecideSame(fs.rest, gs);
      CanonFieldsLookup(gs, fs.key);
      if Has(gs, fs.key) {
        ProperLookup(gs, fs.key);
        CanonDecidesSame(fs.value, Lookup(gs, fs.key).value);
      }
      CanonFieldsLookup(fs.rest, fs.key);
      forall x
        ensures x != fs.key ==> (Agree(fs.rest, gs, x) <==> Agree(fs, gs, x))
      {
      }
      assert Has(fs, fs.key);
      assert Agree(fs, gs, fs.key) <==> Has(gs, fs.key) && Same(fs.value, Lookup(gs, fs.key).value);
      assert forall x :: x != fs.key ==> (Has(fs, x) <==> Has(fs.rest, x));
    }
  }

  // ------------------------------------------------------------ idempotence

  lemma {:induction false} CanonIsProper(v: Json)
    requires Proper(v)
    ensures Proper(Canon(v))
    decreases v, 0
  {
    match v
    case Arr(items) => CanonItemsProper(items);
    case Obj(fs) =>
      CanonObject(fs);
      forall x | Has(Canon(v).fields, x)
        ensures Proper(Lookup(Canon(v).fields, x).value)
      {
        assert Lookup(Canon(v).fields, x) == Lookup(CanonFields(fs), x);
        CanonFieldsLookup(fs, x);
        CanonValueProper(fs, x);
      }
      SortedIsProper(Canon(v).fields);
    case _ =>
  }

  lemma {:induction false} CanonItemsProper(items: Items)
    requires ProperItems(items)
    ensures ProperItems(CanonItems(items))
    decreases items, 0
  {
    if items.Item? {
      CanonIsProper(items.head);
      CanonItemsProper(items.tail);
    }
  }

  lemma {:induction false} CanonValueProper(fs: Fields, x: Text)
    requires ProperFields(fs) && Has(fs, x)
    ensures Proper(Canon(Lookup(fs, x).value))
    decreases fs, 0
  {
    if fs.key == x { CanonIsProper(fs.value); } else { CanonValueProper(fs.rest, x); }
  }

  lemma {:induction false} SortedIsProper(fs: Fields)
    requires Sorted(fs) && forall x :: Has(fs, x) ==> Proper(Lookup(fs, x).value)
    ensures ProperFields(fs)
  {
    if fs.Field? {
      SortedHeadIsNew(fs);
      assert Has(fs, fs.key);
      forall x | Has(fs.rest, x)
        ensures Proper(Lookup(fs.rest, x).value)
      {
        assert Has(fs, x);
      }
      SortedIsProper(fs.rest);
    }
  }

  /** A value is the same as its canonical form. */
  lemma {:induction false} SameAsCanon(v: Json)
    requires Proper(v)
    ensures Same(v, Canon(v))
    decreases v, 0
  {
    match v
    case Arr(items) => SameAsCanonItems(items);
    case Obj(fs) =>
      CanonObject(fs);
      forall x
        ensures Lookup(Canon(v).fields, x) == if Has(fs, x) then Some(Canon(Lookup(fs, x).value)) else None
      {
        assert Lookup(Canon(v).fields, x) == Lookup(CanonFields(fs), x);
        CanonFieldsLookup(fs, x);
      }
      SameAsCanonFields(fs, fs, Canon(v).fields);
      NoMoreMeaning(Canon(v).fields, fs);
    case _ =>
  }

  lemma {:induction false} SameAsCanonItems(items: Items)
    requires ProperItems(items)
    ensures SameItems(items, CanonItems(items))
    decreases items, 0
  {
    if items.Item? {
      SameAsCanon(items.head);
      SameAsCanonItems(items.tail);
    }
  }

  lemma {:induction false} SameAsCanonFields(fs: Fields, all: Fields, gs: Fields)
    requires ProperFields(fs)
    requires forall x :: Has(fs, x) ==> Has(all, x) && Lookup(all, x) == Lookup(fs, x)
    requires forall x :: Has(all, x) ==> Lookup(gs, x) == Some(Canon(Lookup(all, x).value))
    ensures SameFields(fs, gs)
    decreases fs, 0
  {
    if fs.Field? {
      assert Has(fs, fs.key);
      SameAsCanon(fs.value);
      forall x | Has(fs.rest, x)
        ensures Has(all, x) && Lookup(all, x) == Lookup(fs.rest, x)
      {
        assert Has(fs, x);
      }
      SameAsCanonFields(fs.rest, all, gs);
    }
  }

  lemma {:induction false} CanonIsIdempotent(v: Json)
    requires Proper(v)
    ensures Canon(Canon(v)) == Canon(v)
  {
    CanonIsProper(v);
    SameAsCanon(v);
    CanonDecidesSame(v, Canon(v));
  }
}
