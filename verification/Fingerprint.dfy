/**
  The fingerprint that decides whether a repeated create is the same request: the JSON text of
  the printer, the document type, the destination and the canonical payload.
 */
module Fingerprint {
  import opened Wrappers
  import opened JsText
  import opened JsonObjects
  import opened Canonical
  import opened NumberTexts

  // ------------------------------------------------------------ JSON.stringify

  const QUOTE: CodeUnit := 34
  const BACKSLASH: CodeUnit := 92
  const COMMA: CodeUnit := 44
  const COLON: CodeUnit := 58

  predicate High(u: CodeUnit) { 0xD800 <= u < 0xDC00 }
  predicate Low(u: CodeUnit) { 0xDC00 <= u < 0xE000 }

  /** Half of a surrogate pair without its other half. */
  predicate Lone(s: Text, i: nat)
    requires i < |s|
  {
    || (High(s[i]) && !(i + 1 < |s| && Low(s[i + 1])))
    || (Low(s[i]) && !(0 < i && High(s[i - 1])))
  }

  /** The letter of a two-character escape. */
  function Letter(u: CodeUnit): Option<CodeUnit> {
    if u == QUOTE || u == BACKSLASH then Some(u)
    else if u == 8 then Some(98)
    else if u == 9 then Some(116)
    else if u == 10 then Some(110)
    else if u == 12 then Some(102)
    else if u == 13 then Some(114)
    else None
  }

  function Hex(d: int): CodeUnit
    requires 0 <= d < 16
  {
    if d < 10 then (48 + d) as CodeUnit else (87 + d) as CodeUnit
  }

  // Every function below is given the text that follows, so that texts are built front to back.

  function HexEscape(u: CodeUnit, rest: Text): Text {
    [BACKSLASH, 117, Hex(u as int / 4096), Hex(u as int / 256 % 16), Hex(u as int / 16 % 16), Hex(u as int % 16)] + rest
  }

  function UnitText(s: Text, i: nat, rest: Text): Text
    requires i < |s|
  {
    if Letter(s[i]).Some? then [BACKSLASH, Letter(s[i]).value] + rest
    else if s[i] < 32 || Lone(s, i) then HexEscape(s[i], rest)
    else [s[i]] + rest
  }

  function UnitsText(s: Text, i: nat, rest: Text): Text
    requires i <= |s|
    decreases |s| - i
  {
    if i == |s| then [QUOTE] + rest else UnitText(s, i, UnitsText(s, i + 1, rest))
  }

  function StringText(s: Text, rest: Text): Text { [QUOTE] + UnitsText(s, 0, rest) }

  /** JSON.stringify of v, followed by rest. */
  function JsonText(v: Json, rest: Text): Text
    decreases v
  {
    match v
    case Null => [110, 117, 108, 108] + rest
    case Bool(b) => if b then [116, 114, 117, 101] + rest else [102, 97, 108, 115, 101] + rest
    case Num(n) => NumberText(n, rest)
    case Str(s) => StringText(s, rest)
    case Arr(items) =>
      [91] + (if items.NoItems? then [93] + rest else JsonText(items.head, MoreItems(items.tail, rest)))
    case Obj(fields) => [123] + (if fields.NoFields? then [125] + rest else FieldText(fields, rest))
  }

  function MoreItems(items: Items, rest: Text): Text
    decreases items
  {
    if items.NoItems? then [93] + rest else [COMMA] + JsonText(items.head, MoreItems(items.tail, rest))
  }

  function FieldText(fs: Fields, rest: Text): Text
    requires fs.Field?
    decreases fs, 0
  {
    StringText(fs.key, [COLON] + JsonText(fs.value, MoreFields(fs.rest, rest)))
  }

  function MoreFields(fs: Fields, rest: Text): Text
    decreases fs, 1
  {
    if fs.NoFields? then [125] + rest else [COMMA] + FieldText(fs, rest)
  }

  function Stringify(v: Json): Text { JsonText(v, []) }

  // ------------------------------------------------------------ no two values share a text

  lemma HexIsInjective(u: CodeUnit, r: Text, v: CodeUnit, q: Text)
    requires HexEscape(u, r) == HexEscape(v, q)
    ensures u == v && r == q
  {
    var a, b := HexEscape(u, r), HexEscape(v, q);
    assert a[6..] == r && b[6..] == q;
    assert a[2] == b[2] && a[3] == b[3] && a[4] == b[4] && a[5] == b[5];
    FourDigits(u as int);
    FourDigits(v as int);
  }

  lemma FourDigits(n: int)
    requires 0 <= n < 0x1_0000
    ensures n == ((n / 4096 * 16 + n / 256 % 16) * 16 + n / 16 % 16) * 16 + n % 16
  {}

  lemma UnitIsUnique(s: Text, i: nat, r: Text, t: Text, j: nat, q: Text)
    requires i < |s| && j < |t| && UnitText(s, i, r) == UnitText(t, j, q)
    ensures s[i] == t[j] && r == q
  {
    var a, b := UnitText(s, i, r), UnitText(t, j, q);
    assert a[0] == b[0];
    if a[0] == BACKSLASH {
      assert a[1] == b[1];
      if Letter(s[i]).Some? {
        assert Letter(t[j]).Some? && a[2..] == r && b[2..] == q;
      } else {
        HexIsInjective(s[i], r, t[j], q);
      }
    } else {
      Cons(s[i], r, t[j], q);
    }
  }

  lemma UnitIsNoQuote(s: Text, i: nat, r: Text)
    requires i < |s|
    ensures UnitText(s, i, r)[0] != QUOTE
  {}

  lemma {:induction false} UnitsAreUnique(s: Text, i: nat, r: Text, t: Text, j: nat, q: Text)
    requires i <= |s| && j <= |t| && UnitsText(s, i, r) == UnitsText(t, j, q)
    ensures s[i..] == t[j..] && r == q
    decreases |s| - i
  {
    if i == |s| {
      if j < |t| { UnitIsNoQuote(t, j, UnitsText(t, j + 1, q)); }
      Cons(QUOTE, r, QUOTE, q);
    } else if j == |t| {
      UnitIsNoQuote(s, i, UnitsText(s, i + 1, r));
    } else {
      UnitIsUnique(s, i, UnitsText(s, i + 1, r), t, j, UnitsText(t, j + 1, q));
      UnitsAreUnique(s, i + 1, r, t, j + 1, q);
      assert s[i..] == [s[i]] + s[i + 1..] && t[j..] == [t[j]] + t[j + 1..];
    }
  }

  lemma StringIsUnique(s: Text, r: Text, t: Text, q: Text)
    requires StringText(s, r) == StringText(t, q)
    ensures s == t && r == q
  {
    Cons(QUOTE, UnitsText(s, 0, r), QUOTE, UnitsText(t, 0, q));
    UnitsAreUnique(s, 0, r, t, 0, q);
    assert s[0..] == s && t[0..] == t;
  }

  datatype Kind = KNull | KTrue | KFalse | KNum | KStr | KArr | KObj

  function KindOf(v: Json): Kind {
    match v
    case Null => KNull
    case Bool(b) => if b then KTrue else KFalse
    case Num(_) => KNum
    case Str(_) => KStr
    case Arr(_) => KArr
    case Obj(_) => KObj
  }

  function KindOfStart(u: CodeUnit): Kind {
    if u == 110 then KNull
    else if u == 116 then KTrue
    else if u == 102 then KFalse
    else if u == QUOTE then KStr
    else if u == 91 then KArr
    else if u == 123 then KObj
    else KNum
  }

  /** The first character of a text tells the kind of value, and is no separator. */
  lemma StartTellsKind(v: Json, r: Text)
    ensures JsonText(v, r) != [] && KindOfStart(JsonText(v, r)[0]) == KindOf(v)
    ensures JsonText(v, r)[0] != 93 && JsonText(v, r)[0] != 125 && JsonText(v, r)[0] != COMMA
  {
    if v.Num? {
      NumberKind(v.n, r);
    } else {
      OtherKind(v, r);
    }
  }

  lemma NumberKind(n: Number, r: Text)
    ensures NumberText(n, r) != [] && KindOfStart(NumberText(n, r)[0]) == KNum
    ensures NumberText(n, r)[0] != 93 && NumberText(n, r)[0] != 125 && NumberText(n, r)[0] != COMMA
  {
    NumberStart(n, r);
    DigitOrMinus(NumberText(n, r)[0]);
  }

  lemma DigitOrMinus(u: CodeUnit)
    requires u == MINUS || ZERO <= u <= NINE
    ensures KindOfStart(u) == KNum && u != 93 && u != 125 && u != COMMA
  {}

  lemma OtherKind(v: Json, r: Text)
    requires !v.Num?
    ensures JsonText(v, r) != [] && KindOfStart(JsonText(v, r)[0]) == KindOf(v)
    ensures JsonText(v, r)[0] != 93 && JsonText(v, r)[0] != 125 && JsonText(v, r)[0] != COMMA
  {}

  /** A value and what follows it can be read off the text. */
  lemma {:induction false} TextIsUnique(v: Json, r: Text, w: Json, q: Text)
    requires JsonText(v, r) == JsonText(w, q) && Ends(r) && Ends(q)
    ensures v == w && r == q
    decreases v, 0
  {
    StartTellsKind(v, r);
    StartTellsKind(w, q);
    match v
    case Null => SameSplit([110, 117, 108, 108], r, [110, 117, 108, 108], q);
    case Bool(b) =>
      if b { SameSplit([116, 114, 117, 101], r, [116, 114, 117, 101], q); }
      else { SameSplit([102, 97, 108, 115, 101], r, [102, 97, 108, 115, 101], q); }
    case Num(n) => NumberIsUnique(n, r, w.n, q);
    case Str(s) => StringIsUnique(s, r, w.s, q);
    case Arr(items) => ArrayIsUnique(items, r, w.items, q);
    case Obj(fields) => ObjectIsUnique(fields, r, w.fields, q);
  }

  lemma {:induction false} ArrayIsUnique(xs: Items, r: Text, ys: Items, q: Text)
    requires JsonText(Arr(xs), r) == JsonText(Arr(ys), q) && Ends(r) && Ends(q)
    ensures xs == ys && r == q
    decreases xs, 1
  {
    Cons(91, JsonText(Arr(xs), r)[1..], 91, JsonText(Arr(ys), q)[1..]);
    if xs.Item? { StartTellsKind(xs.head, MoreItems(xs.tail, r)); }
    if ys.Item? { StartTellsKind(ys.head, MoreItems(ys.tail, q)); }
    if xs.NoItems? {
      Cons(93, r, 93, q);
    } else {
      TextIsUnique(xs.head, MoreItems(xs.tail, r), ys.head, MoreItems(ys.tail, q));
      MoreItemsAreUnique(xs.tail, r, ys.tail, q);
    }
  }

  lemma {:induction false} MoreItemsAreUnique(xs: Items, r: Text, ys: Items, q: Text)
    requires MoreItems(xs, r) == MoreItems(ys, q) && Ends(r) && Ends(q)
    ensures xs == ys && r == q
    decreases xs, 1
  {
    assert MoreItems(xs, r)[0] == MoreItems(ys, q)[0];
    if xs.NoItems? {
      Cons(93, r, 93, q);
    } else {
      Cons(COMMA, JsonText(xs.head, MoreItems(xs.tail, r)), COMMA, JsonText(ys.head, MoreItems(ys.tail, q)));
      TextIsUnique(xs.head, MoreItems(xs.tail, r), ys.head, MoreItems(ys.tail, q));
      MoreItemsAreUnique(xs.tail, r, ys.tail, q);
    }
  }

  lemma {:induction false} ObjectIsUnique(fs: Fields, r: Text, gs: Fields, q: Text)
    requires JsonText(Obj(fs), r) == JsonText(Obj(gs), q) && Ends(r) && Ends(q)
    ensures fs == gs && r == q
    decreases fs, 3
  {
    Cons(123, JsonText(Obj(fs), r)[1..], 123, JsonText(Obj(gs), q)[1..]);
    ObjectStart(fs, r);
    ObjectStart(gs, q);
    if fs.NoFields? && gs.NoFields? {
      Cons(125, r, 125, q);
    } else if fs.Field? && gs.Field? {
      FieldIsUnique(fs, r, gs, q);
    }
  }

  lemma ObjectStart(fs: Fields, r: Text)
    ensures |JsonText(Obj(fs), r)| > 1 && JsonText(Obj(fs), r)[1] == if fs.NoFields? then 125 else QUOTE
  {}

  lemma {:induction false} FieldIsUnique(fs: Fields, r: Text, gs: Fields, q: Text)
    requires fs.Field? && gs.Field? && FieldText(fs, r) == FieldText(gs, q) && Ends(r) && Ends(q)
    ensures fs == gs && r == q
    decreases fs, 1
  {
    StringIsUnique(fs.key, [COLON] + JsonText(fs.value, MoreFields(fs.rest, r)), gs.key,
        [COLON] + JsonText(gs.value, MoreFields(gs.rest, q)));
    Cons(COLON, JsonText(fs.value, MoreFields(fs.rest, r)), COLON, JsonText(gs.value, MoreFields(gs.rest, q)));
    TextIsUnique(fs.value, MoreFields(fs.rest, r), gs.value, MoreFields(gs.rest, q));
    MoreFieldsAreUnique(fs.rest, r, gs.rest, q);
  }

  lemma {:induction false} MoreFieldsAreUnique(fs: Fields, r: Text, gs: Fields, q: Text)
    requires MoreFields(fs, r) == MoreFields(gs, q) && Ends(r) && Ends(q)
    ensures fs == gs && r == q
    decreases fs, 2
  {
    assert MoreFields(fs, r)[0] == MoreFields(gs, q)[0];
    if fs.NoFields? {
      Cons(125, r, 125, q);
    } else {
      Cons(COMMA, FieldText(fs, r), COMMA, FieldText(gs, q));
      FieldIsUnique(fs, r, gs, q);
    }
  }

  /** JSON.stringify maps different values to different texts. */
  lemma StringifyIsInjective(v: Json, w: Json)
    requires Stringify(v) == Stringify(w)
    ensures v == w
  {
    TextIsUnique(v, [], w, []);
  }

  // ------------------------------------------------------------ the fingerprint

  /** White space and line ends as String.prototype.trim knows them. */
  predicate IsSpace(u: CodeUnit) {
    || 9 <= u <= 13 || u == 32 || u == 0xA0 || u == 0x1680 || 0x2000 <= u <= 0x200A
    || u == 0x2028 || u == 0x2029 || u == 0x202F || u == 0x205F || u == 0x3000 || u == 0xFEFF
  }

  function TrimStart(t: Text): Text
    decreases |t|
  {
    if t != [] && IsSpace(t[0]) then TrimStart(t[1..]) else t
  }

  function TrimEnd(t: Text): Text
    decreases |t|
  {
    if t != [] && IsSpace(t[|t| - 1]) then TrimEnd(t[..|t| - 1]) else t
  }

  function Trim(t: Text): Text { TrimEnd(TrimStart(t)) }

  function TextOrNull(t: Text): Json { if t == [] then Null else Str(t) }

  /** The document type as it is compared; `lower` is String.prototype.toLowerCase. */
  function NormalType(lower: Text -> Text, t: Option<Text>): Json {
    if t == None then Null else TextOrNull(lower(Trim(t.value)))
  }

  function NormalDestination(t: Option<Text>): Json { if t == None then Null else TextOrNull(Trim(t.value)) }

  /** The part of a create request that must repeat under the same key. */
  datatype Ask = Ask(printer: Text, documentType: Option<Text>, destination: Option<Text>, payload: Json)

  const PRINTER_ID: Text := [112, 114, 105, 110, 116, 101, 114, 73, 100]
  const DOCUMENT_TYPE: Text := [100, 111, 99, 117, 109, 101, 110, 116, 84, 121, 112, 101]
  const DESTINATION: Text := [100, 101, 115, 116, 105, 110, 97, 116, 105, 111, 110]
  const PAYLOAD: Text := [112, 97, 121, 108, 111, 97, 100]

  function FingerprintObject(lower: Text -> Text, a: Ask): Json {
    Obj(Field(PRINTER_ID, Str(a.printer),
        Field(DOCUMENT_TYPE, NormalType(lower, a.documentType),
        Field(DESTINATION, NormalDestination(a.destination),
        Field(PAYLOAD, Canon(a.payload), NoFields)))))
  }

  function IdempotencyFingerprint(lower: Text -> Text, a: Ask): Text { Stringify(FingerprintObject(lower, a)) }

  /** The same request: nothing differs but key order, letter case of the type and surrounding space. */
  predicate SameAsk(lower: Text -> Text, a: Ask, b: Ask) {
    && a.printer == b.printer && NormalType(lower, a.documentType) == NormalType(lower, b.documentType)
    && NormalDestination(a.destination) == NormalDestination(b.destination) && Same(a.payload, b.payload)
  }

  /** Fingerprints collide exactly for the same request. */
  lemma FingerprintMeaning(lower: Text -> Text, a: Ask, b: Ask)
    requires Proper(a.payload) && Proper(b.payload)
    ensures IdempotencyFingerprint(lower, a) == IdempotencyFingerprint(lower, b) <==> SameAsk(lower, a, b)
  {
    CanonDecidesSame(a.payload, b.payload);
    if IdempotencyFingerprint(lower, a) == IdempotencyFingerprint(lower, b) {
      StringifyIsInjective(FingerprintObject(lower, a), FingerprintObject(lower, b));
    }
  }
}
