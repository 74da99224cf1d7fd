/**
  The IPP attribute codec of the agent's IPP transport (section 3.1 of RFC 8010): the writer
  the requests are built with and the parser the responses are read with.
 */
module Ipp {
  import opened Bytes

  type Octets = seq<byte>

  /** One attribute as it goes over the wire; an empty name adds a value to the attribute before. */
  datatype Attribute = Attribute(tag: byte, name: Octets, value: Octets)

  type Attributes = map<Octets, Octets>

  const COMMA: byte := 0x2C
  const END_OF_ATTRIBUTES: byte := 0x03

  // ------------------------------------------------------------ numbers on the wire

  /** binary.BigEndian of uint16(n): the length is cut to 16 bits. */
  function U16(n: nat): Octets { [(n / 256 % 256) as byte, (n % 256) as byte] }

  function U16At(data: Octets, i: nat): nat
    requires i + 2 <= |data|
  {
    data[i] as int * 256 + data[i + 1] as int
  }

  function Signed32(raw: Octets): int
    requires |raw| == 4
  {
    if raw[0] < 128 then Unsigned32(raw) else Unsigned32(raw) - 0x1_0000_0000
  }

  function Unsigned32(raw: Octets): nat
    requires |raw| == 4
  {
    ((raw[0] as int * 256 + raw[1] as int) * 256 + raw[2] as int) * 256 + raw[3] as int
  }

  function Ascii(s: string): (r: Octets)
    ensures |r| == |s|
  {
    if s == "" then [] else Ascii(s[..|s| - 1]) + [(s[|s| - 1] as int % 128) as byte]
  }

  function DecimalOctets(n: int): Octets {
    if n < 0 then [0x2D] + Ascii(Decimal(-n)) else Ascii(Decimal(n))
  }

  // ------------------------------------------------------------ writer

  /** writeIPPAttribute. */
  function Written(a: Attribute): Octets { [a.tag] + U16(|a.name|) + a.name + U16(|a.value|) + a.value }

  function WrittenAll(attrs: seq<Attribute>): Octets
    decreases |attrs|
  {
    if attrs == [] then [] else Written(attrs[0]) + WrittenAll(attrs[1..])
  }

  lemma {:induction false} WrittenAllSnoc(attrs: seq<Attribute>, a: Attribute)
    ensures WrittenAll(attrs + [a]) == WrittenAll(attrs) + Written(a)
    decreases |attrs|
  {
    if attrs == [] {
      assert ([a])[1..] == [];
      assert attrs + [a] == [a];
    } else {
      assert (attrs + [a])[1..] == attrs[1..] + [a];
      WrittenAllSnoc(attrs[1..], a);
    }
  }

  /** The buffer a request grows in: a head, and the attributes written so far. */
  class Buffer {
    var bytes: Octets
    ghost const head: Octets
    ghost var written: seq<Attribute>

    ghost predicate Valid()
      reads this
    {
      bytes == head + WrittenAll(written)
    }

    constructor (head: Octets)
      ensures Valid() && this.head == head && written == []
    {
      bytes, this.head, written := head, head, [];
    }

    method WriteIPPAttribute(a: Attribute)
      requires Valid()
      modifies this
      ensures Valid() && written == old(written) + [a]
    {
      WrittenAllSnoc(written, a);
      AppendWritten(head, WrittenAll(written), a);
      bytes := bytes + [a.tag];
      bytes := bytes + U16(|a.name|);
      bytes := bytes + a.name;
      bytes := bytes + U16(|a.value|);
      bytes := bytes + a.value;
      written := written + [a];
    }
  }

  lemma AppendWritten(s: Octets, t: Octets, a: Attribute)
    ensures s + t + [a.tag] + U16(|a.name|) + a.name + U16(|a.value|) + a.value == s + (t + Written(a))
  {}

  // ------------------------------------------------------------ parser

  predicate IsTextTag(tag: byte) { tag == 0x30 || (0x41 <= tag <= 0x49 && tag != 0x43) }

  predicate Printable(raw: Octets) { forall i :: 0 <= i < |raw| ==> 0x20 <= raw[i] <= 0x7E }

  function DecodeValue(tag: byte, raw: Octets): Octets {
    if tag == 0x10 || tag == 0x12 || tag == 0x13 then []
    else if tag == 0x21 || tag == 0x23 then (if |raw| == 4 then DecimalOctets(Signed32(raw)) else [])
    else if tag == 0x22 then (if |raw| != 1 then [] else if raw[0] != 0 then Ascii("true") else Ascii("false"))
    else if IsTextTag(tag) || Printable(raw) then raw
    else []
  }

  /** One more value for a name; an empty value or a missing name counts for nothing. */
  function Collected(out: Attributes, name: Octets, val: Octets): Attributes {
    if name == [] || val == [] then out
    else if name in out && out[name] != [] then out[name := out[name] + [COMMA] + val]
    else out[name := val]
  }

  function NameAt(data: Octets, i: nat, n: nat, current: Octets): Octets
    requires i + n <= |data|
  {
    if n > 0 then data[i..i + n] else current
  }

  /** What stands at a position: nothing more to read, a group delimiter, or an attribute with its two lengths. */
  datatype Cut = Stop | Delimiter | Value(nameLen: nat, valueLen: nat)

  function CutAt(data: Octets, i: nat): (c: Cut)
    requires i <= |data|
    ensures c.Delimiter? ==> i < |data|
    ensures c.Value? ==> i + 5 + c.nameLen + c.valueLen <= |data|
  {
    if i == |data| || data[i] == END_OF_ATTRIBUTES then Stop
    else if data[i] <= 0x0F then Delimiter
    else if i + 3 > |data| then Stop
    else if i + 5 + U16At(data, i + 1) > |data| then Stop
    else if i + 5 + U16At(data, i + 1) + U16At(data, i + 3 + U16At(data, i + 1)) > |data| then Stop
    else Value(U16At(data, i + 1), U16At(data, i + 3 + U16At(data, i + 1)))
  }

  /** What parseIPPAttributes makes of data[i..], given the name it is in and what it has collected. */
  function ParseFrom(data: Octets, i: nat, current: Octets, out: Attributes): Attributes
    requires i <= |data|
    decreases |data| - i
  {
    match CutAt(data, i)
    case Stop => out
    case Delimiter => ParseFrom(data, i + 1, [], out)
    case Value(n, v) =>
      ParseFrom(data, i + 5 + n + v, NameAt(data, i + 3, n, current),
                Collected(out, NameAt(data, i + 3, n, current), DecodeValue(data[i], data[i + 5 + n..i + 5 + n + v])))
  }

  function Parse(data: Octets): Attributes { if |data| < 8 then map[] else ParseFrom(data, 8, [], map[]) }

  /** The bounds checks of the parser's loop, in their order. */
  method Measure(data: Octets, start: nat) returns (c: Cut)
    requires start < |data|
    ensures c == CutAt(data, start)
  {
    var tag, i := data[start], start + 1;
    if tag == END_OF_ATTRIBUTES {
      return Stop;
    }
    if tag <= 0x0F {
      return Delimiter;
    }
    if i + 2 > |data| {
      return Stop;
    }
    var nameLen := U16At(data, i);
    i := i + 2;
    if i + nameLen > |data| {
      return Stop;
    }
    i := i + nameLen;
    if i + 2 > |data| {
      return Stop;
    }
    var valueLen := U16At(data, i);
    i := i + 2;
    if i + valueLen > |data| {
      return Stop;
    }
    return Value(nameLen, valueLen);
  }

  /** The rest of the loop body: a named or repeated attribute is taken in. */
  method TakeValue(data: Octets, start: nat, nameLen: nat, valueLen: nat, current: Octets, collected: Attributes)
      returns (i: nat, currentName: Octets, out: Attributes)
    requires start < |data| && CutAt(data, start) == Value(nameLen, valueLen)
    ensures start < i <= |data| && ParseFrom(data, i, currentName, out) == ParseFrom(data, start, current, collected)
  {
    currentName := if nameLen > 0 then data[start + 3..start + 3 + nameLen] else current;
    i := start + 5 + nameLen + valueLen;
    out := Collected(collected, currentName, DecodeValue(data[start], data[start + 5 + nameLen..i]));
    ParseStep(data, start, current, collected, i, currentName, out);
  }

  /** parseIPPAttributes: every access is in bounds on every input, so its recover is never needed. */
  method ParseIPPAttributes(data: Octets) returns (out: Attributes)
    ensures out == Parse(data)
  {
    out := map[];
    if |data| < 8 {
      return;
    }
    var i := 8;
    var currentName: Octets := [];
    while i < |data|
      invariant 8 <= i <= |data|
      invariant ParseFrom(data, i, currentName, out) == Parse(data)
      decreases |data| - i
    {
      var cut := Measure(data, i);
      match cut
      case Stop =>
        break;
      case Delimiter =>
        ParseDelimiter(data, i, currentName, out);
        i, currentName := i + 1, [];
      case Value(nameLen, valueLen) =>
        i, currentName, out := TakeValue(data, i, nameLen, valueLen, currentName, out);
    }
    ParseStop(data, i, currentName, out);
  }

  // ------------------------------------------------------------ reading back what was written

  /** The lengths fit their fields and the tag is no delimiter. */
  predicate Writable(a: Attribute) { a.tag > 0x0F && |a.name| < 0x1_0000 && |a.value| < 0x1_0000 }

  predicate AllWritable(attrs: seq<Attribute>) { forall k :: 0 <= k < |attrs| ==> Writable(attrs[k]) }

  function CurrentName(a: Attribute, current: Octets): Octets { if a.name == [] then current else a.name }

  /** The attributes one after the other, with no bytes in between. */
  function CollectedAll(attrs: seq<Attribute>, current: Octets, out: Attributes): Attributes
    decreases |attrs|
  {
    if attrs == [] then out
    else CollectedAll(attrs[1..], CurrentName(attrs[0], current),
                      Collected(out, CurrentName(attrs[0], current), DecodeValue(attrs[0].tag, attrs[0].value)))
  }

  lemma U16RoundTrip(data: Octets, i: nat, n: nat)
    requires n < 0x1_0000 && i + 2 <= |data| && data[i..i + 2] == U16(n)
    ensures U16At(data, i) == n
  {
    assert data[i] == data[i..i + 2][0] && data[i + 1] == data[i..i + 2][1];
  }

  /** Where the parts of a written attribute lie. */
  lemma WrittenParts(d: Octets, i: nat, a: Attribute, rest: Octets)
    requires i <= |d| && d[i..] == Written(a) + rest
    ensures |d| == i + 5 + |a.name| + |a.value| + |rest|
    ensures d[i] == a.tag && d[i + 1..i + 3] == U16(|a.name|) && d[i + 3..i + 3 + |a.name|] == a.name
    ensures d[i + 3 + |a.name|..i + 5 + |a.name|] == U16(|a.value|)
    ensures d[i + 5 + |a.name|..i + 5 + |a.name| + |a.value|] == a.value
    ensures d[i + 5 + |a.name| + |a.value|..] == rest
  {
    var t := d[i..];
    assert t[0] == a.tag && t[1..3] == U16(|a.name|) && t[3..3 + |a.name|] == a.name;
    assert t[3 + |a.name|..5 + |a.name|] == U16(|a.value|);
    assert t[5 + |a.name|..5 + |a.name| + |a.value|] == a.value;
    assert t[5 + |a.name| + |a.value|..] == rest;
  }

  lemma ParseStep(data: Octets, i: nat, current: Octets, out: Attributes, next: nat, name: Octets, after: Attributes)
    requires i <= |data| && CutAt(data, i).Value? && next == i + 5 + CutAt(data, i).nameLen + CutAt(data, i).valueLen
    requires name == NameAt(data, i + 3, CutAt(data, i).nameLen, current)
    requires after == Collected(out, name, DecodeValue(data[i], data[i + 5 + CutAt(data, i).nameLen..next]))
    ensures ParseFrom(data, i, current, out) == ParseFrom(data, next, name, after)
  {}

  lemma ParseDelimiter(data: Octets, i: nat, current: Octets, out: Attributes)
    requires i <= |data| && CutAt(data, i).Delimiter?
    ensures ParseFrom(data, i, current, out) == ParseFrom(data, i + 1, [], out)
  {}

  lemma ParseStop(data: Octets, i: nat, current: Octets, out: Attributes)
    requires i <= |data| && CutAt(data, i).Stop?
    ensures ParseFrom(data, i, current, out) == out
  {}

  /** The parser steps over one written attribute and takes in exactly its name and value. */
  lemma ParseOne(
      d: Octets, i: nat, a: Attribute, rest: Octets, current: Octets, out: Attributes, next: nat,
      name: Octets, after: Attributes)
    requires Writable(a) && i <= |d| && d[i..] == Written(a) + rest
    requires next == i + 5 + |a.name| + |a.value| && name == CurrentName(a, current)
    requires after == Collected(out, name, DecodeValue(a.tag, a.value))
    ensures next <= |d| && d[next..] == rest && ParseFrom(d, i, current, out) == ParseFrom(d, next, name, after)
  {
    WrittenParts(d, i, a, rest);
    CutWritten(d, i, a, rest);
    ParseStep(d, i, current, out, next, name, after);
  }

  lemma CutWritten(d: Octets, i: nat, a: Attribute, rest: Octets)
    requires Writable(a) && i <= |d| && d[i..] == Written(a) + rest
    ensures CutAt(d, i) == Value(|a.name|, |a.value|)
  {
    WrittenParts(d, i, a, rest);
    U16RoundTrip(d, i + 1, |a.name|);
    U16RoundTrip(d, i + 3 + |a.name|, |a.value|);
  }

  lemma WrittenHead(attrs: seq<Attribute>, rest: Octets)
    requires attrs != []
    ensures WrittenAll(attrs) + rest == Written(attrs[0]) + (WrittenAll(attrs[1..]) + rest)
  {}

  lemma {:induction false} ParseAll(
      d: Octets, i: nat, attrs: seq<Attribute>, rest: Octets, current: Octets, out: Attributes)
    requires AllWritable(attrs) && i <= |d| && d[i..] == WrittenAll(attrs) + rest
    requires rest != [] && rest[0] == END_OF_ATTRIBUTES
    ensures ParseFrom(d, i, current, out) == CollectedAll(attrs, current, out)
    decreases |attrs|
  {
    if attrs == [] {
      assert d[i..][0] == rest[0];
      ParseStop(d, i, current, out);
    } else {
      var next := i + 5 + |attrs[0].name| + |attrs[0].value|;
      var name := CurrentName(attrs[0], current);
      var after := Collected(out, name, DecodeValue(attrs[0].tag, attrs[0].value));
      WrittenHead(attrs, rest);
      ParseOne(d, i, attrs[0], WrittenAll(attrs[1..]) + rest, current, out, next, name, after);
      ParseAll(d, next, attrs[1..], rest, name, after);
    }
  }

  // ------------------------------------------------------------ requests

  /** Version 2.0, the operation, request id 1, the operation attributes, the end tag, and whatever follows. */
  function Request(operation: nat, attrs: seq<Attribute>, document: Octets): Octets {
    RequestHead(operation) + WrittenAll(attrs) + ([END_OF_ATTRIBUTES] + document)
  }

  function RequestHead(operation: nat): Octets { [0x02, 0x00] + U16(operation) + [0, 0, 0, 1, 0x01] }

  /** Parsing a request gives back its attributes, whatever document follows the end tag. */
  lemma RequestRoundTrip(operation: nat, attrs: seq<Attribute>, document: Octets)
    requires AllWritable(attrs)
    ensures Parse(Request(operation, attrs, document)) == CollectedAll(attrs, [], map[])
  {
    var d := Request(operation, attrs, document);
    assert d[8] == 0x01;
    assert d[9..] == WrittenAll(attrs) + ([END_OF_ATTRIBUTES] + document);
    ParseAll(d, 9, attrs, [END_OF_ATTRIBUTES] + document, [], map[]);
  }

  // ------------------------------------------------------------ named text attributes

  predicate NamedText(a: Attribute) { IsTextTag(a.tag) && 0 < |a.name| < 0x1_0000 && 0 < |a.value| < 0x1_0000 }

  /** The values written under a name, in order. */
  function ValuesOf(attrs: seq<Attribute>, name: Octets): seq<Octets>
    decreases |attrs|
  {
    if attrs == [] then []
    else (if attrs[0].name == name then [attrs[0].value] else []) + ValuesOf(attrs[1..], name)
  }

  /** The values in order with commas between them, after what is there already. */
  function JoinedOnto(first: Octets, values: seq<Octets>): Octets
    decreases |values|
  {
    if values == [] then first
    else JoinedOnto(if first == [] then values[0] else first + [COMMA] + values[0], values[1..])
  }

  function CommaJoin(values: seq<Octets>): Octets { JoinedOnto([], values) }

  function ValueIn(out: Attributes, name: Octets): Octets { if name in out then out[name] else [] }

  lemma CollectedAt(out: Attributes, a: Attribute, name: Octets)
    requires NamedText(a) && (name in out ==> out[name] != [])
    ensures ValueIn(Collected(out, a.name, a.value), name)
            == JoinedOnto(ValueIn(out, name), if a.name == name then [a.value] else [])
    ensures name in Collected(out, a.name, a.value) <==> name in out || a.name == name
    ensures name in Collected(out, a.name, a.value) ==> Collected(out, a.name, a.value)[name] != []
  {
    assert [a.value][1..] == [];
  }

  lemma {:induction false} JoinedOntoSplit(first: Octets, v: seq<Octets>, w: seq<Octets>)
    ensures JoinedOnto(JoinedOnto(first, v), w) == JoinedOnto(first, v + w)
    decreases |v|
  {
    if v == [] {
      assert v + w == w;
    } else {
      assert (v + w)[1..] == v[1..] + w;
      JoinedOntoSplit(if first == [] then v[0] else first + [COMMA] + v[0], v[1..], w);
    }
  }

  predicate AllNamedText(attrs: seq<Attribute>) { forall k :: 0 <= k < |attrs| ==> NamedText(attrs[k]) }

  lemma AllNamedTail(attrs: seq<Attribute>)
    requires AllNamedText(attrs) && attrs != []
    ensures NamedText(attrs[0]) && AllNamedText(attrs[1..])
  {}

  /** Taking in the first attribute. */
  function Head(out: Attributes, a: Attribute): Attributes { Collected(out, a.name, a.value) }

  lemma CollectedAllNext(attrs: seq<Attribute>, current: Octets, out: Attributes)
    requires attrs != [] && NamedText(attrs[0])
    ensures CollectedAll(attrs, current, out) == CollectedAll(attrs[1..], attrs[0].name, Head(out, attrs[0]))
  {}

  lemma {:induction false} CollectedIsJoined(attrs: seq<Attribute>, current: Octets, out: Attributes, name: Octets)
    requires AllNamedText(attrs) && (name in out ==> out[name] != [])
    ensures ValueIn(CollectedAll(attrs, current, out), name) == JoinedOnto(ValueIn(out, name), ValuesOf(attrs, name))
    ensures name in CollectedAll(attrs, current, out) <==> name in out || ValuesOf(attrs, name) != []
    decreases |attrs|
  {
    if attrs != [] {
      AllNamedTail(attrs);
      CollectedAt(out, attrs[0], name);
      CollectedAllNext(attrs, current, out);
      CollectedIsJoined(attrs[1..], attrs[0].name, Head(out, attrs[0]), name);
      JoinedOntoSplit(ValueIn(out, name), if attrs[0].name == name then [attrs[0].value] else [],
                      ValuesOf(attrs[1..], name));
    }
  }

  /**
    Writer and parser undo each other: of a request built from text attributes, whatever
    document follows, the parser returns exactly the names written, each with the comma join
    of its values in order.
   */
  lemma TextRequestRoundTrip(operation: nat, attrs: seq<Attribute>, document: Octets, name: Octets)
    requires forall k :: 0 <= k < |attrs| ==> NamedText(attrs[k])
    ensures name in Parse(Request(operation, attrs, document)) <==> ValuesOf(attrs, name) != []
    ensures name in Parse(Request(operation, attrs, document)) ==>
              Parse(Request(operation, attrs, document))[name] == CommaJoin(ValuesOf(attrs, name))
  {
    forall k | 0 <= k < |attrs|
      ensures Writable(attrs[k])
    {
      assert NamedText(attrs[k]);
    }
    RequestRoundTrip(operation, attrs, document);
    CollectedIsJoined(attrs, [], map[], name);
  }

  // ------------------------------------------------------------ the two requests the agent sends

  function PrintJobAttributes(uri: Octets, format: Octets): seq<Attribute> {
    [Attribute(0x47, Ascii("attributes-charset"), Ascii("utf-8")),
     Attribute(0x48, Ascii("attributes-natural-language"), Ascii("en")),
     Attribute(0x45, Ascii("printer-uri"), uri),
     Attribute(0x42, Ascii("requesting-user-name"), Ascii("odoo-agent")),
     Attribute(0x49, Ascii("document-format"), format),
     Attribute(0x42, Ascii("job-name"), Ascii("Odoo Print Job"))]
  }

  function QueryAttributes(uri: Octets): seq<Attribute> {
    [Attribute(0x47, Ascii("attributes-charset"), Ascii("utf-8")),
     Attribute(0x48, Ascii("attributes-natural-language"), Ascii("en")),
     Attribute(0x45, Ascii("printer-uri"), uri),
     Attribute(0x42, Ascii("requesting-user-name"), Ascii("odoo-agent")),
     Attribute(0x44, Ascii("requested-attributes"), Ascii("printer-state")),
     Attribute(0x44, Ascii("requested-attributes"), Ascii("printer-state-reasons")),
     Attribute(0x44, Ascii("requested-attributes"), Ascii("printer-is-accepting-jobs"))]
  }

  lemma JoinOfOne(v: Octets)
    ensures CommaJoin([v]) == v
  {
    assert [v][1..] == [];
    assert JoinedOnto(v, []) == v;
  }

  /** An attribute whose name is used once is read back as it was written, whatever document follows. */
  lemma ReadBack(operation: nat, attrs: seq<Attribute>, document: Octets, k: nat)
    requires k < |attrs| && forall j :: 0 <= j < |attrs| ==> NamedText(attrs[j])
    requires forall j :: 0 <= j < |attrs| && j != k ==> attrs[j].name != attrs[k].name
    ensures attrs[k].name in Parse(Request(operation, attrs, document))
    ensures Parse(Request(operation, attrs, document))[attrs[k].name] == attrs[k].value
  {
    ValuesOfOnly(attrs, k, attrs[k].name);
    TextRequestRoundTrip(operation, attrs, document, attrs[k].name);
    JoinOfOne(attrs[k].value);
  }

  /** The printer reads off a print request the very URI and format it was built for. */
  lemma PrintJobSaysWhere(uri: Octets, document: Octets, format: Octets)
    requires 0 < |uri| < 0x1_0000 && 0 < |format| < 0x1_0000
    ensures ValueIn(Parse(Request(0x0002, PrintJobAttributes(uri, format), document)),
            PrintJobAttributes(uri, format)[2].name) == uri
    ensures ValueIn(Parse(Request(0x0002, PrintJobAttributes(uri, format), document)),
            PrintJobAttributes(uri, format)[4].name) == format
  {
    PrintJobNames(uri, format);
    ReadBack(0x0002, PrintJobAttributes(uri, format), document, 2);
    ReadBack(0x0002, PrintJobAttributes(uri, format), document, 4);
  }

  lemma PrintJobNames(uri: Octets, format: Octets)
    requires 0 < |uri| < 0x1_0000 && 0 < |format| < 0x1_0000
    ensures |PrintJobAttributes(uri, format)| == 6
    ensures PrintJobAttributes(uri, format)[2].value == uri && PrintJobAttributes(uri, format)[4].value == format
    ensures forall k :: 0 <= k < 6 ==> NamedText(PrintJobAttributes(uri, format)[k])
    ensures forall j :: 0 <= j < 6 && j != 2 ==>
            PrintJobAttributes(uri, format)[j].name != PrintJobAttributes(uri, format)[2].name
    ensures forall j :: 0 <= j < 6 && j != 4 ==>
            PrintJobAttributes(uri, format)[j].name != PrintJobAttributes(uri, format)[4].name
  {
    assert |PrintJobAttributes(uri, format)[2].name| == 11 && |PrintJobAttributes(uri, format)[4].name| == 15;
  }

  /** A name used once has one value. */
  lemma {:induction false} ValuesOfOnly(attrs: seq<Attribute>, k: nat, name: Octets)
    requires k < |attrs| && attrs[k].name == name
    requires forall j :: 0 <= j < |attrs| && j != k ==> attrs[j].name != name
    ensures ValuesOf(attrs, name) == [attrs[k].value]
    decreases |attrs|
  {
    assert forall j :: 0 <= j < |attrs[1..]| ==> attrs[1..][j] == attrs[j + 1];
    if k > 0 {
      ValuesOfOnly(attrs[1..], k - 1, name);
    } else {
      ValuesOfNone(attrs[1..], name);
    }
  }

  lemma {:induction false} ValuesOfNone(attrs: seq<Attribute>, name: Octets)
    requires forall j :: 0 <= j < |attrs| ==> attrs[j].name != name
    ensures ValuesOf(attrs, name) == []
    decreases |attrs|
  {
    if attrs != [] {
      assert forall j :: 0 <= j < |attrs[1..]| ==> attrs[1..][j] == attrs[j + 1];
      ValuesOfNone(attrs[1..], name);
    }
  }

  method BuildIPPPrintJobWithFormat(uri: Octets, document: Octets, format: Octets) returns (message: Octets)
    ensures message == Request(0x0002, PrintJobAttributes(uri, format), document)
  {
    var attrs := PrintJobAttributes(uri, format);
    var buf := new Buffer(RequestHead(0x0002));
    buf.WriteIPPAttribute(attrs[0]);
    buf.WriteIPPAttribute(attrs[1]);
    buf.WriteIPPAttribute(attrs[2]);
    buf.WriteIPPAttribute(attrs[3]);
    buf.WriteIPPAttribute(attrs[4]);
    buf.WriteIPPAttribute(attrs[5]);
    assert buf.written == attrs;
    return buf.bytes + ([END_OF_ATTRIBUTES] + document);
  }

  method BuildIPPGetPrinterAttributes(uri: Octets) returns (message: Octets)
    ensures message == Request(0x000B, QueryAttributes(uri), [])
  {
    var attrs := QueryAttributes(uri);
    var buf := new Buffer(RequestHead(0x000B));
    buf.WriteIPPAttribute(attrs[0]);
    buf.WriteIPPAttribute(attrs[1]);
    buf.WriteIPPAttribute(attrs[2]);
    buf.WriteIPPAttribute(attrs[3]);
    buf.WriteIPPAttribute(attrs[4]);
    buf.WriteIPPAttribute(attrs[5]);
    buf.WriteIPPAttribute(attrs[6]);
    assert buf.written == attrs;
    return buf.bytes + ([END_OF_ATTRIBUTES] + []);
  }
}
