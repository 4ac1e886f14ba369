/**
 The protobuf wire format as the crate writes it (field trees and their bytes) and
 as the trace reader parses it back.
 */
module Wire {
  import opened Prelude
  import opened Varints

  const MESSAGE_LEN_PREFIX_SIZE: nat := 4
  const MAX_MESSAGE_LEN: nat := 0xFFF_FFFF

  const VARINT: nat := 0
  const FIXED64: nat := 1
  const DELIMITED: nat := 2

  /** A field number; protobuf allows 29 bits, so the shifted tag fits in a u32. */
  type FieldId = x: int | 1 <= x < 0x2000_0000 witness 1

  /** One field to be written. Nested messages are written in place, then sized. */
  datatype Field =
    | VarintField(id: FieldId, value: u64)
    | WideField(id: FieldId, value: u64)
    | Fixed64Field(id: FieldId, bits: u64)
    | StringField(id: FieldId, text: Text)
    | FormattedField(id: FieldId, text: Text)
    | Message(id: FieldId, body: seq<Field>)

  function Tag(id: FieldId, wireType: nat): seq<byte>
    requires wireType < 8
  {
    Varint(id * 8 + wireType)
  }

  /** The `n` low-order bytes of `value`, least significant first. */
  function LittleEndian(value: nat, n: nat): (bytes: seq<byte>)
    ensures |bytes| == n
    decreases n, value
  {
    if n == 0 then [] else [value % 256] + LittleEndian(value / 256, n - 1)
  }

  function FromLittleEndian(bytes: seq<byte>): nat {
    if bytes == [] then 0 else bytes[0] + 256 * FromLittleEndian(bytes[1..])
  }

  function PowerOf256(n: nat): (r: nat)
    ensures r >= 1
  {
    if n == 0 then 1 else 256 * PowerOf256(n - 1)
  }

  lemma {:induction false} LittleEndianRoundTrip(value: nat, n: nat)
    requires value < PowerOf256(n)
    ensures FromLittleEndian(LittleEndian(value, n)) == value
    decreases n
  {
    if n > 0 {
      var high, low := value / 256, value % 256;
      LittleEndianRoundTrip(high, n - 1);
      assert LittleEndian(value, n)[1..] == LittleEndian(high, n - 1);
    }
  }

  /** A length-delimited payload behind its back-filled four-byte length. */
  function Framed(payload: seq<byte>): seq<byte> {
    Padded(|payload|, MESSAGE_LEN_PREFIX_SIZE) + payload
  }

  function EncodeField(f: Field): (bytes: seq<byte>)
    decreases f, 1
  {
    match f
    case VarintField(id, value) => Tag(id, VARINT) + Varint(value)
    case WideField(id, value) => Tag(id, VARINT) + Padded(value, MAX_VARINT_LEN)
    case Fixed64Field(id, bits) => Tag(id, FIXED64) + LittleEndian(bits, 8)
    case StringField(id, text) => Tag(id, DELIMITED) + Varint(|text|) + text
    case FormattedField(id, text) => Tag(id, DELIMITED) + Framed(text)
    case Message(id, body) => Tag(id, DELIMITED) + Framed(EncodeAll(body))
  }

  function EncodeAll(fields: seq<Field>): (bytes: seq<byte>)
    decreases fields, 0
  {
    if fields == [] then [] else EncodeField(fields[0]) + EncodeAll(fields[1..])
  }

  lemma {:induction false} EncodeAllAppend(a: seq<Field>, b: seq<Field>)
    ensures EncodeAll(a + b) == EncodeAll(a) + EncodeAll(b)
  {
    if a == [] {
      assert a + b == b;
    } else {
      assert (a + b)[1..] == a[1..] + b;
      EncodeAllAppend(a[1..], b);
      assert EncodeAll(a) + EncodeAll(b) == EncodeField(a[0]) + (EncodeAll(a[1..]) + EncodeAll(b));
    }
  }

  lemma EncodeAllOne(f: Field)
    ensures EncodeAll([f]) == EncodeField(f)
  {
    assert [f][1..] == [];
    assert EncodeAll([f]) == EncodeField(f) + [];
  }

  /** Whether every back-filled payload is within the four-byte length: the writer panics otherwise. */
  predicate Fits(f: Field)
    decreases f, 1
  {
    match f
    case VarintField(_, _) => true
    case WideField(_, _) => true
    case Fixed64Field(_, _) => true
    case StringField(_, _) => true
    case FormattedField(_, text) => |text| <= MAX_MESSAGE_LEN
    case Message(_, body) => FitsAll(body) && |EncodeAll(body)| <= MAX_MESSAGE_LEN
  }

  predicate FitsAll(fields: seq<Field>)
    decreases fields, 0
  {
    fields == [] || (Fits(fields[0]) && FitsAll(fields[1..]))
  }

  lemma {:induction false} FitsAllAppend(a: seq<Field>, b: seq<Field>)
    ensures FitsAll(a + b) == (FitsAll(a) && FitsAll(b))
  {
    if a == [] {
      assert a + b == b;
    } else {
      assert (a + b)[1..] == a[1..] + b;
      FitsAllAppend(a[1..], b);
    }
  }

  // ---------------------------------------------------------------- the reader

  /** A field as the reader sees it: a nested message is still bytes. */
  datatype WireField =
    | VarintWire(id: nat, value: u64)
    | Fixed64Wire(id: nat, bits: nat)
    | BytesWire(id: nat, bytes: seq<byte>)

  /** The payload after a tag, and the rest of the input. `None` is a reader panic. */
  function ParseValue(id: nat, wireType: nat, data: seq<byte>): (r: Option<(WireField, seq<byte>)>)
    ensures r.Some? ==> |r.value.1| <= |data| && r.value.0.id == id
    ensures r.Some? && r.value.0.BytesWire? ==> |r.value.0.bytes| + |r.value.1| <= |data|
  {
    if wireType == VARINT then
      match Decode(data)
      case None => None
      case Some((value, rest)) => Some((VarintWire(id, value), rest))
    else if wireType == FIXED64 then
      if |data| < 8 then None
      else Some((Fixed64Wire(id, FromLittleEndian(data[..8])), data[8..]))
    else if wireType == DELIMITED then
      match Decode(data)
      case None => None
      case Some((len, rest)) =>
        if |rest| < len then None
        else Some((BytesWire(id, rest[..len]), rest[len..]))
    else None
  }

  function ParseOne(data: seq<byte>): (r: Option<(WireField, seq<byte>)>)
    ensures r.Some? ==> |r.value.1| < |data|
    ensures r.Some? && r.value.0.BytesWire? ==> |r.value.0.bytes| + |r.value.1| < |data|
  {
    match Decode(data)
    case None => None
    case Some((tag, rest)) => ParseValue((tag / 8) % TWO_TO_THE_32, tag % 8, rest)
  }

  function Parse(data: seq<byte>): (r: Option<seq<WireField>>)
    decreases |data|
  {
    if data == [] then Some([])
    else
      match ParseOne(data)
      case None => None
      case Some((field, rest)) =>
        match Parse(rest)
        case None => None
        case Some(others) => Some([field] + others)
  }

  /** What one level of parsing makes of a written field. */
  function Flat(f: Field): WireField {
    match f
    case VarintField(id, value) => VarintWire(id, value)
    case WideField(id, value) => VarintWire(id, value)
    case Fixed64Field(id, bits) => Fixed64Wire(id, bits)
    case StringField(id, text) => BytesWire(id, text)
    case FormattedField(id, text) => BytesWire(id, text)
    case Message(id, body) => BytesWire(id, EncodeAll(body))
  }

  function FlatAll(fields: seq<Field>): (r: seq<WireField>)
    ensures |r| == |fields|
    ensures forall i :: 0 <= i < |fields| ==> r[i] == Flat(fields[i])
  {
    if fields == [] then [] else [Flat(fields[0])] + FlatAll(fields[1..])
  }

  lemma FlatAllAppend(a: seq<Field>, b: seq<Field>)
    ensures FlatAll(a + b) == FlatAll(a) + FlatAll(b)
  {
  }

  /** The reader's field accessors: the first field with this number and wire type. */
  function FindVarint(fields: seq<WireField>, id: nat): Option<nat> {
    if fields == [] then None
    else if fields[0].VarintWire? && fields[0].id == id then Some(fields[0].value)
    else FindVarint(fields[1..], id)
  }

  function FindBytes(fields: seq<WireField>, id: nat): Option<seq<byte>> {
    if fields == [] then None
    else if fields[0].BytesWire? && fields[0].id == id then Some(fields[0].bytes)
    else FindBytes(fields[1..], id)
  }

  predicate IsVarint(field: WireField, id: nat) {
    field.VarintWire? && field.id == id
  }

  predicate IsBytes(field: WireField, id: nat) {
    field.BytesWire? && field.id == id
  }

  lemma {:induction false} FindVarintAt(fields: seq<WireField>, id: nat, i: nat)
    requires i < |fields| && IsVarint(fields[i], id)
    requires forall j :: 0 <= j < i ==> !IsVarint(fields[j], id)
    ensures FindVarint(fields, id) == Some(fields[i].value)
    decreases i
  {
    if i > 0 {
      assert !IsVarint(fields[0], id);
      FindVarintAt(fields[1..], id, i - 1);
    }
  }

  lemma {:induction false} FindVarintNone(fields: seq<WireField>, id: nat)
    requires forall j :: 0 <= j < |fields| ==> !IsVarint(fields[j], id)
    ensures FindVarint(fields, id) == None
    decreases |fields|
  {
    if fields != [] {
      assert !IsVarint(fields[0], id);
      FindVarintNone(fields[1..], id);
    }
  }

  lemma {:induction false} FindBytesAt(fields: seq<WireField>, id: nat, i: nat)
    requires i < |fields| && IsBytes(fields[i], id)
    requires forall j :: 0 <= j < i ==> !IsBytes(fields[j], id)
    ensures FindBytes(fields, id) == Some(fields[i].bytes)
    decreases i
  {
    if i > 0 {
      assert !IsBytes(fields[0], id);
      FindBytesAt(fields[1..], id, i - 1);
    }
  }

  lemma {:induction false} FindBytesNone(fields: seq<WireField>, id: nat)
    requires forall j :: 0 <= j < |fields| ==> !IsBytes(fields[j], id)
    ensures FindBytes(fields, id) == None
    decreases |fields|
  {
    if fields != [] {
      assert !IsBytes(fields[0], id);
      FindBytesNone(fields[1..], id);
    }
  }

  lemma TagParts(id: FieldId, wireType: nat)
    requires wireType < 8
    ensures id * 8 + wireType < TWO_TO_THE_32
    ensures ((id * 8 + wireType) / 8) % TWO_TO_THE_32 == id && (id * 8 + wireType) % 8 == wireType
  {
  }

  lemma TagRoundTrip(id: FieldId, wireType: nat, rest: seq<byte>)
    requires wireType < 8
    ensures ParseOne(Tag(id, wireType) + rest) == ParseValue(id, wireType, rest)
  {
    TagParts(id, wireType);
    MinimalRoundTrip(id * 8 + wireType, rest);
  }

  lemma VarintRoundTrip(id: FieldId, value: u64, rest: seq<byte>)
    ensures ParseOne(Tag(id, VARINT) + Varint(value) + rest) == Some((VarintWire(id, value), rest))
    ensures ParseOne(Tag(id, VARINT) + Padded(value, MAX_VARINT_LEN) + rest) == Some((VarintWire(id, value), rest))
  {
    EncodingsAgree(value, rest);
    TagRoundTrip(id, VARINT, Varint(value) + rest);
    assert Tag(id, VARINT) + Varint(value) + rest == Tag(id, VARINT) + (Varint(value) + rest);
    var wide := Padded(value, MAX_VARINT_LEN);
    TagRoundTrip(id, VARINT, wide + rest);
    assert Tag(id, VARINT) + wide + rest == Tag(id, VARINT) + (wide + rest);
  }

  lemma DelimitedRoundTrip(id: FieldId, prefix: seq<byte>, text: seq<byte>, rest: seq<byte>)
    requires |text| < TWO_TO_THE_64
    requires Decode(prefix + (text + rest)) == Some((|text|, text + rest))
    ensures ParseOne(Tag(id, DELIMITED) + prefix + text + rest) == Some((BytesWire(id, text), rest))
  {
    var tail := prefix + (text + rest);
    TagRoundTrip(id, DELIMITED, tail);
    assert Tag(id, DELIMITED) + prefix + text + rest == Tag(id, DELIMITED) + tail;
    assert (text + rest)[..|text|] == text && (text + rest)[|text|..] == rest;
  }

  lemma StringRoundTrip(id: FieldId, text: Text, rest: seq<byte>)
    ensures ParseOne(Tag(id, DELIMITED) + Varint(|text|) + text + rest) == Some((BytesWire(id, text), rest))
  {
    MinimalRoundTrip(|text|, text + rest);
    DelimitedRoundTrip(id, Varint(|text|), text, rest);
  }

  lemma FramedRoundTrip(id: FieldId, text: seq<byte>, rest: seq<byte>)
    requires |text| <= MAX_MESSAGE_LEN
    ensures ParseOne(Tag(id, DELIMITED) + Framed(text) + rest) == Some((BytesWire(id, text), rest))
  {
    EncodingsAgree(|text|, text + rest);
    DelimitedRoundTrip(id, Padded(|text|, MESSAGE_LEN_PREFIX_SIZE), text, rest);
    TagJoins(Tag(id, DELIMITED), Padded(|text|, MESSAGE_LEN_PREFIX_SIZE), text, rest);
  }

  lemma TagJoins(tag: seq<byte>, length: seq<byte>, text: seq<byte>, rest: seq<byte>)
    ensures tag + (length + text) + rest == tag + length + text + rest
  {
  }

  lemma Fixed64RoundTrip(id: FieldId, bits: u64, rest: seq<byte>)
    ensures ParseOne(Tag(id, FIXED64) + LittleEndian(bits, 8) + rest) == Some((Fixed64Wire(id, bits), rest))
  {
    var bytes := LittleEndian(bits, 8);
    TagRoundTrip(id, FIXED64, bytes + rest);
    assert Tag(id, FIXED64) + bytes + rest == Tag(id, FIXED64) + (bytes + rest);
    assert (bytes + rest)[..8] == bytes && (bytes + rest)[8..] == rest;
    assert PowerOf256(4) == 0x1_0000_0000;
    assert PowerOf256(6) == 256 * (256 * PowerOf256(4));
    assert PowerOf256(8) == 256 * (256 * PowerOf256(6));
    LittleEndianRoundTrip(bits, 8);
  }

  /** Any written field, followed by anything, is read back whole. */
  lemma ParseWritten(f: Field, rest: seq<byte>)
    requires Fits(f)
    ensures ParseOne(EncodeField(f) + rest) == Some((Flat(f), rest))
  {
    match f
    case VarintField(id, value) =>
      VarintRoundTrip(id, value, rest);
    case WideField(id, value) =>
      VarintRoundTrip(id, value, rest);
    case Fixed64Field(id, bits) =>
      Fixed64RoundTrip(id, bits, rest);
    case StringField(id, text) =>
      StringRoundTrip(id, text, rest);
    case FormattedField(id, text) =>
      FramedRoundTrip(id, text, rest);
    case Message(id, body) =>
      FramedRoundTrip(id, EncodeAll(body), rest);
  }

  /** Parsing what was written yields exactly the written fields, in order. */
  lemma {:induction false} ParseRoundTrip(fields: seq<Field>)
    requires FitsAll(fields)
    ensures Parse(EncodeAll(fields)) == Some(FlatAll(fields))
  {
    if fields != [] {
      var rest := EncodeAll(fields[1..]);
      ParseWritten(fields[0], rest);
      ParseRoundTrip(fields[1..]);
      assert EncodeAll(fields) != [];
    }
  }
}
