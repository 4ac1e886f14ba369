/** The append-only message builder, with message lengths back-filled in place. */
module ProtoBuffers {
  import opened Prelude
  import opened Varints
  import opened Wire

  /** Where an unfinished message's length slot and payload start. */
  datatype MessageToken = MessageToken(lenPrefix: nat, payloadStart: nat)

  class ProtoBuffer {
    var buf: seq<byte>

    constructor ()
      ensures buf == []
    {
      buf := [];
    }

    method Clear()
      modifies this
      ensures buf == []
    {
      buf := [];
    }

    /** Like `Vec::truncate`: no effect when `len` is past the end. */
    method Truncate(len: nat)
      modifies this
      ensures buf == if len <= |old(buf)| then old(buf)[..len] else old(buf)
    {
      if len <= |buf| {
        buf := buf[..len];
      }
    }

    method WriteVarint(value: u64)
      modifies this
      ensures buf == old(buf) + Varint(value)
    {
      var rest: nat := value;
      while true
        invariant old(buf) + Varint(value) == buf + Varint(rest)
        decreases rest
      {
        var low := rest % 128;
        var high := rest / 128;
        if high == 0 {
          buf := buf + [low];
          return;
        }
        ghost var before := buf;
        buf := buf + [low + 128];
        assert before + Varint(rest) == buf + Varint(high);
        rest := high;
      }
    }

    /**
     Overwrites `buf[start..end]` with the redundant varint of `value`. Returns
     false, writing nothing, where the source panics on an oversized message.
     */
    method WriteRedundantVarint(value: nat, start: nat, end: nat) returns (ok: bool)
      requires start < end <= |buf|
      modifies this
      ensures ok == (value <= MAX_MESSAGE_LEN)
      ensures !ok ==> buf == old(buf)
      ensures ok ==> buf == old(buf)[..start] + Padded(value, end - start) + old(buf)[end..]
    {
      if value > MAX_MESSAGE_LEN {
        return false;
      }
      ghost var before := buf;
      var rest := value;
      var i := start;
      while i < end
        invariant start <= i <= end && |buf| == |before|
        invariant buf[end..] == before[end..]
        invariant i < end ==> before[..start] + Padded(value, end - start) == buf[..i] + Padded(rest, end - i)
        invariant i == end ==> before[..start] + Padded(value, end - start) == buf[..i]
      {
        ghost var was := buf;
        var last := i == end - 1;
        buf := buf[i := if last then rest % 256 else rest % 128 + 128];
        assert buf[..i + 1] == was[..i] + [buf[i]];
        if last {
          assert Padded(rest, end - i) == [buf[i]];
        } else {
          assert Padded(rest, end - i) == [buf[i]] + Padded(rest / 128, end - i - 1);
          assert was[..i] + Padded(rest, end - i) == buf[..i + 1] + Padded(rest / 128, end - i - 1);
        }
        assert buf[end..] == was[end..];
        rest := rest / 128;
        i := i + 1;
      }
      assert buf == buf[..end] + buf[end..];
      return true;
    }

    method WriteTag(id: FieldId, wireType: nat)
      requires wireType < 8
      modifies this
      ensures buf == old(buf) + Tag(id, wireType)
    {
      TagParts(id, wireType);
      WriteVarint(id * 8 + wireType);
    }

    method VarintField(id: FieldId, value: u64)
      modifies this
      ensures buf == old(buf) + EncodeField(Field.VarintField(id, value))
    {
      WriteTag(id, VARINT);
      WriteVarint(value);
    }

    method RedundantVarintField(id: FieldId, value: u64)
      modifies this
      ensures buf == old(buf) + EncodeField(WideField(id, value))
    {
      WriteTag(id, VARINT);
      buf := buf + TenBytes(value);
      TenBytesArePadded(value);
    }

    method Fixed64Field(id: FieldId, bits: u64)
      modifies this
      ensures buf == old(buf) + EncodeField(Field.Fixed64Field(id, bits))
    {
      WriteTag(id, FIXED64);
      buf := buf + LittleEndian(bits, 8);
    }

    method StringField(id: FieldId, text: Text)
      modifies this
      ensures buf == old(buf) + EncodeField(Field.StringField(id, text))
    {
      WriteTag(id, DELIMITED);
      WriteVarint(|text|);
      buf := buf + text;
    }

    /** Formatted text is streamed straight into a back-filled message. */
    method FmtField(id: FieldId, text: Text) returns (ok: bool)
      modifies this
      ensures ok == (|text| <= MAX_MESSAGE_LEN)
      ensures ok ==> buf == old(buf) + EncodeField(FormattedField(id, text))
    {
      var token := BeginMessage(id);
      buf := buf + text;
      ok := FinishMessage(token);
      if ok {
        FinishedMessage(old(buf) + Tag(id, DELIMITED), text);
      }
    }

    method BeginMessage(id: FieldId) returns (token: MessageToken)
      modifies this
      ensures buf == old(buf) + Tag(id, DELIMITED) + [0, 0, 0, 0]
      ensures token == MessageToken(|buf| - MESSAGE_LEN_PREFIX_SIZE, |buf|)
    {
      WriteTag(id, DELIMITED);
      var lenPrefix := |buf|;
      buf := buf + [0, 0, 0, 0];
      token := MessageToken(lenPrefix, |buf|);
    }

    /** Back-fills a message's length: nothing outside its four-byte slot changes. */
    method FinishMessage(token: MessageToken) returns (ok: bool)
      requires token.lenPrefix + MESSAGE_LEN_PREFIX_SIZE == token.payloadStart <= |buf|
      modifies this
      ensures ok == (|old(buf)| - token.payloadStart <= MAX_MESSAGE_LEN)
      ensures !ok ==> buf == old(buf)
      ensures ok ==> buf == old(buf)[..token.lenPrefix] + Framed(old(buf)[token.payloadStart..])
    {
      ghost var payload := buf[token.payloadStart..];
      ok := WriteRedundantVarint(|buf| - token.payloadStart, token.lenPrefix, token.payloadStart);
      if ok {
        assert buf == old(buf)[..token.lenPrefix] + (Padded(|payload|, MESSAGE_LEN_PREFIX_SIZE) + payload);
      }
    }

    /** Writes a whole tree; false exactly where the source panics on an oversized message. */
    method WriteField(f: Field) returns (ok: bool)
      modifies this
      ensures ok == Fits(f)
      ensures ok ==> buf == old(buf) + EncodeField(f)
      decreases f, 1
    {
      match f
      case VarintField(id, value) =>
        VarintField(id, value);
        ok := true;
      case WideField(id, value) =>
        RedundantVarintField(id, value);
        ok := true;
      case Fixed64Field(id, bits) =>
        Fixed64Field(id, bits);
        ok := true;
      case StringField(id, text) =>
        StringField(id, text);
        ok := true;
      case FormattedField(id, text) =>
        ok := FmtField(id, text);
      case Message(id, body) =>
        ok := WriteMessage(id, body);
    }

    method WriteMessage(id: FieldId, body: seq<Field>) returns (ok: bool)
      modifies this
      ensures ok == Fits(Message(id, body))
      ensures ok ==> buf == old(buf) + EncodeField(Message(id, body))
      decreases body, 2
    {
      ghost var before := buf;
      var token := BeginMessage(id);
      ok := WriteFields(body);
      if ok {
        ok := CloseMessage(token, before, id, body);
      }
    }

    /** Fills in the length of a message whose fields are all written. */
    method CloseMessage(token: MessageToken, ghost before: seq<byte>, ghost id: FieldId,
                        ghost body: seq<Field>) returns (ok: bool)
      requires FitsAll(body) && buf == before + Tag(id, DELIMITED) + [0, 0, 0, 0] + EncodeAll(body)
      requires token == MessageToken(|before| + |Tag(id, DELIMITED)|,
                                     |before| + |Tag(id, DELIMITED)| + MESSAGE_LEN_PREFIX_SIZE)
      modifies this
      ensures ok == Fits(Message(id, body))
      ensures ok ==> buf == before + EncodeField(Message(id, body))
    {
      MessageCloses(before, id, body);
      ok := FinishMessage(token);
    }

    method WriteFields(fields: seq<Field>) returns (ok: bool)
      modifies this
      ensures ok == FitsAll(fields)
      ensures ok ==> buf == old(buf) + EncodeAll(fields)
      decreases fields, 0
    {
      var i := 0;
      while i < |fields|
        invariant i <= |fields|
        invariant FitsAll(fields[..i])
        invariant buf == old(buf) + EncodeAll(fields[..i])
      {
        var f := fields[i];
        assert fields[..i + 1] == fields[..i] + [f];
        FitsAllAppend(fields[..i], [f]);
        EncodeAllAppend(fields[..i], [f]);
        EncodeAllOne(f);
        ok := WriteField(f);
        if !ok {
          assert fields == fields[..i + 1] + fields[i + 1..];
          FitsAllAppend(fields[..i + 1], fields[i + 1..]);
          return false;
        }
        i := i + 1;
      }
      assert fields[..i] == fields;
      return true;
    }
  }

  lemma FinishedMessage(before: seq<byte>, payload: seq<byte>)
    ensures var unsized := before + [0, 0, 0, 0] + payload;
            unsized[..|before|] == before && unsized[|before| + 4..] == payload
  {
  }

  /** An open message holding its fields becomes the encoded message once its slot is filled. */
  lemma MessageCloses(before: seq<byte>, id: FieldId, body: seq<Field>)
    ensures var start := |before| + |Tag(id, DELIMITED)|;
            var unsized := before + Tag(id, DELIMITED) + [0, 0, 0, 0] + EncodeAll(body);
            unsized[..start] + Framed(unsized[start + 4..]) == before + EncodeField(Message(id, body))
    ensures FitsAll(body) ==> (Fits(Message(id, body)) <==> |EncodeAll(body)| <= MAX_MESSAGE_LEN)
  {
    FinishedMessage(before + Tag(id, DELIMITED), EncodeAll(body));
    assert before + Tag(id, DELIMITED) + Framed(EncodeAll(body)) == before + EncodeField(Message(id, body));
  }

  /** `value >> (7 * sevens)`. */
  function ShiftRight(value: nat, sevens: nat): nat
    decreases sevens, value
  {
    if sevens == 0 then value else ShiftRight(value, sevens - 1) / 128
  }

  function WithContinuation(value: nat): byte {
    value % 128 + 128
  }

  /** The ten bytes of the fixed-width form, each shifted out of the value. */
  function TenBytes(value: u64): seq<byte> {
    [WithContinuation(value),
     WithContinuation(ShiftRight(value, 1)),
     WithContinuation(ShiftRight(value, 2)),
     WithContinuation(ShiftRight(value, 3)),
     WithContinuation(ShiftRight(value, 4)),
     WithContinuation(ShiftRight(value, 5)),
     WithContinuation(ShiftRight(value, 6)),
     WithContinuation(ShiftRight(value, 7)),
     WithContinuation(ShiftRight(value, 8)),
     ShiftRight(value, 9) % 256]
  }

  lemma PaddedFromShift(value: nat, k: nat, n: nat)
    requires n >= 2
    ensures Padded(ShiftRight(value, k), n)
         == [WithContinuation(ShiftRight(value, k))] + Padded(ShiftRight(value, k + 1), n - 1)
  {
  }

  lemma TenBytesArePadded(value: u64)
    ensures TenBytes(value) == Padded(value, MAX_VARINT_LEN)
  {
    LastFive(value);
    var tail := Padded(ShiftRight(value, 5), 5);
    PaddedFromShift(value, 0, 10);
    PaddedFromShift(value, 1, 9);
    PaddedFromShift(value, 2, 8);
    PaddedFromShift(value, 3, 7);
    PaddedFromShift(value, 4, 6);
    assert Padded(ShiftRight(value, 4), 6) == [WithContinuation(ShiftRight(value, 4))] + tail;
    assert Padded(ShiftRight(value, 3), 7) == [WithContinuation(ShiftRight(value, 3)),
                                               WithContinuation(ShiftRight(value, 4))] + tail;
    assert Padded(ShiftRight(value, 2), 8)
        == [WithContinuation(ShiftRight(value, 2)), WithContinuation(ShiftRight(value, 3)),
            WithContinuation(ShiftRight(value, 4))] + tail;
  }

  lemma LastFive(value: nat)
    ensures Padded(ShiftRight(value, 5), 5)
         == [WithContinuation(ShiftRight(value, 5)), WithContinuation(ShiftRight(value, 6)),
             WithContinuation(ShiftRight(value, 7)),
             WithContinuation(ShiftRight(value, 8)), ShiftRight(value, 9) % 256]
  {
    PaddedFromShift(value, 5, 5);
    PaddedFromShift(value, 6, 4);
    PaddedFromShift(value, 7, 3);
    PaddedFromShift(value, 8, 2);
    assert Padded(ShiftRight(value, 9), 1) == [ShiftRight(value, 9) % 256];
  }
}
