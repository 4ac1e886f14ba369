/** The trace reader's parsing loops, proved against the decoding functions. */
module PbReader {
  import opened Prelude
  import opened Varints
  import opened Wire

  /** The value of the `i`-th base-128 digit: `1 << (7 * i)`. */
  function Unit(i: nat): (r: nat)
    ensures r >= 1
  {
    if i == 0 then 1 else 128 * Unit(i - 1)
  }

  lemma UnitNine()
    ensures 2 * Unit(9) == TWO_TO_THE_64
  {
    assert Unit(3) == 0x20_0000;
    assert Unit(6) == 128 * (128 * (128 * Unit(3)));
    assert Unit(9) == 128 * (128 * (128 * Unit(6)));
  }

  lemma {:induction false} UnitBelowNine(i: nat)
    requires i < 9
    ensures 128 * Unit(i) <= Unit(9)
    decreases 9 - i
  {
    assert Unit(i + 1) == 128 * Unit(i);
    if i < 8 {
      UnitBelowNine(i + 1);
    }
  }

  /** A u64 `<<` by `7 * i`: bits past the 64th are lost. */
  function ShiftedUp(digit: nat, i: nat): nat {
    digit * Unit(i) % TWO_TO_THE_64
  }

  lemma RemainderIs(x: int, q: int, r: nat)
    requires x == q * TWO_TO_THE_64 + r && r < TWO_TO_THE_64
    ensures x % TWO_TO_THE_64 == r
  {
  }

  lemma EarlyDigit(value: nat, digit: nat, i: nat)
    requires i < 9 && digit < 128 && value < Unit(i)
    ensures ShiftedUp(digit, i) == digit * Unit(i)
    ensures value + ShiftedUp(digit, i) < Unit(i + 1) && Unit(i + 1) < TWO_TO_THE_64
  {
    UnitNine();
    UnitBelowNine(i);
    assert digit * Unit(i) <= 127 * Unit(i);
    assert Unit(i + 1) == 128 * Unit(i);
    RemainderIs(digit * Unit(i), 0, digit * Unit(i));
  }

  /** The tenth digit keeps only its lowest bit, as truncating the whole sum would. */
  lemma LastDigit(value: nat, digit: nat)
    requires value < Unit(9)
    ensures value + ShiftedUp(digit, 9) == (value + digit * Unit(9)) % TWO_TO_THE_64
  {
    UnitNine();
    var half := Unit(9);
    var q, r := digit / 2, digit % 2;
    assert digit * half == q * TWO_TO_THE_64 + r * half by {
      assert digit == 2 * q + r;
      assert (2 * q) * half == q * (2 * half);
    }
    assert 0 <= value + r * half < TWO_TO_THE_64;
    RemainderIs(digit * half, q, r * half);
    RemainderIs(value + digit * half, q, value + r * half);
  }

  /** A decoding that continues above `value`, whose next digit weighs `unit`. */
  function Resume(value: nat, unit: nat, tail: Option<(nat, seq<byte>)>): Option<(nat, seq<byte>)> {
    match tail
    case None => None
    case Some((high, rest)) => Some((value + unit * high, rest))
  }

  lemma ResumeShifts(value: nat, unit: nat, digit: nat, tail: Option<(nat, seq<byte>)>)
    ensures Resume(value, unit, Resume(digit, 128, tail)) == Resume(value + digit * unit, 128 * unit, tail)
  {
    if tail.Some? {
      var high := tail.value.0;
      assert unit * (digit + 128 * high) == digit * unit + 128 * unit * high;
    }
  }

  /** The loop invariant: `value` holds the first `i` digits of `data`. */
  ghost predicate HasRead(data: seq<byte>, i: nat, value: nat) {
    i <= |data| && i < MAX_VARINT_LEN && value < Unit(i) <= Unit(9)
    && Digits(data, MAX_VARINT_LEN) == Resume(value, Unit(i), Digits(data[i..], MAX_VARINT_LEN - i))
  }

  lemma ReadContinuation(data: seq<byte>, i: nat, value: nat)
    requires HasRead(data, i, value) && i < |data| && data[i] >= 128
    ensures i == 9 ==> Decode(data) == None
    ensures i < 9 ==> HasRead(data, i + 1, value + ShiftedUp(data[i] % 128, i))
    ensures value + ShiftedUp(data[i] % 128, i) < TWO_TO_THE_64
  {
    assert data[i..][1..] == data[i + 1..];
    var digit := data[i] - 128;
    var tail := Digits(data[i + 1..], MAX_VARINT_LEN - i - 1);
    assert Digits(data[i..], MAX_VARINT_LEN - i) == Resume(digit, 128, tail);
    ResumeShifts(value, Unit(i), digit, tail);
    if i < 9 {
      EarlyDigit(value, digit, i);
      UnitBelowNine(i);
    } else {
      LastDigit(value, digit);
    }
  }

  lemma LastBits(digit: nat, i: nat, value: nat)
    requires i < MAX_VARINT_LEN && value < Unit(i) <= Unit(9) && digit < 128
    ensures value + ShiftedUp(digit, i) == (value + digit * Unit(i)) % TWO_TO_THE_64
  {
    if i < 9 {
      EarlyDigit(value, digit, i);
      RemainderIs(value + digit * Unit(i), 0, value + digit * Unit(i));
    } else {
      LastDigit(value, digit);
    }
  }

  lemma ReadLast(data: seq<byte>, i: nat, value: nat)
    requires HasRead(data, i, value) && i < |data| && data[i] < 128
    ensures Decode(data) == Some((value + ShiftedUp(data[i], i), data[i + 1..]))
  {
    var digit := data[i];
    assert data[i..][1..] == data[i + 1..];
    assert Digits(data[i..], MAX_VARINT_LEN - i) == Some((digit, data[i + 1..]));
    assert Unit(i) * digit == digit * Unit(i);
    LastBits(digit, i, value);
  }

  /** The reader's varint loop; `None` where it panics. */
  method ReadVarint(data: seq<byte>) returns (r: Option<(u64, seq<byte>)>)
    ensures r == Decode(data)
  {
    var value: u64 := 0;
    var i := 0;
    while i < |data|
      invariant HasRead(data, i, value)
    {
      if data[i] < 128 {
        ReadLast(data, i, value);
        return Some((value + ShiftedUp(data[i], i), data[i + 1..]));
      }
      ReadContinuation(data, i, value);
      if i == MAX_VARINT_LEN - 1 {
        return None;
      }
      value := value + ShiftedUp(data[i] % 128, i);
      i := i + 1;
    }
    return None;
  }

  /** The payload of one field; `None` where the reader panics. */
  method ReadValue(id: nat, wireType: nat, data: seq<byte>) returns (r: Option<(WireField, seq<byte>)>)
    ensures r == ParseValue(id, wireType, data)
  {
    if wireType == VARINT {
      var number := ReadVarint(data);
      return if number.None? then None else Some((VarintWire(id, number.value.0), number.value.1));
    } else if wireType == FIXED64 {
      return if |data| < 8 then None else Some((Fixed64Wire(id, FromLittleEndian(data[..8])), data[8..]));
    } else if wireType == DELIMITED {
      var len := ReadVarint(data);
      if len.None? || |len.value.1| < len.value.0 {
        return None;
      }
      return Some((BytesWire(id, len.value.1[..len.value.0]), len.value.1[len.value.0..]));
    } else {
      return None;
    }
  }

  /** The reader's field loop; `None` where it panics. */
  method ParseMessage(data: seq<byte>) returns (r: Option<seq<WireField>>)
    ensures r == Parse(data)
  {
    var rest := data;
    var fields := [];
    assert forall more: seq<WireField> :: fields + more == more;
    while rest != []
      invariant Parse(data) == Prepend(fields, Parse(rest))
      decreases |rest|
    {
      var tag := ReadVarint(rest);
      if tag.None? {
        return None;
      }
      var field := ReadValue(tag.value.0 / 8 % TWO_TO_THE_32, tag.value.0 % 8, tag.value.1);
      if field.None? {
        return None;
      }
      PrependOne(fields, field.value.0, Parse(field.value.1));
      fields := fields + [field.value.0];
      rest := field.value.1;
    }
    assert fields + [] == fields;
    return Some(fields);
  }

  function Prepend(fields: seq<WireField>, others: Option<seq<WireField>>): Option<seq<WireField>> {
    match others
    case None => None
    case Some(more) => Some(fields + more)
  }

  lemma PrependOne(fields: seq<WireField>, field: WireField, others: Option<seq<WireField>>)
    ensures Prepend(fields, Prepend([field], others)) == Prepend(fields + [field], others)
  {
    if others.Some? {
      assert fields + ([field] + others.value) == fields + [field] + others.value;
    }
  }
}
