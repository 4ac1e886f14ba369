/**
 Base-128 varints: the minimal form, the fixed-width redundant form, and the
 reader's decoder.
 */
module Varints {
  import opened Prelude

  /** The most bytes a u64 varint can occupy. */
  const MAX_VARINT_LEN: nat := 10

  /** The number of values that fit in an `n`-byte varint. */
  function Cap(n: nat): (r: nat)
    ensures r >= 1
  {
    if n == 0 then 1 else 128 * Cap(n - 1)
  }

  lemma CapValues()
    ensures Cap(4) == 0x1000_0000 && Cap(10) >= TWO_TO_THE_64
  {
    assert Cap(2) == 128 * (128 * Cap(0));
    assert Cap(4) == 128 * (128 * Cap(2));
    assert Cap(6) == 128 * (128 * Cap(4));
    assert Cap(8) == 128 * (128 * Cap(6));
    assert Cap(10) == 128 * (128 * Cap(8));
  }

  /** The minimal base-128 encoding. */
  function Varint(value: nat): (bytes: seq<byte>)
    ensures |bytes| >= 1
  {
    if value < 128 then [value] else [value % 128 + 128] + Varint(value / 128)
  }

  /** The `n`-byte redundant encoding: every byte but the last has its continuation bit set. */
  function Padded(value: nat, n: nat): (bytes: seq<byte>)
    requires n >= 1
    ensures |bytes| == n
    decreases n, value
  {
    if n == 1 then [value % 256] else [value % 128 + 128] + Padded(value / 128, n - 1)
  }

  /**
   The base-128 digits at the front of `data`, least significant first, with room
   for at most `limit` of them, and what follows them. `None` is where the reader
   panics: on truncated input, and on a shift past the 64th bit.
   */
  function Digits(data: seq<byte>, limit: nat): (r: Option<(nat, seq<byte>)>)
    ensures r.Some? ==> |r.value.1| < |data|
    decreases limit, data
  {
    if data == [] || limit == 0 then None
    else if data[0] < 128 then Some((data[0], data[1..]))
    else
      match Digits(data[1..], limit - 1)
      case None => None
      case Some((high, rest)) => Some((data[0] - 128 + 128 * high, rest))
  }

  /** The reader's varint decoder: bits shifted out of a u64 are lost. */
  function Decode(data: seq<byte>): (r: Option<(u64, seq<byte>)>)
    ensures r.Some? ==> |r.value.1| < |data|
  {
    match Digits(data, MAX_VARINT_LEN)
    case None => None
    case Some((value, rest)) => Some((value % TWO_TO_THE_64, rest))
  }

  lemma DecodeFits(data: seq<byte>, value: u64, rest: seq<byte>)
    requires Digits(data, MAX_VARINT_LEN) == Some((value, rest))
    ensures Decode(data) == Some((value, rest))
  {
  }

  lemma DigitsContinued(digit: nat, tail: seq<byte>, limit: nat)
    requires digit < 128 && limit >= 1
    requires Digits(tail, limit - 1).Some?
    ensures var (high, rest) := Digits(tail, limit - 1).value;
            Digits([digit + 128] + tail, limit) == Some((digit + 128 * high, rest))
  {
    var data: seq<byte> := [digit + 128] + tail;
    assert data[1..] == tail;
  }

  lemma DigitsLast(digit: nat, rest: seq<byte>, limit: nat)
    requires limit >= 1 && digit < 128
    ensures Digits([digit] + rest, limit) == Some((digit, rest))
  {
    var data: seq<byte> := [digit] + rest;
    assert data[1..] == rest;
  }

  lemma {:induction false} MinimalDigits(value: nat, limit: nat, rest: seq<byte>)
    requires limit >= 1 && value < Cap(limit)
    ensures Digits(Varint(value) + rest, limit) == Some((value, rest))
    ensures |Varint(value)| <= limit
    decreases limit
  {
    if value < 128 {
      DigitsLast(value, rest, limit);
    } else {
      var high, digit := value / 128, value % 128;
      assert Cap(0) == 1;
      MinimalDigits(high, limit - 1, rest);
      DigitsContinued(digit, Varint(high) + rest, limit);
      assert Varint(value) + rest == [digit + 128] + (Varint(high) + rest);
    }
  }

  lemma PaddedSplits(value: nat, n: nat)
    requires n >= 2
    ensures Padded(value, n) == [value % 128 + 128] + Padded(value / 128, n - 1)
    ensures value < Cap(n) ==> value / 128 < Cap(n - 1)
  {
  }

  lemma {:induction false} RedundantDigits(value: nat, n: nat, limit: nat, rest: seq<byte>)
    requires 1 <= n <= limit && value < Cap(n)
    ensures Digits(Padded(value, n) + rest, limit) == Some((value, rest))
    decreases n
  {
    var data := Padded(value, n) + rest;
    if n == 1 {
      assert Cap(1) == 128 * Cap(0);
      assert data == [value] + rest;
      DigitsLast(value, rest, limit);
    } else {
      var high, digit := value / 128, value % 128;
      PaddedSplits(value, n);
      var tail := Padded(high, n - 1) + rest;
      RedundantDigits(high, n - 1, limit - 1, rest);
      DigitsContinued(digit, tail, limit);
      assert data == [digit + 128] + tail;
    }
  }

  lemma {:induction false} MinimalDigitsAreFewest(data: seq<byte>, limit: nat)
    requires Digits(data, limit).Some?
    ensures var (value, rest) := Digits(data, limit).value; |Varint(value)| <= |data| - |rest|
    decreases limit
  {
    if data[0] >= 128 {
      MinimalDigitsAreFewest(data[1..], limit - 1);
      var (high, rest) := Digits(data[1..], limit - 1).value;
      var value := data[0] - 128 + 128 * high;
      assert Digits(data, limit) == Some((value, rest));
      if value >= 128 {
        assert value / 128 == high;
      }
    }
  }

  lemma {:induction false} VarintGrows(a: nat, b: nat)
    requires a <= b
    ensures |Varint(a)| <= |Varint(b)|
    decreases b
  {
    if a >= 128 {
      VarintGrows(a / 128, b / 128);
    }
  }

  /**
   No encoding the reader accepts is shorter than the minimal one of the u64 it decodes
   to, not even one whose topmost bits the reader loses.
   */
  lemma MinimalIsShortest(data: seq<byte>)
    requires Decode(data).Some?
    ensures var (value, rest) := Decode(data).value; |Varint(value)| <= |data| - |rest|
  {
    MinimalDigitsAreFewest(data, MAX_VARINT_LEN);
    var (value, rest) := Digits(data, MAX_VARINT_LEN).value;
    VarintGrows(value % TWO_TO_THE_64, value);
  }

  lemma MinimalRoundTrip(value: u64, rest: seq<byte>)
    ensures Decode(Varint(value) + rest) == Some((value, rest))
    ensures |Varint(value)| <= MAX_VARINT_LEN
  {
    CapValues();
    MinimalDigits(value, MAX_VARINT_LEN, rest);
    DecodeFits(Varint(value) + rest, value, rest);
  }

  lemma RedundantRoundTrip(value: u64, n: nat, rest: seq<byte>)
    requires 1 <= n <= MAX_VARINT_LEN && value < Cap(n)
    ensures Decode(Padded(value, n) + rest) == Some((value, rest))
  {
    RedundantDigits(value, n, MAX_VARINT_LEN, rest);
    DecodeFits(Padded(value, n) + rest, value, rest);
  }

  /**
   A u64's encodings agree: the minimal form, the ten-byte form and, for values
   below 2^28, the four-byte form decode to the same value, each consumed exactly.
   The minimal form never takes more than ten bytes.
   */
  lemma EncodingsAgree(value: u64, rest: seq<byte>)
    ensures Decode(Varint(value) + rest) == Some((value, rest))
    ensures |Varint(value)| <= MAX_VARINT_LEN
    ensures Decode(Padded(value, 10) + rest) == Some((value, rest))
    ensures value < 0x1000_0000 ==> Decode(Padded(value, 4) + rest) == Some((value, rest))
  {
    CapValues();
    MinimalRoundTrip(value, rest);
    RedundantRoundTrip(value, 10, rest);
    if value < 0x1000_0000 {
      RedundantRoundTrip(value, 4, rest);
    }
  }
}
