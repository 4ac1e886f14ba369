/** Machine integers, bytes and the option type shared by every module. */
module Prelude {

  const TWO_TO_THE_64: nat := 0x1_0000_0000_0000_0000
  const TWO_TO_THE_32: nat := 0x1_0000_0000

  /** A Rust `u8`. */
  type byte = b: int | 0 <= b < 256

  /** A Rust `u64`. Wrap-around, where the source relies on it, is written out. */
  type u64 = x: int | 0 <= x < TWO_TO_THE_64

  /** A Rust `u32`. */
  type u32 = x: int | 0 <= x < TWO_TO_THE_32

  /** A Rust string's bytes: its length is a `usize`. */
  type Text = s: seq<byte> | |s| < TWO_TO_THE_64 witness []

  datatype Option<+T> = None | Some(value: T)

  /** Rust's `u64::saturating_sub`. */
  function SaturatingSub(a: int, b: int): (r: nat)
    ensures a >= b ==> r == a - b
    ensures a <= b ==> r == 0
  {
    if a >= b then a - b else 0
  }

  /** The bytes of a text that is plain ASCII. */
  function Ascii(text: string): (bytes: seq<byte>)
    requires forall i :: 0 <= i < |text| ==> text[i] < 128 as char
    ensures |bytes| == |text|
  {
    seq(|text|, i requires 0 <= i < |text| => text[i] as int)
  }

  /** The concatenation of a list of sequences. */
  function Concat<T>(parts: seq<seq<T>>): seq<T> {
    if parts == [] then [] else parts[0] + Concat(parts[1..])
  }

  lemma {:induction false} ConcatAppend<T>(a: seq<seq<T>>, b: seq<seq<T>>)
    ensures Concat(a + b) == Concat(a) + Concat(b)
  {
    if a == [] {
      assert a + b == b;
    } else {
      assert (a + b)[1..] == a[1..] + b;
      ConcatAppend(a[1..], b);
      assert Concat(a) + Concat(b) == a[0] + (Concat(a[1..]) + Concat(b));
    }
  }

  lemma ConcatPush<T>(a: seq<seq<T>>, last: seq<T>)
    ensures Concat(a + [last]) == Concat(a) + last
  {
    ConcatAppend(a, [last]);
    assert [last][1..] == [];
    assert Concat([last]) == last;
  }
}
