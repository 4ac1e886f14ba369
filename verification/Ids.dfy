/** Shared id counters: each call is one or two atomic increments, in any interleaving. */
module Ids {
  import opened Prelude

  /** The nonzero 64-bit ids. */
  const NONZERO_IDS: nat := TWO_TO_THE_64 - 1

  function Wrapped(value: nat): u64 {
    value % TWO_TO_THE_64
  }

  /** What one `fetch_add` returns and leaves. */
  class Counter {
    var next: u64

    constructor (base: u64)
      ensures next == base
    {
      next := base;
    }

    method FetchAdd() returns (value: u64)
      modifies this
      ensures value == old(next) && next == Wrapped(old(next) + 1)
    {
      value := next;
      next := Wrapped(next + 1);
    }

    /** `alloc_uuid` and `alloc_flow_id`: zero is skipped, and the loop ends even there. */
    method Alloc() returns (id: u64)
      modifies this
      ensures id != 0 && id == NextId(old(next)) && NextId(next) == SuccessorId(id)
    {
      ghost var base := next;
      while true
        invariant next == base || (base == 0 && next == 1)
        decreases if next == 0 then 1 else 0
      {
        id := FetchAdd();
        if id != 0 {
          return;
        }
      }
    }
  }

  /** The id that a counter yields next, and the one after an id. */
  function NextId(next: u64): u64 {
    if next == 0 then 1 else next
  }

  function SuccessorId(id: u64): u64 {
    if id == NONZERO_IDS then 1 else id + 1
  }

  /** The n-th id handed out from a base: round and round the nonzero ids. */
  function NthId(base: u64, n: nat): u64 {
    (NextId(base) - 1 + n) % NONZERO_IDS + 1
  }

  lemma ModSucc(x: nat, m: nat)
    requires m > 1
    ensures (x + 1) % m == if x % m == m - 1 then 0 else x % m + 1
  {
    var q, r := x / m, x % m;
    if r == m - 1 {
      assert x + 1 == (q + 1) * m;
      ModUnique(x + 1, m, q + 1, 0);
    } else {
      ModUnique(x + 1, m, q, r + 1);
    }
  }

  lemma ModUnique(x: nat, m: nat, q: nat, r: nat)
    requires m > 0 && x == q * m + r && r < m
    ensures x % m == r
  {
    var d := x / m - q;
    assert x == (x / m) * m + x % m;
    assert d * m == (x / m) * m - q * m;
    BetweenMultiples(d, m, r - x % m);
  }

  lemma BetweenMultiples(d: int, m: nat, difference: int)
    requires m > 0 && d * m == difference && -(m as int) < difference < m
    ensures difference == 0
  {
    if d != 0 {
      FarFromZero(d, m);
      assert false;
    }
  }

  lemma FarFromZero(d: int, m: nat)
    requires d != 0
    ensures d * m >= m || d * m <= -(m as int)
  {
    if d > 0 {
      assert (d - 1) * m >= 0;
    } else {
      assert (-1 - d) * m >= 0;
    }
  }

  lemma NthSuccessor(base: u64, n: nat)
    ensures NthId(base, n + 1) == SuccessorId(NthId(base, n))
  {
    ModSucc(NextId(base) - 1 + n, NONZERO_IDS);
  }

  // ------------------------------------------------------------ any interleaving

  /** The values of the first increments, whoever makes them. */
  function Fetched(base: u64, increments: nat): (values: seq<u64>)
    ensures |values| == increments
  {
    seq<u64>(increments, i requires 0 <= i < increments => Wrapped(base + i))
  }

  /** The ids that calls return: the nonzero ones. */
  function Returned(values: seq<u64>): seq<u64> {
    if values == [] then []
    else
      var others := Returned(values[..|values| - 1]);
      if values[|values| - 1] != 0 then others + [values[|values| - 1]] else others
  }

  lemma WrapSucc(x: nat)
    ensures Wrapped(x + 1) == if Wrapped(x) == NONZERO_IDS then 0 else Wrapped(x) + 1
  {
    ModSucc(x, TWO_TO_THE_64);
  }

  /** The ids are the first of the cycle. */
  ghost predicate InCycle(base: u64, ids: seq<u64>) {
    forall r: nat :: r < |ids| ==> ids[r] == NthId(base, r)
  }

  lemma InCyclePush(base: u64, ids: seq<u64>, id: u64)
    requires InCycle(base, ids) && id == NthId(base, |ids|)
    ensures InCycle(base, ids + [id])
  {
  }

  lemma FirstOfCycle(base: u64)
    ensures NextId(Wrapped(base)) == NthId(base, 0)
  {
  }

  /** After any number of increments, the ids returned are the first of the cycle, and the next is known. */
  lemma {:induction false} ReturnedInOrder(base: u64, increments: nat)
    ensures var ids := Returned(Fetched(base, increments));
            InCycle(base, ids) && NextId(Wrapped(base + increments)) == NthId(base, |ids|)
    decreases increments
  {
    if increments == 0 {
      FirstOfCycle(base);
    } else {
      ReturnedInOrder(base, increments - 1);
      FetchedPush(base, increments - 1);
      var sum, before := base + (increments - 1), Returned(Fetched(base, increments - 1));
      NextAfter(base, sum, |before|);
      if Wrapped(sum) != 0 {
        InCyclePush(base, before, Wrapped(sum));
      }
    }
  }

  /** One increment more. */
  lemma FetchedPush(base: u64, increments: nat)
    ensures var value := Wrapped(base + increments);
            var before := Returned(Fetched(base, increments));
            Returned(Fetched(base, increments + 1)) == if value != 0 then before + [value] else before
  {
    assert Fetched(base, increments + 1)[..increments] == Fetched(base, increments);
  }

  lemma NextAfter(base: u64, sum: nat, n: nat)
    requires NextId(Wrapped(sum)) == NthId(base, n)
    ensures NextId(Wrapped(sum + 1)) == if Wrapped(sum) != 0 then NthId(base, n + 1) else NthId(base, n)
  {
    WrapSucc(sum);
    NthSuccessor(base, n);
  }

  lemma NthIdsDiffer(base: u64, i: nat, j: nat)
    requires i < j < NONZERO_IDS
    ensures NthId(base, i) != NthId(base, j) && NthId(base, i) != 0
  {
    var first := if base == 0 then 0 else base - 1;
    assert first < NONZERO_IDS;
    assert (first + i) % NONZERO_IDS == if first + i < NONZERO_IDS then first + i else first + i - NONZERO_IDS;
    assert (first + j) % NONZERO_IDS == if first + j < NONZERO_IDS then first + j else first + j - NONZERO_IDS;
  }

  /**
   However calls interleave, and across the wrap: the ids returned by any number of
   calls up to 2^64 - 1 are distinct and nonzero.
   */
  lemma IdsAreFresh(base: u64, increments: nat)
    requires |Returned(Fetched(base, increments))| <= NONZERO_IDS
    ensures var ids := Returned(Fetched(base, increments));
            && (forall r: nat :: r < |ids| ==> ids[r] != 0)
            && (forall q: nat, r: nat :: q < r < |ids| ==> ids[q] != ids[r])
  {
    var ids := Returned(Fetched(base, increments));
    ReturnedInOrder(base, increments);
    forall q: nat, r: nat | q < r < |ids|
      ensures ids[q] != ids[r]
    {
      NthIdsDiffer(base, q, r);
    }
  }

  // ------------------------------------------------------------ sequence ids

  /** The n-th sequence id: a 32-bit counter that skips nothing. */
  function NthSequenceId(base: u32, n: nat): u32 {
    (base + n) % TWO_TO_THE_32
  }

  lemma NextSequenceId(base: u32, n: nat)
    ensures NthSequenceId(base, n + 1) == (NthSequenceId(base, n) + 1) % TWO_TO_THE_32
  {
    ModSucc(base + n, TWO_TO_THE_32);
  }

  /** `alloc_sequence_id`: a 32-bit counter. `calls` counts the ids handed out from `base`. */
  class SequenceCounter {
    var next: u32
    ghost const base: u32
    ghost var calls: nat

    constructor (base: u32)
      ensures Valid() && this.base == base && calls == 0
    {
      next, this.base, calls := base, base, 0;
    }

    ghost predicate Valid()
      reads this
    {
      next == NthSequenceId(base, calls)
    }

    method AllocRaw() returns (id: u32)
      requires Valid()
      modifies this
      ensures Valid() && calls == old(calls) + 1 && id == NthSequenceId(base, old(calls))
    {
      id := next;
      next := (next + 1) % TWO_TO_THE_32;
      NextSequenceId(base, calls);
      calls := calls + 1;
    }
  }

  /** Sequence ids are distinct for 2^32 threads; one of them is zero exactly when the counter wraps. */
  lemma SequenceIds(base: u32, i: nat, j: nat)
    requires i < j < TWO_TO_THE_32
    ensures NthSequenceId(base, i) != NthSequenceId(base, j)
    ensures NthSequenceId(base, i) == 0 <==> base + i == TWO_TO_THE_32 || base + i == 0
  {
    assert NthSequenceId(base, i) == if base + i < TWO_TO_THE_32 then base + i else base + i - TWO_TO_THE_32;
    assert NthSequenceId(base, j) == if base + j < TWO_TO_THE_32 then base + j else base + j - TWO_TO_THE_32;
  }
}
