/** The inline fast tier: four slots searched in order. */
module ActiveSlots {
  import opened Prelude

  const FAST_SLOTS: nat := 4

  datatype ActiveEntry<D> = ActiveEntry(spanId: nat, data: D)

  type Entries<D> = seq<Option<ActiveEntry<D>>>

  predicate IsAt<D>(entries: Entries<D>, id: nat, k: nat) {
    k < |entries| && entries[k].Some? && entries[k].value.spanId == id
  }

  ghost predicate Present<D>(entries: Entries<D>, id: nat) {
    exists k: nat :: IsAt(entries, id, k)
  }

  /** No span is in two slots. */
  ghost predicate OncePerSpan<D>(entries: Entries<D>) {
    forall id: nat, j: nat, k: nat :: IsAt(entries, id, j) && IsAt(entries, id, k) ==> j == k
  }

  /** The first free slot, or the number of slots. */
  function FirstFree<D>(entries: Entries<D>): (k: nat)
    ensures k <= |entries|
    ensures k < |entries| ==> entries[k] == None
    ensures forall j :: 0 <= j < k ==> entries[j].Some?
  {
    if entries == [] || entries[0].None? then 0 else 1 + FirstFree(entries[1..])
  }

  lemma {:induction false} FirstFreeIs<D>(entries: Entries<D>, k: nat)
    requires k <= |entries| && (k < |entries| ==> entries[k].None?) && forall j :: 0 <= j < k ==> entries[j].Some?
    ensures FirstFree(entries) == k
  {
    if k > 0 {
      FirstFreeIs(entries[1..], k - 1);
    }
  }

  /** The first slot holding the span, or the number of slots. */
  function IndexOf<D>(entries: Entries<D>, id: nat): (k: nat)
    ensures k <= |entries|
    ensures k < |entries| ==> IsAt(entries, id, k)
    ensures forall j: nat :: j < k ==> !IsAt(entries, id, j)
  {
    if entries == [] || IsAt(entries, id, 0) then 0
    else
      assert forall j: nat :: 0 < j < |entries| ==> (IsAt(entries, id, j) <==> IsAt(entries[1..], id, j - 1));
      1 + IndexOf(entries[1..], id)
  }

  lemma {:induction false} IndexOfIs<D>(entries: Entries<D>, id: nat, k: nat)
    requires k <= |entries| && (k < |entries| ==> IsAt(entries, id, k))
    requires forall j: nat :: j < k ==> !IsAt(entries, id, j)
    ensures IndexOf(entries, id) == k
  {
    if k > 0 {
      assert forall j: nat :: j < k - 1 ==> IsAt(entries, id, j + 1) == IsAt(entries[1..], id, j);
      IndexOfIs(entries[1..], id, k - 1);
    }
  }

  lemma AbsentMeansNoIndex<D>(entries: Entries<D>, id: nat)
    ensures IndexOf(entries, id) == |entries| <==> !Present(entries, id)
  {
    if IndexOf(entries, id) == |entries| {
      assert forall k: nat :: k < |entries| ==> !IsAt(entries, id, k);
    }
  }

  /** Filling a free slot with a new span, and emptying a span's slot. */
  lemma SlotFilled<D>(entries: Entries<D>, id: nat, data: D, j: nat)
    requires OncePerSpan(entries) && j < |entries| && entries[j] == None && !Present(entries, id)
    ensures var filled := entries[j := Some(ActiveEntry(id, data))];
            && OncePerSpan(filled)
            && forall other: nat, k: nat :: IsAt(filled, other, k)
                <==> IsAt(entries, other, k) || (other == id && k == j)
  {
    var filled := entries[j := Some(ActiveEntry(id, data))];
    forall other: nat, k: nat
      ensures IsAt(filled, other, k) <==> IsAt(entries, other, k) || (other == id && k == j)
    {
    }
  }

  lemma SlotEmptied<D>(entries: Entries<D>, id: nat, j: nat)
    requires OncePerSpan(entries) && IsAt(entries, id, j)
    ensures OncePerSpan(entries[j := None])
    ensures forall other: nat, k: nat :: IsAt(entries[j := None], other, k) <==> IsAt(entries, other, k) && other != id
  {
    forall other: nat, k: nat
      ensures IsAt(entries[j := None], other, k) <==> IsAt(entries, other, k) && other != id
    {
      assert IsAt(entries, id, k) ==> k == j;
    }
    var emptied := entries[j := None];
    forall other: nat, k: nat, l: nat | IsAt(emptied, other, k) && IsAt(emptied, other, l)
      ensures k == l
    {
      assert IsAt(entries, other, k) && IsAt(entries, other, l);
    }
  }

  class ActiveSlots<D> {
    const entries: array<Option<ActiveEntry<D>>>

    constructor ()
      ensures fresh(entries) && entries[..] == seq(FAST_SLOTS, i => None)
    {
      entries := new Option<ActiveEntry<D>>[FAST_SLOTS](i => None);
    }

    /** Takes the first free slot; with none the data goes back to the caller. */
    method Insert(id: nat, data: D) returns (refused: Option<D>)
      modifies entries
      ensures var k := FirstFree(old(entries[..]));
              if k < entries.Length then refused == None
                 && entries[..] == old(entries[..])[k := Some(ActiveEntry(id, data))]
              else refused == Some(data) && entries[..] == old(entries[..])
    {
      var k := 0;
      while k < entries.Length
        invariant k <= entries.Length
        invariant forall j :: 0 <= j < k ==> entries[j].Some?
        invariant entries[..] == old(entries[..])
      {
        if entries[k].None? {
          FirstFreeIs(entries[..], k);
          entries[k] := Some(ActiveEntry(id, data));
          return None;
        }
        k := k + 1;
      }
      FirstFreeIs(entries[..], k);
      refused := Some(data);
    }

    method Index(id: nat) returns (index: Option<nat>)
      ensures var k := IndexOf(entries[..], id);
              index == if k < entries.Length then Some(k) else None
      ensures index.None? <==> !Present(entries[..], id)
    {
      AbsentMeansNoIndex(entries[..], id);
      var k := 0;
      while k < entries.Length
        invariant k <= entries.Length
        invariant forall j: nat :: j < k ==> !IsAt(entries[..], id, j)
      {
        if entries[k].Some? && entries[k].value.spanId == id {
          IndexOfIs(entries[..], id, k);
          return Some(k);
        }
        k := k + 1;
      }
      IndexOfIs(entries[..], id, k);
      index := None;
    }

    /** Removes the span: afterwards it is in no slot. */
    method Take(id: nat) returns (data: Option<D>)
      requires OncePerSpan(entries[..])
      modifies entries
      ensures OncePerSpan(entries[..]) && !Present(entries[..], id)
      ensures data.Some? <==> Present(old(entries[..]), id)
      ensures var k := IndexOf(old(entries[..]), id);
              if k < entries.Length then
                data == Some(old(entries[k]).value.data) && entries[..] == old(entries[..])[k := None]
              else data == None && entries[..] == old(entries[..])
    {
      var index := Index(id);
      if index.None? {
        return None;
      }
      data := Some(entries[index.value].value.data);
      assert IsAt(entries[..], id, index.value);
      ghost var was := entries[..];
      entries[index.value] := None;
      assert forall other: nat, j: nat :: IsAt(entries[..], other, j) ==> IsAt(was, other, j) && j != index.value;
    }
  }
}
