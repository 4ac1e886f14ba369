/**
 Interning: strings and source locations become small per-sequence ids ("iids").
 A `Table` is the abstract state of one interning space on the writing side; a
 dictionary of definitions is its counterpart on the reading side.
 */
module Interning {
  import opened Prelude

  /** A non-null address; no object occupies the very last address. */
  type Address = x: int | 0 < x < TWO_TO_THE_64 - 1 witness 1

  /** A `&'static str`: the interner sees its address only. */
  datatype StaticStr = StaticStr(address: Address, text: Text)

  datatype Space = EventNames | AnnotationNames | AnnotationValues | Categories | SourceLocations

  /** What an iid stands for: a string, or a file and line. */
  datatype Payload = Payload(text: Text, line: u32)

  datatype Entry = Entry(iid: nat, payload: Payload)

  /** The keys with an iid, the last iid allocated, and the definitions not yet written. */
  datatype Table = Table(entries: map<nat, Entry>, next: nat, pending: seq<Entry>)

  /** The key of the annotation name "level"; never an address. */
  const LEVEL_NAME_KEY: nat := 0
  const LEVEL_NAME_IID: nat := 1
  const LEVEL_COUNT: nat := 5

  /** Level names and values have the same iid on every sequence. */
  function ReservedIid(space: Space, key: nat): Option<nat> {
    if space == AnnotationNames && key == LEVEL_NAME_KEY then Some(LEVEL_NAME_IID)
    else if space == AnnotationValues then Some(key)
    else None
  }

  /** The number of iids no interner may allocate in this space. */
  function ReservedCount(space: Space): nat {
    match space
    case AnnotationNames => LEVEL_NAME_IID
    case AnnotationValues => LEVEL_COUNT
    case _ => 0
  }

  predicate KeyFits(space: Space, key: nat) {
    match space
    case AnnotationValues => 1 <= key <= LEVEL_COUNT
    case AnnotationNames => key < TWO_TO_THE_64 - 1
    case _ => 0 < key < TWO_TO_THE_64 - 1
  }

  /** Only a source location has a line. */
  predicate PayloadFits(space: Space, payload: Payload) {
    space == SourceLocations || payload.line == 0
  }

  function EmptyTable(space: Space): Table {
    Table(map[], ReservedCount(space), [])
  }

  /** Looks a key up, allocating its iid and queueing its definition on first use. */
  function Refer(t: Table, space: Space, key: nat, payload: Payload): (Table, nat) {
    if key in t.entries then (t, t.entries[key].iid)
    else
      var reserved := ReservedIid(space, key);
      var entry := Entry(if reserved.Some? then reserved.value else t.next + 1, payload);
      (Table(t.entries[key := entry], if reserved.Some? then t.next else t.next + 1, t.pending + [entry]), entry.iid)
  }

  function AllocatedKeys(t: Table, space: Space): set<nat> {
    set k | k in t.entries && ReservedIid(space, k).None?
  }

  /** Reserved keys have their reserved iid; the others lie above all reserved iids. */
  ghost predicate IidInRange(t: Table, space: Space, k: nat)
    requires k in t.entries
  {
    var reserved := ReservedIid(space, k);
    if reserved.Some? then t.entries[k].iid == reserved.value
    else ReservedCount(space) < t.entries[k].iid <= t.next
  }

  ghost predicate IidsDistinct(t: Table) {
    forall a, b :: a in t.entries && b in t.entries && t.entries[a].iid == t.entries[b].iid ==> a == b
  }

  ghost predicate KeysCounted(t: Table, space: Space) {
    && t.next == ReservedCount(space) + |AllocatedKeys(t, space)|
    && forall k :: k in t.entries ==> KeyFits(space, k)
  }

  ghost predicate TableValid(t: Table, space: Space) {
    && KeysCounted(t, space)
    && (forall k :: k in t.entries ==> IidInRange(t, space, k))
    && (forall e :: e in t.pending ==> e.iid <= t.next && PayloadFits(space, e.payload))
    && IidsDistinct(t)
  }

  lemma {:induction false} BoundedSet(keys: set<nat>, bound: nat)
    requires forall k :: k in keys ==> 0 < k <= bound
    ensures |keys| <= bound
    decreases bound
  {
    if bound == 0 {
      assert keys == {};
    } else {
      var fewer := keys - {bound};
      BoundedSet(fewer, bound - 1);
      assert keys <= fewer + {bound};
    }
  }

  /** Iids never overflow a u64: there are not enough addresses. */
  lemma IidsFit(t: Table, space: Space)
    requires TableValid(t, space)
    ensures t.next < TWO_TO_THE_64
    ensures forall k :: k in t.entries ==> 0 < t.entries[k].iid < TWO_TO_THE_64
    ensures forall e :: e in t.pending ==> e.iid < TWO_TO_THE_64
  {
    var keys := AllocatedKeys(t, space);
    assert forall k :: k in t.entries ==> IidInRange(t, space, k);
    if space == AnnotationValues {
      assert keys == {};
    } else {
      BoundedSet(keys, TWO_TO_THE_64 - 2);
    }
  }

  lemma ReferKeepsCount(t: Table, space: Space, key: nat, payload: Payload)
    requires KeysCounted(t, space) && KeyFits(space, key)
    ensures KeysCounted(Refer(t, space, key, payload).0, space)
  {
    var t' := Refer(t, space, key, payload).0;
    if key !in t.entries {
      if ReservedIid(space, key).Some? {
        assert AllocatedKeys(t', space) == AllocatedKeys(t, space);
      } else {
        assert AllocatedKeys(t', space) == AllocatedKeys(t, space) + {key};
      }
    }
  }

  /** A new key's iid is taken by no other key, nor held back for one that may still come. */
  lemma NewIidIsFresh(t: Table, space: Space, key: nat, payload: Payload)
    requires TableValid(t, space) && KeyFits(space, key) && key !in t.entries
    ensures forall k :: k in t.entries ==> t.entries[k].iid != Refer(t, space, key, payload).1
    ensures forall k :: k != key ==> ReservedIid(space, k) != Some(Refer(t, space, key, payload).1)
    ensures ReservedIid(space, key).None? ==> Refer(t, space, key, payload).1 > ReservedCount(space)
  {
    forall k | k in t.entries
      ensures t.entries[k].iid != Refer(t, space, key, payload).1
    {
      assert IidInRange(t, space, k);
    }
  }

  lemma ReferKeepsValid(t: Table, space: Space, key: nat, payload: Payload)
    requires TableValid(t, space) && KeyFits(space, key) && PayloadFits(space, payload)
    ensures TableValid(Refer(t, space, key, payload).0, space)
  {
    var (t', iid) := Refer(t, space, key, payload);
    ReferKeepsCount(t, space, key, payload);
    if key !in t.entries {
      NewIidIsFresh(t, space, key, payload);
      forall k | k in t'.entries
        ensures IidInRange(t', space, k)
      {
        if k != key {
          assert IidInRange(t, space, k);
        }
      }
    }
  }

  /** A reference never disturbs what was referred to before. */
  lemma ReferExtends(t: Table, space: Space, key: nat, payload: Payload)
    ensures var (t', iid) := Refer(t, space, key, payload);
            && key in t'.entries && t'.entries[key].iid == iid
            && Extends(t, t')
            && t'.entries[key].payload == (if key in t.entries then t.entries[key].payload else payload)
  {
  }

  ghost predicate Extends(t: Table, t': Table) {
    forall k :: k in t.entries ==> k in t'.entries && t'.entries[k] == t.entries[k]
  }

  // ------------------------------------------------------------ the reading side

  type Dictionary = map<nat, Payload>

  /** A strict reader: a second definition of the same iid is an error. */
  function Define(d: Dictionary, entry: Entry): Option<Dictionary> {
    if entry.iid in d then None else Some(d[entry.iid := entry.payload])
  }

  function DefineAll(d: Dictionary, entries: seq<Entry>): Option<Dictionary>
    decreases |entries|
  {
    if entries == [] then Some(d)
    else
      match Define(d, entries[0])
      case None => None
      case Some(d') => DefineAll(d', entries[1..])
  }

  lemma {:induction false} DefineAllPush(d: Dictionary, entries: seq<Entry>, entry: Entry)
    requires DefineAll(d, entries).Some?
    ensures DefineAll(d, entries + [entry]) == Define(DefineAll(d, entries).value, entry)
    decreases |entries|
  {
    if entries == [] {
      assert (entries + [entry])[1..] == [];
    } else {
      assert (entries + [entry])[1..] == entries[1..] + [entry];
      DefineAllPush(Define(d, entries[0]).value, entries[1..], entry);
    }
  }

  /** The dictionary holds exactly the table's definitions. */
  ghost predicate IsDictionaryOf(d: Dictionary, t: Table) {
    && (forall k :: k in t.entries ==> t.entries[k].iid in d && d[t.entries[k].iid] == t.entries[k].payload)
    && (forall iid :: iid in d ==> exists k :: k in t.entries && t.entries[k].iid == iid)
  }

  /** The definitions already read, followed by those pending, are exactly the table's. */
  ghost predicate InStep(d: Dictionary, t: Table) {
    DefineAll(d, t.pending).Some? && IsDictionaryOf(DefineAll(d, t.pending).value, t)
  }

  lemma ReferKeepsInStep(d: Dictionary, t: Table, space: Space, key: nat, payload: Payload)
    requires TableValid(t, space) && KeyFits(space, key) && InStep(d, t)
    ensures InStep(d, Refer(t, space, key, payload).0)
  {
    var (t', iid) := Refer(t, space, key, payload);
    if key !in t.entries {
      var all := DefineAll(d, t.pending).value;
      NewIidIsFresh(t, space, key, payload);
      DefineAllPush(d, t.pending, t'.entries[key]);
      var all' := DefineAll(d, t'.pending).value;
      assert all' == all[iid := payload];
      forall i | i in all'
        ensures exists k :: k in t'.entries && t'.entries[k].iid == i
      {
        if i == iid {
          assert t'.entries[key].iid == i;
        } else {
          var k :| k in t.entries && t.entries[k].iid == i;
          assert t'.entries[k].iid == i;
        }
      }
    }
  }

  /** Once the pending definitions are written and read, none is pending. */
  function Flushed(t: Table): Table {
    t.(pending := [])
  }

  lemma FlushKeepsValid(t: Table, space: Space)
    requires TableValid(t, space)
    ensures TableValid(Flushed(t), space)
  {
    assert AllocatedKeys(Flushed(t), space) == AllocatedKeys(t, space);
    forall k | k in t.entries
      ensures IidInRange(Flushed(t), space, k)
    {
      assert IidInRange(t, space, k);
    }
  }

  lemma FlushKeepsInStep(d: Dictionary, t: Table)
    requires InStep(d, t)
    ensures InStep(DefineAll(d, t.pending).value, Flushed(t))
  {
    var d' := DefineAll(d, t.pending).value;
    assert DefineAll(d', []) == Some(d');
    assert IsDictionaryOf(d', Flushed(t)) by {
      forall iid | iid in d'
        ensures exists k :: k in Flushed(t).entries && Flushed(t).entries[k].iid == iid
      {
        var k :| k in t.entries && t.entries[k].iid == iid;
        assert Flushed(t).entries[k].iid == iid;
      }
    }
  }

  lemma EmptyIsValid(space: Space)
    ensures TableValid(EmptyTable(space), space) && InStep(map[], EmptyTable(space))
  {
    assert AllocatedKeys(EmptyTable(space), space) == {};
  }

  // ------------------------------------------------------------ the interner

  /**
   The source's interner: a map from address to iid behind a one-entry cache of the
   most recent address. `table` is the abstract state it represents.
   */
  class Interner {
    var iids: map<Address, u64>
    var next: u64
    var lastKey: nat
    var lastIid: u64
    ghost const space: Space
    ghost var table: Table

    constructor AfterReserved(space: Space)
      requires space !in {AnnotationValues, SourceLocations}
      ensures this.space == space && Valid() && table == EmptyTable(space)
    {
      iids, next, lastKey, lastIid := map[], ReservedCount(space), 0, 0;
      this.space, table := space, EmptyTable(space);
      new;
      EmptyIsValid(space);
    }

    /** The map holds the table's allocated iids, and the cache agrees with the map. */
    ghost predicate Represents(t: Table)
      reads this
    {
      && (forall k: Address :: k in iids <==> k in t.entries && ReservedIid(space, k).None?)
      && (forall k: Address :: k in iids ==> iids[k] == t.entries[k].iid)
      && next == t.next
      && (lastKey != 0 ==> 0 < lastKey < TWO_TO_THE_64 - 1 && lastKey in iids && iids[lastKey] == lastIid)
    }

    ghost predicate Valid()
      reads this
    {
      space !in {AnnotationValues, SourceLocations} && TableValid(table, space) && Represents(table)
    }

    /** The cached lookup does exactly what the abstract reference does. */
    method Intern(value: StaticStr, pending: seq<Entry>) returns (iid: u64, pending': seq<Entry>)
      requires Valid() && pending == table.pending
      modifies this
      ensures Valid() && pending' == table.pending
      ensures (table, iid as nat) == Refer(old(table), space, value.address, Payload(value.text, 0))
    {
      var key := value.address;
      if lastKey == key {
        return lastIid, pending;
      }
      if key in iids {
        lastKey := key;
        lastIid := iids[key];
        return lastIid, pending;
      }
      iid, pending' := InternMiss(value, pending);
    }

    /** The caller has written and cleared the pending definitions. */
    ghost method Flush()
      requires Valid()
      modifies `table
      ensures Valid() && table == Flushed(old(table))
    {
      FlushKeepsValid(table, space);
      table := Flushed(table);
    }

    /** A reserved key's definition, kept outside the map. */
    ghost method Reserve(key: nat, payload: Payload)
      requires Valid() && ReservedIid(space, key).Some? && KeyFits(space, key) && PayloadFits(space, payload)
      modifies `table
      ensures Valid() && table == Refer(old(table), space, key, payload).0
    {
      ReferKeepsValid(table, space, key, payload);
      table := Refer(table, space, key, payload).0;
    }

    method InternMiss(value: StaticStr, pending: seq<Entry>) returns (iid: u64, pending': seq<Entry>)
      requires Valid() && pending == table.pending && value.address !in iids
      modifies this
      ensures Valid() && pending' == table.pending
      ensures (table, iid as nat) == Refer(old(table), space, value.address, Payload(value.text, 0))
    {
      ghost var t' := Refer(table, space, value.address, Payload(value.text, 0)).0;
      ReferKeepsValid(table, space, value.address, Payload(value.text, 0));
      IidsFit(t', space);
      next := next + 1;
      lastKey := value.address;
      lastIid := next;
      iids := iids[value.address := next];
      pending' := pending + [Entry(next, Payload(value.text, 0))];
      iid := next;
      table := t';
    }
  }
}
