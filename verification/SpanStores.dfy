/**
 The span store under concurrency: two tiers searched in two separate steps, behind
 which every operation is one atomic operation on a plain map. `Run` interleaves any
 number of callbacks; `contents` is the plain map and `absent` is history.
 */
module SpanStores {
  import opened Prelude
  import opened ActiveSlots

  const FAST_SHARDS: nat := 8

  /** Uninterpreted span data. */
  type Data = nat

  /** A shard and the callback holding its lock through a guard, if any. */
  datatype Shard = Shard(entries: Entries<Data>, holder: Option<nat>)

  datatype Mode = Read | Write | Remove

  /**
   A lookup's pending operation has `absent` set once the span has been absent from the
   plain map at some moment since the operation began.
   */
  datatype Pc =
    | Idle
    | Inserting(span: nat, data: Data)
    | Spilling(span: nat, data: Data)
    | Looking(span: nat, mode: Mode, absent: bool)
    | LookingOver(span: nat, mode: Mode, absent: bool)
    | Guarding(span: nat, mode: Mode, fast: bool, index: nat)
    | Missed(span: nat, mode: Mode, absent: bool)
    | Removed(span: nat, data: Data)

  /** `shardOf` is any function from span ids to the shards. */
  datatype State = State(
    shardOf: nat -> nat, shards: seq<Shard>, overflow: map<nat, Data>, pcs: seq<Pc>, contents: map<nat, Data>)

  datatype Action =
    | BeginInsert(span: nat, data: Data)
    | BeginLookup(span: nat, mode: Mode)
    | Update(data: Data)
    | Advance

  datatype Label = Label(actor: nat, action: Action)

  ghost predicate ShardsSpread(shardOf: nat -> nat) {
    forall id :: shardOf(id) < FAST_SHARDS
  }

  function Initial(shardOf: nat -> nat, actors: nat): State {
    State(shardOf,
          seq(FAST_SHARDS, i => Shard(seq(FAST_SLOTS, j => None), None)),
          map[], seq(actors, i => Idle), map[])
  }

  // ------------------------------------------------------------ steps

  predicate IsInserting(pc: Pc, id: nat) {
    (pc.Inserting? || pc.Spilling?) && pc.span == id
  }

  /** A guard on an overflow entry keeps writers out; a writer's guard keeps everyone out. */
  predicate OverflowFree(s: State, a: nat, id: nat, mode: Mode) {
    forall b: nat :: b < |s.pcs| && b != a && s.pcs[b].Guarding? && !s.pcs[b].fast && s.pcs[b].span == id ==>
      mode == Read && s.pcs[b].mode == Read
  }

  predicate ShardFree(s: State, id: nat) {
    s.shardOf(id) < |s.shards| && s.shards[s.shardOf(id)].holder == None
  }

  /** The caller inserts a span only while it is not live and nobody else is inserting it. */
  predicate Enabled(s: State, l: Label) {
    && l.actor < |s.pcs|
    && var pc := s.pcs[l.actor];
       match l.action
       case BeginInsert(id, _) => pc.Idle? && id !in s.contents && forall b: nat :: b < |s.pcs| ==>
           !IsInserting(s.pcs[b], id)
       case BeginLookup(_, _) => pc.Idle?
       case Update(_) => pc.Guarding? && pc.mode == Write
       && (pc.fast ==> s.shardOf(pc.span) < |s.shards| && pc.index < |s.shards[s.shardOf(pc.span)].entries|)
       case Advance =>
         match pc
         case Idle => false
         case Inserting(id, _) => ShardFree(s, id)
         case Spilling(id, _) => OverflowFree(s, l.actor, id, Write)
         case Looking(id, _, _) => ShardFree(s, id)
         case LookingOver(id, mode, _) => OverflowFree(s, l.actor, id, mode)
         case Guarding(id, _, fast, _) => fast ==> s.shardOf(id) < |s.shards|
         case _ => true
  }

  /** Every pending lookup notes whether its span is absent now. */
  function Noted(pc: Pc, contents: map<nat, Data>): Pc {
    match pc
    case Looking(id, mode, absent) => Looking(id, mode, absent || id !in contents)
    case LookingOver(id, mode, absent) => LookingOver(id, mode, absent || id !in contents)
    case _ => pc
  }

  function NotedAll(s: State): State {
    s.(pcs := seq(|s.pcs|, i requires 0 <= i < |s.pcs| => Noted(s.pcs[i], s.contents)))
  }

  function Go(s: State, a: nat, pc: Pc): State
    requires a < |s.pcs|
  {
    s.(pcs := s.pcs[a := pc])
  }

  function PutShard(s: State, k: nat, shard: Shard): State
    requires k < |s.shards|
  {
    s.(shards := s.shards[k := shard])
  }

  function Apply(s: State, l: Label): State
    requires Enabled(s, l)
  {
    NotedAll(Raw(s, l))
  }

  function Raw(s: State, l: Label): State
    requires Enabled(s, l)
  {
    var a, pc := l.actor, s.pcs[l.actor];
    match l.action
    case BeginInsert(id, data) => Go(s, a, Inserting(id, data))
    case BeginLookup(id, mode) => Go(s, a, Looking(id, mode, false))
    case Update(data) => Overwrite(s, pc.span, pc.fast, pc.index, data)
    case Advance =>
      match pc
      case Inserting(id, data) => InsertFast(s, a, id, data)
      case Spilling(id, data) =>
        Go(s.(overflow := s.overflow[id := data], contents := s.contents[id := data]), a, Idle)
      case Looking(id, mode, absent) => LookFast(s, a, id, mode, absent)
      case LookingOver(id, mode, absent) => LookOver(s, a, id, mode, absent)
      case Guarding(id, _, fast, _) => if fast then Unlock(Go(s, a, Idle), s.shardOf(id)) else Go(s, a, Idle)
      case _ => Go(s, a, Idle)
  }

  /** Writing through a guard. */
  function Overwrite(s: State, id: nat, fast: bool, index: nat, data: Data): State
    requires fast ==> s.shardOf(id) < |s.shards| && index < |s.shards[s.shardOf(id)].entries|
  {
    var written := s.(contents := s.contents[id := data]);
    if fast then
      var k := s.shardOf(id);
      PutShard(written, k, s.shards[k].(entries := s.shards[k].entries[index := Some(ActiveEntry(id, data))]))
    else written.(overflow := s.overflow[id := data])
  }

  function Unlock(s: State, k: nat): State
    requires k < |s.shards|
  {
    PutShard(s, k, s.shards[k].(holder := None))
  }

  /** A slot of a shard filled with a span, or emptied of it. */
  function Filled(s: State, k: nat, j: nat, id: nat, data: Data): State
    requires k < |s.shards| && j < |s.shards[k].entries|
  {
    PutShard(s, k, s.shards[k].(entries := s.shards[k].entries[j := Some(ActiveEntry(id, data))]))
      .(contents := s.contents[id := data])
  }

  function Emptied(s: State, k: nat, j: nat, id: nat): State
    requires k < |s.shards| && j < |s.shards[k].entries|
  {
    PutShard(s, k, s.shards[k].(entries := s.shards[k].entries[j := None])).(contents := s.contents - {id})
  }

  /** One lock of the shard: the first free slot, or else the overflow map is next. */
  function InsertFast(s: State, a: nat, id: nat, data: Data): State
    requires a < |s.pcs| && ShardFree(s, id)
  {
    var k := s.shardOf(id);
    var entries := s.shards[k].entries;
    var j := FirstFree(entries);
    if j == |entries| then Go(s, a, Spilling(id, data))
    else
      Go(Filled(s, k, j, id, data), a, Idle)
  }

  /** One lock of the shard: found (and removed, or guarded), or else the overflow map is next. */
  function LookFast(s: State, a: nat, id: nat, mode: Mode, absent: bool): State
    requires a < |s.pcs| && ShardFree(s, id)
  {
    var k := s.shardOf(id);
    var entries := s.shards[k].entries;
    var j := IndexOf(entries, id);
    if j == |entries| then Go(s, a, LookingOver(id, mode, absent))
    else if mode == Remove then
      Go(Emptied(s, k, j, id), a, Removed(id, entries[j].value.data))
    else Go(PutShard(s, k, s.shards[k].(holder := Some(a))), a, Guarding(id, mode, true, j))
  }

  function LookOver(s: State, a: nat, id: nat, mode: Mode, absent: bool): State
    requires a < |s.pcs|
  {
    if id !in s.overflow then Go(s, a, Missed(id, mode, absent))
    else if mode == Remove then
      Go(s.(overflow := s.overflow - {id}, contents := s.contents - {id}), a, Removed(id, s.overflow[id]))
    else Go(s, a, Guarding(id, mode, false, 0))
  }

  function Run(s: State, labels: seq<Label>): State
    decreases |labels|
  {
    if labels == [] || !Enabled(s, labels[0]) then s else Run(Apply(s, labels[0]), labels[1..])
  }

  // ------------------------------------------------------------ the invariant

  ghost predicate InFast(s: State, id: nat, k: nat, j: nat) {
    k < |s.shards| && IsAt(s.shards[k].entries, id, j)
  }

  /** A fast entry is in its own shard, once, not in the overflow map, and is the map's. */
  ghost predicate FastOk(s: State) {
    && |s.shards| == FAST_SHARDS
    && (forall id: nat, k: nat, j: nat :: InFast(s, id, k, j) ==>
          && k == s.shardOf(id) && id !in s.overflow
          && id in s.contents && s.contents[id] == s.shards[k].entries[j].value.data)
    && (forall k: nat :: k < |s.shards| ==> |s.shards[k].entries| == FAST_SLOTS && OncePerSpan(s.shards[k].entries))
  }

  ghost predicate OverflowOk(s: State) {
    forall id :: id in s.overflow ==> id in s.contents && s.contents[id] == s.overflow[id]
  }

  /** Everything in the plain map is in one tier or the other. */
  ghost predicate Complete(s: State) {
    forall id: nat :: id in s.contents ==>
      id in s.overflow || (s.shardOf(id) < |s.shards| && Present(s.shards[s.shardOf(id)].entries, id))
  }

  ghost predicate InsertsOk(s: State) {
    && (forall a: nat, id: nat :: a < |s.pcs| && IsInserting(s.pcs[a], id) ==> id !in s.contents)
    && (forall a: nat, b: nat, id: nat ::
          a < |s.pcs| && b < |s.pcs| && IsInserting(s.pcs[a], id) && IsInserting(s.pcs[b], id) ==> a == b)
  }

  /** A lookup that missed the fast tier will find the span in overflow, or it has been absent. */
  ghost predicate LookupsOk(s: State) {
    && (forall a: nat :: a < |s.pcs| && s.pcs[a].LookingOver? ==> s.pcs[a].absent || s.pcs[a].span in s.overflow)
    && (forall a: nat :: a < |s.pcs| && s.pcs[a].Missed? ==> s.pcs[a].absent)
  }

  /** A guarded entry stays where it is. */
  ghost predicate GuardsOk(s: State) {
    forall a: nat :: a < |s.pcs| && s.pcs[a].Guarding? ==>
      if s.pcs[a].fast then InFast(s, s.pcs[a].span, s.shardOf(s.pcs[a].span), s.pcs[a].index)
                            && s.shards[s.shardOf(s.pcs[a].span)].holder == Some(a)
      else s.pcs[a].span in s.overflow
  }

  ghost predicate Inv(s: State) {
    && ShardsSpread(s.shardOf) && FastOk(s) && OverflowOk(s) && Complete(s) && InsertsOk(s) && LookupsOk(s)
    && GuardsOk(s)
    && ExclusiveWriters(s)
  }

  /** A writer's guard on an overflow entry is the only guard on it. */
  ghost predicate ExclusiveWriters(s: State) {
    forall a: nat, b: nat :: a < |s.pcs| && b < |s.pcs| && a != b && s.pcs[a].Guarding? && s.pcs[b].Guarding?
                             && !s.pcs[a].fast && !s.pcs[b].fast && s.pcs[a].span == s.pcs[b].span ==>
                               s.pcs[a].mode == Read && s.pcs[b].mode == Read
  }

  // ------------------------------------------------------------ the tiers hold the plain map

  ghost predicate TiersOk(s: State) {
    ShardsSpread(s.shardOf) && FastOk(s) && OverflowOk(s) && Complete(s)
  }

  lemma PlacedTiers(s: State, id: nat, data: Data, j: nat)
    requires TiersOk(s) && id !in s.contents && j < FAST_SLOTS
    requires s.shards[s.shardOf(id)].entries[j] == None
    ensures var k := s.shardOf(id);
            TiersOk(Filled(s, k, j, id, data))
  {
    var k := s.shardOf(id);
    var s' := Filled(s, k, j, id, data);
    assert forall j': nat :: InFast(s, id, k, j') ==> id in s.contents;
    SlotFilled(s.shards[k].entries, id, data, j);
    forall other: nat, k': nat, j': nat
      ensures InFast(s', other, k', j') <==> InFast(s, other, k', j') || (other == id && k' == k && j' == j)
    {
    }
    StillComplete(s, s', id);
    assert IsAt(s'.shards[k].entries, id, j);
  }

  /** Changing one span's place leaves the others complete. */
  lemma StillComplete(s: State, s': State, id: nat)
    requires Complete(s) && s'.shardOf == s.shardOf && |s'.shards| == |s.shards|
    requires forall other: nat :: other != id ==>
        (other in s'.contents <==> other in s.contents) && (other in s.overflow ==> other in s'.overflow)
    requires forall other: nat, k: nat, j: nat :: other != id && InFast(s, other, k, j) ==> InFast(s', other, k, j)
    ensures forall other: nat :: other != id && other in s'.contents ==>
              other in s'.overflow
              || (s'.shardOf(other) < |s'.shards| && Present(s'.shards[s'.shardOf(other)].entries, other))
  {
    forall other: nat | other != id && other in s'.contents && other !in s'.overflow
      ensures s'.shardOf(other) < |s'.shards| && Present(s'.shards[s'.shardOf(other)].entries, other)
    {
      var k := s.shardOf(other);
      var j: nat :| IsAt(s.shards[k].entries, other, j);
      assert InFast(s, other, k, j);
      assert InFast(s', other, k, j);
    }
  }

  lemma SpilledTiers(s: State, id: nat, data: Data)
    requires TiersOk(s) && id !in s.contents
    ensures TiersOk(s.(overflow := s.overflow[id := data], contents := s.contents[id := data]))
  {
    var s' := s.(overflow := s.overflow[id := data], contents := s.contents[id := data]);
    assert forall other: nat, k: nat, j: nat :: InFast(s', other, k, j) <==> InFast(s, other, k, j);
    StillComplete(s, s', id);
  }

  lemma TakenTiers(s: State, id: nat, j: nat)
    requires TiersOk(s) && IsAt(s.shards[s.shardOf(id)].entries, id, j)
    ensures var k := s.shardOf(id);
            TiersOk(Emptied(s, k, j, id))
  {
    var k := s.shardOf(id);
    var s' := Emptied(s, k, j, id);
    assert InFast(s, id, k, j);
    SlotEmptied(s.shards[k].entries, id, j);
    forall other: nat, k': nat, j': nat
      ensures InFast(s', other, k', j') <==> InFast(s, other, k', j') && other != id
    {
      assert InFast(s, id, k', j') ==> k' == k;
    }
    StillComplete(s, s', id);
  }

  lemma RemovedTiers(s: State, id: nat)
    requires TiersOk(s) && id in s.overflow
    ensures TiersOk(s.(overflow := s.overflow - {id}, contents := s.contents - {id}))
  {
    var s' := s.(overflow := s.overflow - {id}, contents := s.contents - {id});
    assert forall other: nat, k: nat, j: nat :: InFast(s', other, k, j) <==> InFast(s, other, k, j);
    StillComplete(s, s', id);
  }

  lemma WrittenFastTiers(s: State, id: nat, j: nat, data: Data)
    requires TiersOk(s) && IsAt(s.shards[s.shardOf(id)].entries, id, j)
    ensures TiersOk(Overwrite(s, id, true, j, data))
  {
    var s' := Overwrite(s, id, true, j, data);
    var k := s.shardOf(id);
    assert InFast(s, id, k, j);
    forall other: nat, k': nat, j': nat
      ensures InFast(s', other, k', j') <==> InFast(s, other, k', j')
    {
      assert InFast(s, id, k', j') ==> k' == k && j' == j;
    }
    assert OncePerSpan(s'.shards[k].entries) by {
      assert forall other: nat, j': nat :: IsAt(s'.shards[k].entries, other, j') ==> InFast(s, other, k, j');
    }
    StillComplete(s, s', id);
    assert IsAt(s'.shards[k].entries, id, j);
  }

  lemma WrittenOverTiers(s: State, id: nat, data: Data)
    requires TiersOk(s) && id in s.overflow
    ensures TiersOk(Overwrite(s, id, false, 0, data))
  {
    var s' := Overwrite(s, id, false, 0, data);
    assert forall other: nat, k: nat, j: nat :: InFast(s', other, k, j) <==> InFast(s, other, k, j);
    StillComplete(s, s', id);
  }

  /** Locks and program counters are not part of the tiers. */
  lemma SameTiers(s: State, s': State)
    requires TiersOk(s) && s'.shardOf == s.shardOf && s'.overflow == s.overflow && s'.contents == s.contents
    requires |s'.shards| == |s.shards|
    requires forall k: nat :: k < |s.shards| ==> s'.shards[k].entries == s.shards[k].entries
    ensures TiersOk(s')
  {
    assert forall other: nat, k: nat, j: nat :: InFast(s', other, k, j) <==> InFast(s, other, k, j);
  }

  // ------------------------------------------------------------ every step

  /** The callbacks' own conditions, once the tiers are known to hold. */
  ghost predicate CallersOk(s: State) {
    InsertsOk(s) && LookupsOk(s) && GuardsOk(s) && ExclusiveWriters(s)
  }

  /** One callback moves on. */
  ghost predicate MovesOnly(s: State, s': State, a: nat) {
    a < |s.pcs| == |s'.pcs| && s'.pcs == s.pcs[a := s'.pcs[a]] && s'.shardOf == s.shardOf && |s'.shards| == |s.shards|
  }

  ghost predicate KeepsPlaces(s: State, s': State, id: nat) {
    && (forall other: nat :: other != id && other in s.overflow ==> other in s'.overflow)
    && (forall other: nat :: other != id ==> (other in s'.contents <==> other in s.contents))
    && (forall other: nat, k: nat, j: nat :: other != id && InFast(s, other, k, j) ==> InFast(s', other, k, j))
  }

  /** The span's insertion is over, or goes on; nobody else is concerned. */
  lemma InsertedCallers(s: State, s': State, a: nat, id: nat)
    requires Inv(s) && MovesOnly(s, s', a) && IsInserting(s.pcs[a], id) && KeepsPlaces(s, s', id)
    requires s'.pcs[a].Idle? || (s'.pcs[a].Spilling? && s'.pcs[a].span == id && s'.contents == s.contents)
    requires id in s.overflow ==> id in s'.overflow
    requires forall k: nat :: k < |s.shards| ==> s'.shards[k].holder == s.shards[k].holder
    requires forall k: nat, j: nat :: InFast(s, id, k, j) ==> InFast(s', id, k, j)
    ensures CallersOk(s')
  {
    forall b: nat, other: nat | b < |s'.pcs| && IsInserting(s'.pcs[b], other)
      ensures IsInserting(s.pcs[b], other) && other !in s'.contents
    {
      assert IsInserting(s.pcs[b], id) ==> b == a;
    }
  }

  lemma InsertFastKeeps(s: State, a: nat, id: nat, data: Data)
    requires Inv(s) && a < |s.pcs| && s.pcs[a] == Inserting(id, data) && ShardFree(s, id)
    ensures TiersOk(InsertFast(s, a, id, data)) && CallersOk(InsertFast(s, a, id, data))
  {
    assert IsInserting(s.pcs[a], id);
    if FirstFree(s.shards[s.shardOf(id)].entries) == |s.shards[s.shardOf(id)].entries| {
      SameTiers(s, Go(s, a, Spilling(id, data)));
      InsertedCallers(s, Go(s, a, Spilling(id, data)), a, id);
    } else {
      PlacedKeeps(s, a, id, data);
    }
  }

  lemma PlacedKeeps(s: State, a: nat, id: nat, data: Data)
    requires Inv(s) && a < |s.pcs| && s.pcs[a] == Inserting(id, data) && id !in s.contents
    requires FirstFree(s.shards[s.shardOf(id)].entries) < |s.shards[s.shardOf(id)].entries|
    ensures var k := s.shardOf(id);
            var s' := Go(Filled(s, k, FirstFree(s.shards[k].entries), id, data), a, Idle);
            TiersOk(s') && CallersOk(s')
  {
    var k := s.shardOf(id);
    var j := FirstFree(s.shards[k].entries);
    var placed := Filled(s, k, j, id, data);
    assert IsInserting(s.pcs[a], id);
    PlacedTiers(s, id, data, j);
    SameTiers(placed, Go(placed, a, Idle));
    assert forall j': nat :: InFast(s, id, k, j') ==> id in s.contents;
    SlotFilled(s.shards[k].entries, id, data, j);
    InsertedCallers(s, Go(placed, a, Idle), a, id);
  }

  lemma SpillKeeps(s: State, a: nat, id: nat, data: Data)
    requires Inv(s) && a < |s.pcs| && s.pcs[a] == Spilling(id, data)
    ensures var s' := Go(s.(overflow := s.overflow[id := data], contents := s.contents[id := data]), a, Idle);
            TiersOk(s') && CallersOk(s')
  {
    var spilled := s.(overflow := s.overflow[id := data], contents := s.contents[id := data]);
    assert IsInserting(s.pcs[a], id);
    SpilledTiers(s, id, data);
    SameTiers(spilled, Go(spilled, a, Idle));
    InsertedCallers(s, Go(spilled, a, Idle), a, id);
  }

  /**
   A lookup moves on, nothing inserted: the others keep what they rely on, except that a
   removal is something the pending lookups will note.
   */
  lemma LookedUpCallers(s: State, s': State, a: nat, id: nat)
    requires Inv(s) && MovesOnly(s, s', a) && KeepsPlaces(s, s', id) && !s.pcs[a].Inserting? && !s.pcs[a].Spilling?
    requires !s'.pcs[a].Inserting? && !s'.pcs[a].Spilling?
    requires id in s'.contents ==> id in s.contents
    requires forall b: nat ::
               b < |s.pcs| && b != a && s.pcs[b].LookingOver? && s.pcs[b].span == id && id !in s'.overflow ==>
               s.pcs[b].absent || id !in s'.contents
    requires s'.pcs[a].LookingOver? ==>
        s'.pcs[a].span in s'.overflow || s'.pcs[a].span !in s'.contents || s'.pcs[a].absent
    requires s'.pcs[a].Missed? ==> s'.pcs[a].absent
    ensures InsertsOk(s')
    ensures LookupsOk(NotedAll(s'))
  {
    InsertersKept(s, s', a, id);
    forall b: nat | b < |s'.pcs| && NotedAll(s').pcs[b].LookingOver?
      ensures NotedAll(s').pcs[b].absent || NotedAll(s').pcs[b].span in s'.overflow
    {
      if b != a {
        assert s.pcs[b].LookingOver?;
      }
    }
  }

  lemma InsertersKept(s: State, s': State, a: nat, id: nat)
    requires InsertsOk(s) && MovesOnly(s, s', a) && KeepsPlaces(s, s', id)
    requires !s'.pcs[a].Inserting? && !s'.pcs[a].Spilling? && (id in s'.contents ==> id in s.contents)
    ensures InsertsOk(s')
  {
    forall b: nat, other: nat | b < |s'.pcs| && IsInserting(s'.pcs[b], other)
      ensures IsInserting(s.pcs[b], other) && other !in s'.contents
    {
    }
  }

  ghost predicate GuardOk(s: State, a: nat, pc: Pc) {
    pc.Guarding? ==>
      if pc.fast then InFast(s, pc.span, s.shardOf(pc.span), pc.index) && s.shards[s.shardOf(pc.span)].holder == Some(a)
      else pc.span in s.overflow
  }

  /** Others' guards are undisturbed, and a new one is justified. */
  lemma GuardsKept(s: State, s': State, a: nat)
    requires Inv(s) && MovesOnly(s, s', a) && GuardOk(s', a, s'.pcs[a])
    requires forall b: nat :: b < |s.pcs| && b != a ==> GuardOk(s', b, s.pcs[b])
    requires s'.pcs[a].Guarding? && !s'.pcs[a].fast ==> OverflowFree(s, a, s'.pcs[a].span, s'.pcs[a].mode)
    ensures GuardsOk(s') && ExclusiveWriters(s')
  {
    forall b: nat | b < |s'.pcs|
      ensures GuardOk(s', b, s'.pcs[b])
    {
    }
  }

  lemma GuardHere(s: State, b: nat)
    requires Inv(s) && b < |s.pcs|
    ensures GuardOk(s, b, s.pcs[b])
  {
  }

  ghost predicate Kept(s: State) {
    TiersOk(s) && InsertsOk(s) && LookupsOk(NotedAll(s)) && GuardsOk(s) && ExclusiveWriters(s)
  }

  lemma LookPastKeeps(s: State, a: nat, id: nat, mode: Mode, absent: bool)
    requires Inv(s) && a < |s.pcs| && s.pcs[a] == Looking(id, mode, absent)
    requires !Present(s.shards[s.shardOf(id)].entries, id)
    ensures Kept(Go(s, a, LookingOver(id, mode, absent)))
  {
    var s' := Go(s, a, LookingOver(id, mode, absent));
    SameTiers(s, s');
    LookedUpCallers(s, s', a, id);
    forall b: nat | b < |s.pcs| ensures GuardOk(s', b, s.pcs[b]) { GuardHere(s, b); }
    GuardsKept(s, s', a);
  }

  lemma TakeFastKeeps(s: State, a: nat, id: nat, absent: bool, j: nat)
    requires Inv(s) && a < |s.pcs| && s.pcs[a] == Looking(id, Remove, absent) && ShardFree(s, id)
    requires IsAt(s.shards[s.shardOf(id)].entries, id, j)
    ensures var k := s.shardOf(id);
            Kept(Go(Emptied(s, k, j, id),
                    a, Removed(id, s.shards[k].entries[j].value.data)))
  {
    var k := s.shardOf(id);
    var taken := Emptied(s, k, j, id);
    var s' := Go(taken, a, Removed(id, s.shards[k].entries[j].value.data));
    TakenTiers(s, id, j);
    SameTiers(taken, s');
    SlotEmptied(s.shards[k].entries, id, j);
    LookedUpCallers(s, s', a, id);
    forall b: nat | b < |s.pcs|
      ensures GuardOk(s', b, s.pcs[b])
    {
      GuardHere(s, b);
    }
    GuardsKept(s, s', a);
  }

  lemma GuardFastKeeps(s: State, a: nat, id: nat, mode: Mode, absent: bool, j: nat)
    requires Inv(s) && a < |s.pcs| && s.pcs[a] == Looking(id, mode, absent) && ShardFree(s, id)
    requires IsAt(s.shards[s.shardOf(id)].entries, id, j)
    ensures var k := s.shardOf(id);
            Kept(Go(PutShard(s, k, s.shards[k].(holder := Some(a))), a, Guarding(id, mode, true, j)))
  {
    var k := s.shardOf(id);
    var locked := PutShard(s, k, s.shards[k].(holder := Some(a)));
    var s' := Go(locked, a, Guarding(id, mode, true, j));
    SameTiers(s, s');
    assert forall other: nat, k': nat, j': nat :: InFast(s', other, k', j') <==> InFast(s, other, k', j');
    LookedUpCallers(s, s', a, id);
    forall b: nat | b < |s.pcs|
      ensures GuardOk(s', b, s.pcs[b])
    {
      GuardHere(s, b);
    }
    GuardsKept(s, s', a);
  }

  lemma LookFastKeeps(s: State, a: nat, id: nat, mode: Mode, absent: bool)
    requires Inv(s) && a < |s.pcs| && s.pcs[a] == Looking(id, mode, absent) && ShardFree(s, id)
    ensures Kept(LookFast(s, a, id, mode, absent))
  {
    var entries := s.shards[s.shardOf(id)].entries;
    var j := IndexOf(entries, id);
    AbsentMeansNoIndex(entries, id);
    if j == |entries| {
      LookPastKeeps(s, a, id, mode, absent);
    } else if mode == Remove {
      TakeFastKeeps(s, a, id, absent, j);
    } else {
      GuardFastKeeps(s, a, id, mode, absent, j);
    }
  }

  lemma LookOverKeeps(s: State, a: nat, id: nat, mode: Mode, absent: bool)
    requires Inv(s) && a < |s.pcs| && s.pcs[a] == LookingOver(id, mode, absent) && OverflowFree(s, a, id, mode)
    ensures Kept(LookOver(s, a, id, mode, absent))
  {
    var s' := LookOver(s, a, id, mode, absent);
    if id in s.overflow && mode == Remove {
      RemovedTiers(s, id);
      SameTiers(s.(overflow := s.overflow - {id}, contents := s.contents - {id}), s');
    } else {
      SameTiers(s, s');
    }
    assert forall other: nat, k: nat, j: nat :: InFast(s', other, k, j) <==> InFast(s, other, k, j);
    LookedUpCallers(s, s', a, id);
    forall b: nat | b < |s.pcs| && b != a
      ensures GuardOk(s', b, s.pcs[b])
    {
      GuardHere(s, b);
    }
    GuardsKept(s, s', a);
  }

  lemma UnguardKeeps(s: State, a: nat)
    requires Inv(s) && a < |s.pcs| && s.pcs[a].Guarding?
    ensures Kept(Raw(s, Label(a, Advance)))
  {
    var pc := s.pcs[a];
    GuardHere(s, a);
    var s' := if pc.fast then Unlock(Go(s, a, Idle), s.shardOf(pc.span)) else Go(s, a, Idle);
    SameTiers(s, s');
    assert forall other: nat, k: nat, j: nat :: InFast(s', other, k, j) <==> InFast(s, other, k, j);
    LookedUpCallers(s, s', a, pc.span);
    forall b: nat | b < |s.pcs| && b != a
      ensures GuardOk(s', b, s.pcs[b])
    {
      GuardHere(s, b);
    }
    GuardsKept(s, s', a);
  }

  /** Writing through a guard changes the span's data, and nothing's place. */
  lemma UpdateKeeps(s: State, a: nat, data: Data)
    requires Inv(s) && a < |s.pcs| && s.pcs[a].Guarding? && s.pcs[a].mode == Write
    ensures s.pcs[a].span in s.contents
    ensures s.pcs[a].fast ==>
        s.shardOf(s.pcs[a].span) < |s.shards| && s.pcs[a].index < |s.shards[s.shardOf(s.pcs[a].span)].entries|
    ensures Kept(Overwrite(s, s.pcs[a].span, s.pcs[a].fast, s.pcs[a].index, data))
  {
    var pc := s.pcs[a];
    GuardHere(s, a);
    if pc.fast {
      WrittenFastTiers(s, pc.span, pc.index, data);
      FastStays(s, pc.span, pc.index, data);
    } else {
      WrittenOverTiers(s, pc.span, data);
    }
    OverwrittenCallers(s, a, Overwrite(s, pc.span, pc.fast, pc.index, data));
  }

  lemma FastStays(s: State, id: nat, j: nat, data: Data)
    requires ShardsSpread(s.shardOf) && |s.shards| == FAST_SHARDS && IsAt(s.shards[s.shardOf(id)].entries, id, j)
    ensures forall other: nat, k: nat, j': nat :: InFast(s, other, k, j') ==>
        InFast(Overwrite(s, id, true, j, data), other, k, j')
  {
  }

  /** Nothing the callbacks rely on has moved. */
  lemma OverwrittenCallers(s: State, a: nat, s': State)
    requires Inv(s) && a < |s.pcs| && s.pcs[a].Guarding? && TiersOk(s')
    requires s'.pcs == s.pcs && s'.shardOf == s.shardOf && |s'.shards| == |s.shards|
    requires s'.contents.Keys == s.contents.Keys
    requires forall other: nat :: other in s.overflow ==> other in s'.overflow
    requires forall k: nat :: k < |s.shards| ==> s'.shards[k].holder == s.shards[k].holder
    requires forall other: nat, k: nat, j: nat :: InFast(s, other, k, j) ==> InFast(s', other, k, j)
    ensures Kept(s')
  {
    LookedUpCallers(s, s', a, s.pcs[a].span);
    forall b: nat | b < |s.pcs|
      ensures GuardOk(s', b, s.pcs[b])
    {
      GuardHere(s, b);
    }
  }

  lemma BeginInsertKeeps(s: State, a: nat, id: nat, data: Data)
    requires Inv(s) && a < |s.pcs| && s.pcs[a].Idle? && id !in s.contents
    requires forall b: nat :: b < |s.pcs| ==> !IsInserting(s.pcs[b], id)
    ensures Kept(Go(s, a, Inserting(id, data)))
  {
    var s' := Go(s, a, Inserting(id, data));
    SameTiers(s, s');
    forall b: nat, other: nat | b < |s'.pcs| && IsInserting(s'.pcs[b], other)
      ensures if b == a then other == id else IsInserting(s.pcs[b], other)
    {
    }
    CallersNoted(s');
  }

  lemma BeginLookupKeeps(s: State, a: nat, id: nat, mode: Mode)
    requires Inv(s) && a < |s.pcs| && s.pcs[a].Idle?
    ensures Kept(Go(s, a, Looking(id, mode, false)))
  {
    var s' := Go(s, a, Looking(id, mode, false));
    SameTiers(s, s');
    assert forall b: nat, other: nat :: b < |s'.pcs| && IsInserting(s'.pcs[b], other) ==> IsInserting(s.pcs[b], other);
    CallersNoted(s');
  }

  /** Noting absences disturbs nothing. */
  lemma NotedKeeps(s: State)
    requires Kept(s)
    ensures Inv(NotedAll(s))
  {
    var s' := NotedAll(s);
    SameTiers(s, s');
    assert forall b: nat, id: nat :: b < |s.pcs| ==> (IsInserting(s'.pcs[b], id) <==> IsInserting(s.pcs[b], id));
    assert forall b: nat :: b < |s.pcs| && s'.pcs[b].Guarding? ==> s'.pcs[b] == s.pcs[b];
    assert forall other: nat, k: nat, j: nat :: InFast(s', other, k, j) <==> InFast(s, other, k, j);
  }

  lemma RawKeeps(s: State, l: Label)
    requires Inv(s) && Enabled(s, l)
    ensures Kept(Raw(s, l))
  {
    var a, pc := l.actor, s.pcs[l.actor];
    match l.action
    case BeginInsert(id, data) => BeginInsertKeeps(s, a, id, data);
    case BeginLookup(id, mode) => BeginLookupKeeps(s, a, id, mode);
    case Update(data) => UpdateKeeps(s, a, data);
    case Advance =>
      match pc
      case Inserting(id, data) =>
        InsertFastKeeps(s, a, id, data);
        CallersNoted(InsertFast(s, a, id, data));
      case Spilling(id, data) =>
        SpillKeeps(s, a, id, data);
        CallersNoted(Raw(s, l));
      case Looking(id, mode, absent) => LookFastKeeps(s, a, id, mode, absent);
      case LookingOver(id, mode, absent) => LookOverKeeps(s, a, id, mode, absent);
      case Guarding(_, _, _, _) => UnguardKeeps(s, a);
      case _ => DoneKeeps(s, a);
  }

  lemma CallersNoted(s: State)
    requires TiersOk(s) && CallersOk(s)
    ensures Kept(s)
  {
    forall b: nat | b < |s.pcs| && NotedAll(s).pcs[b].LookingOver?
      ensures NotedAll(s).pcs[b].absent || NotedAll(s).pcs[b].span in s.overflow
    {
      assert s.pcs[b].LookingOver?;
    }
  }

  lemma DoneKeeps(s: State, a: nat)
    requires Inv(s) && a < |s.pcs| && (s.pcs[a].Missed? || s.pcs[a].Removed?)
    ensures Kept(Go(s, a, Idle))
  {
    var s' := Go(s, a, Idle);
    SameTiers(s, s');
    assert forall b: nat, id: nat :: b < |s'.pcs| && IsInserting(s'.pcs[b], id) ==> IsInserting(s.pcs[b], id);
    CallersNoted(s');
  }

  lemma {:induction false} RunKeeps(s: State, labels: seq<Label>)
    requires Inv(s)
    ensures Inv(Run(s, labels))
    decreases |labels|
  {
    if labels != [] && Enabled(s, labels[0]) {
      RawKeeps(s, labels[0]);
      NotedKeeps(Raw(s, labels[0]));
      RunKeeps(Apply(s, labels[0]), labels[1..]);
    }
  }

  lemma InitialHolds(shardOf: nat -> nat, actors: nat)
    requires ShardsSpread(shardOf)
    ensures Inv(Initial(shardOf, actors))
  {
  }

  // ------------------------------------------------------------ main results

  lemma ReachableHolds(s: State, shardOf: nat -> nat, actors: nat, labels: seq<Label>)
    requires ShardsSpread(shardOf) && s == Run(Initial(shardOf, actors), labels)
    ensures Inv(s)
  {
    InitialHolds(shardOf, actors);
    RunKeeps(Initial(shardOf, actors), labels);
  }

  /** In every reachable state the two tiers together are the plain map, each span in one place. */
  lemma TiersAreTheMap(s: State, shardOf: nat -> nat, actors: nat, labels: seq<Label>, id: nat)
    requires ShardsSpread(shardOf) && s == Run(Initial(shardOf, actors), labels)
    ensures id in s.contents <==> id in s.overflow || exists k: nat, j: nat :: InFast(s, id, k, j)
    ensures id in s.overflow ==> s.contents[id] == s.overflow[id] && forall k: nat, j: nat :: !InFast(s, id, k, j)
    ensures forall k: nat, j: nat, k': nat, j': nat :: InFast(s, id, k, j) && InFast(s, id, k', j') ==>
        k == k' && j == j'
    ensures forall k: nat, j: nat :: InFast(s, id, k, j) ==> s.contents[id] == s.shards[k].entries[j].value.data
  {
    ReachableHolds(s, shardOf, actors, labels);
    if id in s.contents && id !in s.overflow {
      var j: nat :| IsAt(s.shards[s.shardOf(id)].entries, id, j);
      assert InFast(s, id, s.shardOf(id), j);
    }
  }

  /** What one step is on the plain map. */
  ghost predicate Atomic(contents: map<nat, Data>, contents': map<nat, Data>, pc: Pc, pc': Pc, action: Action) {
    match pc'
    case Removed(id, data) => id in contents && contents[id] == data && contents' == contents - {id}
    case Missed(id, _, absent) => contents' == contents && absent
    case Idle =>
      if pc.Inserting? || pc.Spilling? then pc.span !in contents && contents' == contents[pc.span := pc.data]
         else contents' == contents
    case Guarding(id, _, _, _) =>
      && id in contents
      && contents' == if action.Update? then contents[id := action.data] else contents
    case _ => contents' == contents
  }

  /**
   Every step of every interleaving is, on the plain map, one atomic operation or none:
   an insertion of an absent span, a removal that returns the very data it removes, a
   lookup that finds a span that is there, an update through a guard, or a miss.
   */
  lemma StepsAreAtomic(s: State, shardOf: nat -> nat, actors: nat, labels: seq<Label>, l: Label)
    requires ShardsSpread(shardOf) && s == Run(Initial(shardOf, actors), labels) && Enabled(s, l)
    ensures var s' := Apply(s, l);
            Atomic(s.contents, s'.contents, s.pcs[l.actor], Raw(s, l).pcs[l.actor], l.action)
  {
    ReachableHolds(s, shardOf, actors, labels);
    var a, pc := l.actor, s.pcs[l.actor];
    match l.action
    case BeginInsert(_, _) =>
    case BeginLookup(_, _) =>
    case Update(data) => UpdateKeeps(s, a, data);
    case Advance =>
      match pc
      case Inserting(id, _) => assert IsInserting(pc, id);
      case Spilling(id, _) => assert IsInserting(pc, id);
      case Looking(id, mode, absent) => LookFastAtomic(s, a, id, mode, absent);
      case LookingOver(id, mode, absent) =>
      case _ =>
  }

  lemma LookFastAtomic(s: State, a: nat, id: nat, mode: Mode, absent: bool)
    requires Inv(s) && a < |s.pcs| && s.pcs[a] == Looking(id, mode, absent) && ShardFree(s, id)
    ensures var s' := LookFast(s, a, id, mode, absent);
            Atomic(s.contents, s'.contents, s.pcs[a], s'.pcs[a], Advance)
  {
    var k := s.shardOf(id);
    var j := IndexOf(s.shards[k].entries, id);
    assert j < |s.shards[k].entries| ==> InFast(s, id, k, j);
  }

  /** The span whose data a step changes. */
  function Changes(pc: Pc, pc': Pc, action: Action): Option<nat> {
    if action.Update? && pc.Guarding? then Some(pc.span)
    else if pc'.Removed? && !pc.Removed? then Some(pc'.span)
    else if (pc.Inserting? || pc.Spilling?) && pc'.Idle? then Some(pc.span)
    else None
  }

  lemma RemovalsAvoidGuards(s: State, l: Label, a: nat)
    requires Inv(s) && Enabled(s, l) && a < |s.pcs| && a != l.actor && s.pcs[a].Guarding?
    requires s.pcs[l.actor].Looking? || s.pcs[l.actor].LookingOver?
    ensures Raw(s, l).pcs[l.actor].Removed? ==> Raw(s, l).pcs[l.actor].span != s.pcs[a].span
  {
    GuardHere(s, a);
    var pc, id := s.pcs[l.actor], s.pcs[a].span;
    if pc.Looking? && pc.span == id && !s.pcs[a].fast {
      assert forall k: nat, j: nat :: !InFast(s, id, k, j);
      AbsentMeansNoIndex(s.shards[s.shardOf(id)].entries, id);
      assert forall j: nat :: IsAt(s.shards[s.shardOf(id)].entries, id, j) ==> InFast(s, id, s.shardOf(id), j);
    }
  }

  /** While a guard is held, nobody else changes its span. */
  lemma GuardsProtect(s: State, shardOf: nat -> nat, actors: nat, labels: seq<Label>, l: Label, a: nat)
    requires ShardsSpread(shardOf) && s == Run(Initial(shardOf, actors), labels) && Enabled(s, l)
    requires a < |s.pcs| && a != l.actor && s.pcs[a].Guarding?
    ensures Changes(s.pcs[l.actor], Raw(s, l).pcs[l.actor], l.action) != Some(s.pcs[a].span)
    ensures s.pcs[a].span in s.contents
  {
    ReachableHolds(s, shardOf, actors, labels);
    GuardHere(s, a);
    GuardHere(s, l.actor);
    var pc := s.pcs[l.actor];
    if pc.Looking? || pc.LookingOver? {
      RemovalsAvoidGuards(s, l, a);
    } else if pc.Inserting? || pc.Spilling? {
      assert IsInserting(pc, pc.span);
    }
  }

  /** A lookup in progress, and whether its span has been absent since it began. */
  function Pending(pc: Pc): Option<(nat, bool)> {
    match pc
    case Looking(id, _, absent) => Some((id, absent))
    case LookingOver(id, _, absent) => Some((id, absent))
    case Missed(id, _, absent) => Some((id, absent))
    case _ => None
  }

  /** The same lookup is pending after every step of a run. */
  ghost predicate StaysPending(s: State, labels: seq<Label>, a: nat, id: nat)
    decreases |labels|
  {
    && a < |s.pcs| && Pending(s.pcs[a]).Some? && Pending(s.pcs[a]).value.0 == id
    && (labels == [] || (Enabled(s, labels[0]) && StaysPending(Apply(s, labels[0]), labels[1..], a, id)))
  }

  /**
   A lookup that finds nothing is a miss of the plain map at some moment since it began:
   if it had not noted an absence at first and has by now, the span was absent in between.
   */
  lemma {:induction false} MissesAreReal(s: State, labels: seq<Label>, a: nat, id: nat) returns (n: nat)
    requires StaysPending(s, labels, a, id) && !Pending(s.pcs[a]).value.1
    requires a < |Run(s, labels).pcs| && Pending(Run(s, labels).pcs[a]) == Some((id, true))
    ensures n <= |labels| && id !in Run(s, labels[..n]).contents
    decreases |labels|
  {
    var s' := Apply(s, labels[0]);
    if Pending(s'.pcs[a]).value.1 {
      NotedWhenAbsent(s, labels[0], a, id);
      n := 1;
      assert labels[..1][1..] == [];
      assert Run(s, labels[..1]) == Run(s', []);
    } else {
      var m := MissesAreReal(s', labels[1..], a, id);
      n := m + 1;
      assert labels[..n][0] == labels[0] && labels[..n][1..] == labels[1..][..m];
    }
  }

  lemma NotedWhenAbsent(s: State, l: Label, a: nat, id: nat)
    requires Enabled(s, l) && a < |s.pcs| && Pending(s.pcs[a]) == Some((id, false))
    requires Pending(Apply(s, l).pcs[a]) == Some((id, true))
    ensures id !in Apply(s, l).contents
  {
  }

  // ------------------------------------------------------------ what a call may come to

  /**
   Every call ends as what it set out to be: a removal removes, a lookup is given a guard
   of its own mode, and each is about its own span throughout; an insertion takes a free
   slot of its span's shard if there is one, and the overflow map only otherwise.
   */
  lemma CallsEndAsMeant(s: State, l: Label)
    requires Enabled(s, l)
    ensures var (pc, pc') := (s.pcs[l.actor], Raw(s, l).pcs[l.actor]);
            match l.action
            case BeginInsert(id, data) => pc' == Inserting(id, data)
            case BeginLookup(id, mode) => pc' == Looking(id, mode, false)
            case Update(_) => pc' == pc
            case Advance =>
              match pc
              case Inserting(id, data) =>
                (var entries := s.shards[s.shardOf(id)].entries;
                 if exists j: nat :: j < |entries| && entries[j] == None then
                   pc' == Idle && Raw(s, l).overflow == s.overflow
                 else pc' == Spilling(id, data) && Raw(s, l).shards == s.shards)
              case Looking(id, mode, absent) => EndsLookup(pc', id, mode) || pc' == LookingOver(id, mode, absent)
              case LookingOver(id, mode, absent) => EndsLookup(pc', id, mode) || pc' == Missed(id, mode, absent)
              case _ => pc' == Idle
  {
    if l.action.Advance? && s.pcs[l.actor].Inserting? {
      FirstFreeExists(s.shards[s.shardOf(s.pcs[l.actor].span)].entries);
    }
  }

  /** A removal has the removed data, and only a removal; any other lookup has a guard of its mode. */
  predicate EndsLookup(pc: Pc, id: nat, mode: Mode) {
    if mode == Remove then pc.Removed? && pc.span == id else pc.Guarding? && pc.span == id && pc.mode == mode
  }

  lemma FirstFreeExists(entries: seq<Option<ActiveEntry<Data>>>)
    ensures (exists j: nat :: j < |entries| && entries[j] == None) <==> FirstFree(entries) < |entries|
  {
  }

  // ------------------------------------------------------------ locks are given back

  /** A shard is locked only by a guard on a span that is in it. */
  ghost predicate HeldOk(s: State) {
    forall k: nat :: k < |s.shards| && s.shards[k].holder.Some? ==>
      var a := s.shards[k].holder.value;
      a < |s.pcs| && s.pcs[a].Guarding? && s.pcs[a].fast && s.shardOf(s.pcs[a].span) == k
  }

  lemma HeldStep(s: State, s': State, a: nat, k: nat)
    requires HeldOk(s) && a < |s.pcs| == |s'.pcs| && s'.pcs == s.pcs[a := s'.pcs[a]] && s'.shardOf == s.shardOf
    requires |s'.shards| == |s.shards|
    requires forall i: nat :: i < |s.shards| && i != k ==> s'.shards[i].holder == s.shards[i].holder
    requires k < |s.shards| && s'.shards[k].holder.Some? ==>
               s'.shards[k].holder == Some(a) && s'.pcs[a].Guarding? && s'.pcs[a].fast && s.shardOf(s'.pcs[a].span) == k
    requires forall i: nat :: i < |s.shards| && i != k ==> s.shards[i].holder != Some(a)
    ensures HeldOk(s')
  {
  }

  lemma SameHeld(s: State, s': State, a: nat)
    requires HeldOk(s) && a < |s.pcs| == |s'.pcs| && s'.pcs == s.pcs[a := s'.pcs[a]] && s'.shardOf == s.shardOf
    requires |s'.shards| == |s.shards|
    requires forall i: nat :: i < |s.shards| ==> s'.shards[i].holder == s.shards[i].holder
    requires s'.pcs[a] == s.pcs[a] || forall i: nat :: i < |s.shards| ==> s.shards[i].holder != Some(a)
    ensures HeldOk(s')
  {
  }

  lemma LookHeld(s: State, a: nat, id: nat, mode: Mode, absent: bool)
    requires HeldOk(s) && a < |s.pcs| && s.pcs[a] == Looking(id, mode, absent) && ShardFree(s, id)
    ensures HeldOk(LookFast(s, a, id, mode, absent))
  {
    HeldStep(s, LookFast(s, a, id, mode, absent), a, s.shardOf(id));
  }

  lemma UnlockHeld(s: State, a: nat, id: nat)
    requires HeldOk(s) && a < |s.pcs| && s.pcs[a].Guarding? && s.pcs[a].span == id && s.shardOf(id) < |s.shards|
    ensures HeldOk(Unlock(Go(s, a, Idle), s.shardOf(id)))
  {
    HeldStep(s, Unlock(Go(s, a, Idle), s.shardOf(id)), a, s.shardOf(id));
  }

  lemma InsertHeld(s: State, a: nat, id: nat, data: Data)
    requires HeldOk(s) && a < |s.pcs| && s.pcs[a] == Inserting(id, data) && ShardFree(s, id)
    ensures HeldOk(InsertFast(s, a, id, data))
  {
    SameHeld(s, InsertFast(s, a, id, data), a);
  }

  lemma UpdateHeld(s: State, a: nat, data: Data)
    requires HeldOk(s) && Enabled(s, Label(a, Update(data)))
    ensures HeldOk(Overwrite(s, s.pcs[a].span, s.pcs[a].fast, s.pcs[a].index, data))
  {
    SameHeld(s, Overwrite(s, s.pcs[a].span, s.pcs[a].fast, s.pcs[a].index, data), a);
  }

  /** A callback without a fast guard holds no lock. */
  lemma HoldsNone(s: State, a: nat)
    requires HeldOk(s) && a < |s.pcs| && !(s.pcs[a].Guarding? && s.pcs[a].fast)
    ensures forall i: nat :: i < |s.shards| ==> s.shards[i].holder != Some(a)
  {
  }

  lemma ElseHeld(s: State, l: Label)
    requires HeldOk(s) && Enabled(s, l) && !l.action.Update?
    requires l.action.Advance? ==> !s.pcs[l.actor].Looking? && !s.pcs[l.actor].Inserting?
    requires l.action.Advance? ==> !(s.pcs[l.actor].Guarding? && s.pcs[l.actor].fast)
    ensures HeldOk(Raw(s, l))
  {
    HoldsNone(s, l.actor);
    SameHeld(s, Raw(s, l), l.actor);
  }

  lemma HeldKept(s: State, l: Label)
    requires HeldOk(s) && Enabled(s, l)
    ensures HeldOk(Raw(s, l))
  {
    var a, pc := l.actor, s.pcs[l.actor];
    if l.action.Update? {
      UpdateHeld(s, a, l.action.data);
    } else if l.action.Advance? && pc.Looking? {
      LookHeld(s, a, pc.span, pc.mode, pc.absent);
    } else if l.action.Advance? && pc.Inserting? {
      InsertHeld(s, a, pc.span, pc.data);
    } else if l.action.Advance? && pc.Guarding? && pc.fast {
      UnlockHeld(s, a, pc.span);
    } else {
      ElseHeld(s, l);
    }
  }

  lemma NotedHeld(s: State)
    requires HeldOk(s)
    ensures HeldOk(NotedAll(s))
  {
    assert forall b: nat :: b < |s.pcs| && s.pcs[b].Guarding? ==> NotedAll(s).pcs[b] == s.pcs[b];
  }

  lemma {:induction false} RunKeepsHeld(s: State, labels: seq<Label>)
    requires HeldOk(s)
    ensures HeldOk(Run(s, labels))
    decreases |labels|
  {
    if labels != [] && Enabled(s, labels[0]) {
      HeldKept(s, labels[0]);
      NotedHeld(Raw(s, labels[0]));
      RunKeepsHeld(Apply(s, labels[0]), labels[1..]);
    }
  }

  /**
   No lock is left behind: in every reachable state a locked shard has a callback that
   holds a guard on a span of that very shard, and its next step frees it.
   */
  lemma LocksAreGivenBack(s: State, shardOf: nat -> nat, actors: nat, labels: seq<Label>, k: nat)
    requires ShardsSpread(shardOf) && s == Run(Initial(shardOf, actors), labels)
    requires k < |s.shards| && s.shards[k].holder.Some?
    ensures var a := s.shards[k].holder.value;
            && a < |s.pcs| && s.pcs[a].Guarding? && s.pcs[a].fast && s.shardOf(s.pcs[a].span) == k
            && Enabled(s, Label(a, Advance))
            && Apply(s, Label(a, Advance)).shards[k].holder == None && Apply(s, Label(a, Advance)).pcs[a] == Idle
  {
    RunKeepsHeld(Initial(shardOf, actors), labels);
  }
}
