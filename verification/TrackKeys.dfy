/** Every track claimed for a key was described with exactly that name and parent. */
module TrackKeys {
  import opened Prelude
  import opened TrackMachine
  import opened TrackOwnership
  import opened TrackShapes
  import opened TrackPools

  // ------------------------------------------------------------ the invariant

  /** The key a callback is working for. */
  function KeyOf(pc: Pc): Option<Key> {
    match pc
    case Idle => None
    case Exiting(_, _) => None
    case Evicting(_, _, key, _, _) => Some(key)
    case Installing(_, _, _, key, _, _) => Some(key)
    case Closing(key, _, _) => Some(key)
    case Ending(_, key, _, _) => Some(key)
    case Releasing(_, key, _, _) => Some(key)
    case _ => if Creating(pc).Some? then Some(Creating(pc).value.1) else None
  }

  predicate TrackKeyed(keys: seq<Option<Key>>, u: Option<nat>, key: Key) {
    u.Some? ==> u.value < |keys| && keys[u.value] == Some(key)
  }

  predicate PoolKeyed(pools: seq<Pool>, p: Option<nat>, key: Key) {
    p.Some? ==> p.value < |pools| && pools[p.value].key == key
  }

  /** Between missing the cache and installing the pool, the key is in no slot. */
  predicate NeedsAbsent(pc: Pc) {
    IsQuiet(pc) || (pc.Popping? && !pc.cached) || pc.Evicting? || pc.Installing?
  }

  ghost predicate Absent(slots: seq<Option<Slot>>, key: Key) {
    forall k: nat :: k < |slots| ==> !HasKey(slots[k], key)
  }

  ghost predicate PcKeyed(s: State, pc: Pc) {
    KeyOf(pc).Some? ==>
      var key := KeyOf(pc).value;
      && TrackKeyed(s.keys, HandOf(pc), key) && PoolKeyed(s.pools, OwnerOf(pc), key)
      && (NeedsAbsent(pc) ==> ContextOf(pc).Some? && ContextOf(pc).value < |s.contexts|
                              && Absent(s.contexts[ContextOf(pc).value].slots, key))
  }

  predicate SpanKeyed(s: State, span: Span) {
    TrackKeyed(s.keys, span.track, span.key) && PoolKeyed(s.pools, span.pool, span.key)
  }

  predicate SlotKeyed(s: State, slot: Option<Slot>) {
    slot.Some? ==>
      && TrackKeyed(s.keys, slot.value.local, slot.value.key)
      && PoolKeyed(s.pools, Some(slot.value.pool), slot.value.key)
  }

  /** A cache has at most one slot per key, hence per pool. */
  ghost predicate OncePerKey(slots: seq<Option<Slot>>) {
    forall j: nat, k: nat :: j < k < |slots| && slots[j].Some? && slots[k].Some? ==>
        slots[j].value.key != slots[k].value.key
  }

  ghost predicate ContextKeyed(s: State, x: Context) {
    (forall k: nat :: k < |x.slots| ==> SlotKeyed(s, x.slots[k])) && OncePerKey(x.slots)
  }

  ghost predicate QueueKeyed(s: State, pool: Pool) {
    forall u :: u in pool.tracks ==> u < |s.keys| && s.keys[u] == Some(pool.key)
  }

  ghost predicate AllKeyed(s: State) {
    && (forall a: nat :: a < |s.pcs| ==> PcKeyed(s, s.pcs[a]))
    && (forall id :: id in s.live ==> SpanKeyed(s, s.live[id]))
    && (forall c: nat :: c < |s.contexts| ==> ContextKeyed(s, s.contexts[c]))
    && (forall p: nat :: p < |s.pools| ==> QueueKeyed(s, s.pools[p]))
  }

  // ------------------------------------------------------------ what a step may change

  /** Descriptors and pool keys never change. */
  ghost predicate Described(s: State, s': State) {
    && |s.keys| <= |s'.keys| && (forall u: nat :: u < |s.keys| ==> s'.keys[u] == s.keys[u])
    && |s.pools| <= |s'.pools| && (forall p: nat :: p < |s.pools| ==> s'.pools[p].key == s.pools[p].key)
  }

  predicate SameSpan(x: Span, y: Span) {
    x.track == y.track && x.pool == y.pool && x.key == y.key
  }

  ghost predicate ContextsKeyed(s: State, s': State, a: nat, c: nat) {
    || s'.contexts == s.contexts
    || (c < |s.contexts| == |s'.contexts| && s'.contexts == s.contexts[c := s'.contexts[c]]
        && (s'.contexts[c].slots == s.contexts[c].slots
            || (s.contexts[c].borrower == Some(a) && ContextKeyed(s', s'.contexts[c]))))
  }

  /** Everything but the callback's program counter is as a step must leave it. */
  ghost predicate KeyPart(s: State, s': State, a: nat, c: nat) {
    && a < |s.pcs| && s'.pcs == s.pcs && Described(s, s') && ContextsKeyed(s, s', a, c)
    && (forall id :: id in s'.live ==>
        (id in s.live && SameSpan(s.live[id], s'.live[id])) || SpanKeyed(s', s'.live[id]))
    && (forall p: nat :: p < |s'.pools| ==>
        (p < |s.pools| && s'.pools[p].tracks == s.pools[p].tracks) || QueueKeyed(s', s'.pools[p]))
  }

  lemma PcStaysKeyed(s: State, s': State, a: nat, c: nat, b: nat)
    requires Shaped(s) && AllKeyed(s) && KeyPart(s, s', a, c) && b < |s.pcs| && b != a
    ensures PcKeyed(s', s.pcs[b])
  {
    var pc := s.pcs[b];
    assert PcKeyed(s, pc);
    if KeyOf(pc).Some? && NeedsAbsent(pc) {
      var d := ContextOf(pc).value;
      assert s.contexts[d].borrower == Some(b);
      assert s'.contexts[d].slots == s.contexts[d].slots;
    }
  }

  lemma KeyedKept(s: State, s1: State, a: nat, c: nat, pc: Pc)
    requires Shaped(s) && AllKeyed(s) && KeyPart(s, s1, a, c) && PcKeyed(s1, pc)
    ensures AllKeyed(Go(s1, a, pc))
  {
    var s' := Go(s1, a, pc);
    forall b: nat | b < |s'.pcs|
      ensures PcKeyed(s', s'.pcs[b])
    {
      if b != a {
        PcStaysKeyed(s, s1, a, c, b);
        assert PcKeyed(s1, s.pcs[b]);
      }
    }
    RestKept(s, s1, a, c);
    SameKeyed(s1, s');
  }

  lemma RestKept(s: State, s1: State, a: nat, c: nat)
    requires AllKeyed(s) && KeyPart(s, s1, a, c)
    ensures forall id :: id in s1.live ==> SpanKeyed(s1, s1.live[id])
    ensures forall d: nat :: d < |s1.contexts| ==> ContextKeyed(s1, s1.contexts[d])
    ensures forall p: nat :: p < |s1.pools| ==> QueueKeyed(s1, s1.pools[p])
  {
    forall id | id in s1.live
      ensures SpanKeyed(s1, s1.live[id])
    {
      assert id in s.live ==> SpanKeyed(s, s.live[id]);
    }
    forall d: nat | d < |s1.contexts|
      ensures ContextKeyed(s1, s1.contexts[d])
    {
      if s1.contexts[d].slots == s.contexts[d].slots {
        assert ContextKeyed(s, s.contexts[d]);
        assert forall k: nat :: k < |s.contexts[d].slots| ==> SlotKeyed(s, s.contexts[d].slots[k]);
      }
    }
    forall p: nat | p < |s1.pools|
      ensures QueueKeyed(s1, s1.pools[p])
    {
      assert p < |s.pools| ==> QueueKeyed(s, s.pools[p]);
    }
  }

  lemma SameKeyed(s1: State, s': State)
    requires s'.keys == s1.keys && s'.pools == s1.pools && s'.contexts == s1.contexts && s'.live == s1.live
    ensures forall pc: Pc :: PcKeyed(s', pc) <==> PcKeyed(s1, pc)
    ensures forall span: Span :: SpanKeyed(s', span) <==> SpanKeyed(s1, span)
    ensures forall x: Context :: ContextKeyed(s', x) <==> ContextKeyed(s1, x)
    ensures forall pool: Pool :: QueueKeyed(s', pool) <==> QueueKeyed(s1, pool)
  {
    forall x: Context
      ensures ContextKeyed(s', x) <==> ContextKeyed(s1, x)
    {
      assert forall k: nat :: k < |x.slots| ==> (SlotKeyed(s', x.slots[k]) <==> SlotKeyed(s1, x.slots[k]));
    }
  }

  // ------------------------------------------------------------ parts of steps

  lemma KeyNothing(s: State, a: nat, c: nat)
    requires AllKeyed(s) && a < |s.pcs|
    ensures KeyPart(s, s, a, c)
  {
    assert forall id :: id in s.live ==> SpanKeyed(s, s.live[id]);
  }

  lemma KeySlot(s: State, a: nat, c: nat, k: nat, slot: Option<Slot>)
    requires AllKeyed(s) && a < |s.pcs| && c < |s.contexts| && k < |s.contexts[c].slots|
    requires s.contexts[c].borrower == Some(a)
    requires SlotKeyed(s, slot)
    requires slot.Some? ==> forall j: nat :: j < |s.contexts[c].slots| && j != k ==>
        !HasKey(s.contexts[c].slots[j], slot.value.key)
    ensures KeyPart(s, PutSlot(s, c, k, slot), a, c)
  {
    var s' := PutSlot(s, c, k, slot);
    assert ContextKeyed(s, s.contexts[c]);
    forall j: nat | j < |s'.contexts[c].slots|
      ensures SlotKeyed(s', s'.contexts[c].slots[j])
    {
      assert j != k ==> SlotKeyed(s, s.contexts[c].slots[j]);
    }
    assert forall id :: id in s.live ==> SpanKeyed(s, s.live[id]);
  }

  /** A slot that keeps its key stays the only one with it. */
  lemma KeySameSlot(s: State, a: nat, c: nat, k: nat, slot: Slot)
    requires AllKeyed(s) && a < |s.pcs| && c < |s.contexts| && k < |s.contexts[c].slots|
    requires s.contexts[c].borrower == Some(a)
    requires SlotKeyed(s, Some(slot)) && HasKey(s.contexts[c].slots[k], slot.key)
    ensures KeyPart(s, PutSlot(s, c, k, Some(slot)), a, c)
  {
    assert ContextKeyed(s, s.contexts[c]);
    KeySlot(s, a, c, k, Some(slot));
  }

  lemma KeyThen(s: State, s1: State, s2: State, a: nat, c: nat)
    requires KeyPart(s, s1, a, c)
    requires s2.pcs == s1.pcs && s2.contexts == s1.contexts && s2.pools == s1.pools && s2.live == s1.live
    requires s2.keys == s1.keys
    ensures KeyPart(s, s2, a, c)
  {
    SameKeyed(s1, s2);
  }

  lemma KeyBorrow(s: State, s1: State, a: nat, c: nat, borrower: Option<nat>)
    requires KeyPart(s, s1, a, c) && c < |s1.contexts|
    ensures KeyPart(s, Borrow(s1, c, borrower), a, c)
  {
    var s2 := Borrow(s1, c, borrower);
    assert forall x: Context :: ContextKeyed(s1, x) ==> ContextKeyed(s2, x) by {
      forall x: Context | ContextKeyed(s1, x)
        ensures ContextKeyed(s2, x)
      {
        assert forall k: nat :: k < |x.slots| ==> SlotKeyed(s1, x.slots[k]);
      }
    }
    assert s1.contexts != s.contexts ==>
        s1.contexts[c].slots == s.contexts[c].slots || ContextKeyed(s1, s1.contexts[c]);
    assert forall k: nat :: k < |s2.contexts[c].slots| ==> s2.contexts[c].slots[k] == s1.contexts[c].slots[k];
  }

  lemma KeyRelease(s: State, s1: State, a: nat, c: nat, p: nat, u: nat)
    requires AllKeyed(s) && KeyPart(s, s1, a, c) && p < |s1.pools| && u < |s1.places| && u < |s1.keys|
    requires s1.keys[u] == Some(s1.pools[p].key)
    ensures KeyPart(s, ReleaseTo(s1, p, u), a, c)
  {
    var s2 := ReleaseTo(s1, p, u);
    RestKept(s, s1, a, c);
    assert QueueKeyed(s1, s1.pools[p]);
    assert QueueKeyed(s2, s2.pools[p]);
    forall q: nat | q < |s2.pools|
      ensures QueueKeyed(s2, s2.pools[q])
    {
      assert QueueKeyed(s1, s1.pools[q]);
    }
    assert forall x: Context :: ContextKeyed(s1, x) ==> ContextKeyed(s2, x) by {
      forall x: Context | ContextKeyed(s1, x)
        ensures ContextKeyed(s2, x)
      {
        assert forall k: nat :: k < |x.slots| ==> SlotKeyed(s1, x.slots[k]);
      }
    }
  }

  // ------------------------------------------------------------ each step

  ghost predicate Ready(s: State, a: nat) {
    Shaped(s) && AllKeyed(s) && PoolMapOk(s) && Here(s, a) && PcKeyed(s, s.pcs[a])
  }

  lemma ScanKeyed(s: State, a: nat, w: Work)
    requires Ready(s, a) && s.pcs[a] == Scanning(w)
    ensures AllKeyed(Scan(s, a, w))
  {
    var c := w.context;
    var slots := s.contexts[c].slots;
    var k := FindKey(slots, w.key);
    assert ContextKeyed(s, s.contexts[c]);
    KeyNothing(s, a, c);
    if k == |slots| {
      KeyedKept(s, s, a, c, LookingUp(w));
    } else {
      assert SlotKeyed(s, slots[k]);
      var slot := slots[k].value;
      if slot.local.None? {
        KeyedKept(s, s, a, c, Popping(w, slot.pool, true));
      } else {
        TakeKeyed(s, a, w, k, slot);
      }
    }
  }

  lemma TakeKeyed(s: State, a: nat, w: Work, k: nat, slot: Slot)
    requires Ready(s, a) && s.pcs[a] == Scanning(w) && k < |s.contexts[w.context].slots|
    requires s.contexts[w.context].slots[k] == Some(slot) && slot.key == w.key && slot.local.Some?
    requires SlotKeyed(s, Some(slot))
    ensures slot.local.value < |s.places|
    ensures AllKeyed(Go(PutSlot(s, w.context, k,
                                Some(slot.(local := None))).(places := s.places[slot.local.value := Hand(a)]),
                     a, Opening(w, Some(slot.pool), slot.local)))
  {
    var put := PutSlot(s, w.context, k, Some(slot.(local := None)));
    var moved := put.(places := s.places[slot.local.value := Hand(a)]);
    KeySameSlot(s, a, w.context, k, slot.(local := None));
    KeyThen(s, put, moved, a, w.context);
    KeyedKept(s, moved, a, w.context, Opening(w, Some(slot.pool), slot.local));
  }

  lemma LookUpKeyed(s: State, a: nat, w: Work)
    requires Ready(s, a) && s.pcs[a] == LookingUp(w)
    ensures AllKeyed(LookUp(s, a, w))
  {
    KeyNothing(s, a, w.context);
    if w.key in s.poolOf {
      KeyedKept(s, s, a, w.context, Popping(w, s.poolOf[w.key], false));
    } else {
      KeyedKept(s, s, a, w.context, Entering(w));
    }
  }

  lemma EnterKeyed(s: State, a: nat, w: Work)
    requires Ready(s, a) && s.pcs[a] == Entering(w)
    ensures AllKeyed(EnterPool(s, a, w))
  {
    KeyNothing(s, a, w.context);
    if w.key in s.poolOf {
      KeyedKept(s, s, a, w.context, Popping(w, s.poolOf[w.key], false));
    } else {
      var locked := s.(locks := s.locks[w.key := a]);
      KeyThen(s, s, locked, a, w.context);
      KeyedKept(s, locked, a, w.context, Reserving(w));
    }
  }

  lemma ReserveKeyed(s: State, a: nat, w: Work)
    requires Ready(s, a) && s.pcs[a] == Reserving(w)
    ensures AllKeyed(Reserve(s, a, w))
  {
    if s.count < MAX_REUSABLE_KEYS {
      AsideKeyed(s, s.(count := s.count + 1), a, w.context, Publishing(w));
    } else {
      AsideKeyed(s, s.(locks := s.locks - {w.key}), a, w.context, Opening(w, None, None));
    }
  }

  /** A step that touches the pool map's count or locks only. */
  lemma AsideKeyed(s: State, s1: State, a: nat, c: nat, pc: Pc)
    requires Ready(s, a) && PcKeyed(s1, pc)
    requires s1 == s.(count := s1.count, locks := s1.locks)
    ensures AllKeyed(Go(s1, a, pc))
  {
    KeyNothing(s, a, c);
    KeyThen(s, s, s1, a, c);
    KeyedKept(s, s1, a, c, pc);
  }

  lemma PublishKeyed(s: State, a: nat, w: Work)
    requires Ready(s, a) && s.pcs[a] == Publishing(w)
    ensures AllKeyed(Publish(s, a, w))
  {
    var p := |s.pools|;
    var published := s.(pools := s.pools + [Pool(w.key, [])], poolOf := s.poolOf[w.key := p],
                        locks := s.locks - {w.key});
    assert QueueKeyed(published, published.pools[p]);
    assert forall id :: id in s.live ==> SpanKeyed(s, s.live[id]);
    assert KeyPart(s, published, a, w.context);
    KeyedKept(s, published, a, w.context, Popping(w, p, false));
  }

  lemma PopKeyed(s: State, a: nat, w: Work, p: nat, cached: bool)
    requires Ready(s, a) && s.pcs[a] == Popping(w, p, cached)
    ensures AllKeyed(Pop(s, a, w, p, cached))
  {
    if s.pools[p].tracks == [] {
      KeyNothing(s, a, w.context);
      KeyedKept(s, s, a, w.context, Popped(w, p, cached, None));
    } else {
      PoppedKeyed(s, a, w.context, p);
      PopSomeKeyed(s, a, w, p, cached, s.pools[p].tracks[0]);
    }
  }

  lemma PopSomeKeyed(s: State, a: nat, w: Work, p: nat, cached: bool, u: nat)
    requires Ready(s, a) && s.pcs[a] == Popping(w, p, cached) && s.pools[p].tracks != [] && u == s.pools[p].tracks[0]
    requires u < |s.places| && s.keys[u] == Some(s.pools[p].key)
    requires KeyPart(s, s.(pools := s.pools[p := s.pools[p].(tracks := s.pools[p].tracks[1..])],
                           places := s.places[u := Hand(a)]), a, w.context)
    ensures AllKeyed(Go(s.(pools := s.pools[p := s.pools[p].(tracks := s.pools[p].tracks[1..])],
                           places := s.places[u := Hand(a)]),
                     a, Popped(w, p, cached, Some(u))))
  {
    var popped := s.(pools := s.pools[p := s.pools[p].(tracks := s.pools[p].tracks[1..])],
                     places := s.places[u := Hand(a)]);
    assert popped.contexts == s.contexts && popped.keys == s.keys && popped.pools[p].key == s.pools[p].key;
    assert PcKeyed(popped, Popped(w, p, cached, Some(u)));
    KeyedKept(s, popped, a, w.context, Popped(w, p, cached, Some(u)));
  }

  lemma PoppedKeyed(s: State, a: nat, c: nat, p: nat)
    requires AllKeyed(s) && a < |s.pcs| && p < |s.pools| && s.pools[p].tracks != [] && |s.keys| == |s.places|
    ensures var u := s.pools[p].tracks[0];
            && u < |s.places| && s.keys[u] == Some(s.pools[p].key)
            && KeyPart(s, s.(pools := s.pools[p := s.pools[p].(tracks := s.pools[p].tracks[1..])],
                             places := s.places[u := Hand(a)]), a, c)
  {
    var tracks := s.pools[p].tracks;
    assert QueueKeyed(s, s.pools[p]);
    assert tracks[0] in tracks;
    var popped := s.(pools := s.pools[p := s.pools[p].(tracks := tracks[1..])],
                     places := s.places[tracks[0] := Hand(a)]);
    assert QueueKeyed(popped, popped.pools[p]);
    assert forall id :: id in s.live ==> SpanKeyed(s, s.live[id]);
  }

  lemma EmptiedKeyed(s: State, a: nat, c: nat)
    requires Ready(s, a) && ContextOf(s.pcs[a]) == Some(c)
    ensures KeyPart(s, EmptyNext(s, c), a, c)
  {
    var s' := EmptyNext(s, c);
    assert ContextKeyed(s, s.contexts[c]);
    forall j: nat | j < |s'.contexts[c].slots|
      ensures SlotKeyed(s', s'.contexts[c].slots[j])
    {
      assert SlotKeyed(s, s.contexts[c].slots[j]);
    }
    assert forall id :: id in s.live ==> SpanKeyed(s, s.live[id]);
  }

  lemma EvictKeyed(s: State, a: nat, c: nat, p: nat, key: Key, hand: Option<nat>, purpose: Purpose)
    requires Ready(s, a) && s.pcs[a] == Evicting(c, p, key, hand, purpose)
    ensures AllKeyed(Evict(s, a, c, p, key, hand, purpose))
  {
    var k := s.contexts[c].next;
    VictimGoneKeyed(s, a, c, s.contexts[c].slots[k], Installing(c, k, p, key, hand, purpose));
  }

  lemma VictimGoneKeyed(s: State, a: nat, c: nat, victim: Option<Slot>, pc: Pc)
    requires Ready(s, a) && s.pcs[a].Evicting? && ContextOf(s.pcs[a]) == Some(c)
    requires pc == Installing(c, s.contexts[c].next, s.pcs[a].pool, s.pcs[a].key, s.pcs[a].hand, s.pcs[a].purpose)
    requires victim == s.contexts[c].slots[s.contexts[c].next]
    ensures LocalOf(victim).Some? ==>
              && victim.value.pool < |s.pools| && LocalOf(victim).value < |s.places|
              && AllKeyed(Go(ReleaseTo(EmptyNext(s, c), victim.value.pool, LocalOf(victim).value), a, pc))
    ensures LocalOf(victim).None? ==> AllKeyed(Go(EmptyNext(s, c), a, pc))
  {
    EmptiedKeyed(s, a, c);
    VictimKeyed(s, a, c, pc);
    if LocalOf(victim).Some? {
      EvictedKeyed(s, a, c, pc, victim.value);
    } else {
      EmptySlotKeyed(s, a, c, pc);
    }
  }

  lemma EmptySlotKeyed(s: State, a: nat, c: nat, pc: Pc)
    requires Ready(s, a) && ContextOf(s.pcs[a]) == Some(c) && KeyPart(s, EmptyNext(s, c), a, c)
    requires PcKeyed(EmptyNext(s, c), pc)
    ensures AllKeyed(Go(EmptyNext(s, c), a, pc))
  {
    KeyedKept(s, EmptyNext(s, c), a, c, pc);
  }

  lemma VictimKeyed(s: State, a: nat, c: nat, pc: Pc)
    requires Ready(s, a) && s.pcs[a].Evicting? && ContextOf(s.pcs[a]) == Some(c)
    requires pc == Installing(c, s.contexts[c].next, s.pcs[a].pool, s.pcs[a].key, s.pcs[a].hand, s.pcs[a].purpose)
    ensures SlotKeyed(s, s.contexts[c].slots[s.contexts[c].next])
    ensures PcKeyed(EmptyNext(s, c), pc)
  {
    assert ContextKeyed(s, s.contexts[c]);
  }

  lemma EvictedKeyed(s: State, a: nat, c: nat, pc: Pc, victim: Slot)
    requires Ready(s, a) && ContextOf(s.pcs[a]) == Some(c) && KeyPart(s, EmptyNext(s, c), a, c)
    requires PcKeyed(EmptyNext(s, c), pc)
    requires SlotKeyed(s, Some(victim)) && victim.local.Some?
    ensures victim.local.value < |s.places|
    ensures AllKeyed(Go(ReleaseTo(EmptyNext(s, c), victim.pool, victim.local.value), a, pc))
  {
    var released := ReleaseTo(EmptyNext(s, c), victim.pool, victim.local.value);
    KeyRelease(s, EmptyNext(s, c), a, c, victim.pool, victim.local.value);
    assert released.contexts == EmptyNext(s, c).contexts && released.keys == s.keys;
    assert PcKeyed(released, pc);
    KeyedKept(s, released, a, c, pc);
  }

  lemma InstallKeyed(s: State, a: nat, c: nat, k: nat, p: nat, key: Key, hand: Option<nat>, purpose: Purpose)
    requires Ready(s, a) && s.pcs[a] == Installing(c, k, p, key, hand, purpose)
    ensures AllKeyed(Install(s, a, c, k, p, key, hand, purpose))
  {
    match purpose
    case ForClaim(id, parent) =>
      var slot := Some(Slot(key, p, None));
      KeySlot(s, a, c, k, slot);
      KeyedKept(s, PutSlot(s, c, k, slot), a, c, Opening(Work(id, key, parent, c), Some(p), hand));
    case ForRelease =>
      var slot := Some(Slot(key, p, hand));
      KeySlot(s, a, c, k, slot);
      if hand.Some? {
        KeptKeyed(s, PutSlot(s, c, k, slot), s.places[hand.value := Cached(c, k)], a, c);
      } else {
        KeptKeyed(s, PutSlot(s, c, k, slot), s.places, a, c);
      }
  }

  /** A released uuid stays in the cache: the callback is done. */
  lemma KeptKeyed(s: State, put: State, places: seq<Place>, a: nat, c: nat)
    requires Shaped(s) && AllKeyed(s) && KeyPart(s, put, a, c) && c < |put.contexts|
    ensures AllKeyed(Go(Borrow(put.(places := places), c, None), a, Idle))
  {
    var placed := put.(places := places);
    KeyThen(s, put, placed, a, c);
    KeyBorrow(s, placed, a, c, None);
    KeyedKept(s, Borrow(placed, c, None), a, c, Idle);
  }

  lemma OpenKeyed(s: State, a: nat, w: Work, owner: Option<nat>, hand: Option<nat>)
    requires Ready(s, a) && s.pcs[a] == Opening(w, owner, hand)
    ensures AllKeyed(Open(s, a, w, owner, hand))
  {
    if hand.Some? {
      KeyNothing(s, a, w.context);
      KeyedKept(s, s, a, w.context, Beginning(w, owner, hand.value));
    } else {
      OpenNewKeyed(s, a, w, owner);
    }
  }

  lemma OpenNewKeyed(s: State, a: nat, w: Work, owner: Option<nat>)
    requires Ready(s, a) && s.pcs[a] == Opening(w, owner, None)
    ensures AllKeyed(Go(Allocate(s, Hand(a), Some(w.key)), a, Beginning(w, owner, |s.places|)))
  {
    AllocateKeyed(s, a, w.context, Hand(a), Some(w.key));
    KeyedKept(s, Allocate(s, Hand(a), Some(w.key)), a, w.context, Beginning(w, owner, |s.places|));
  }

  lemma AllocateKeyed(s: State, a: nat, c: nat, place: Place, key: Option<Key>)
    requires AllKeyed(s) && a < |s.pcs|
    ensures KeyPart(s, Allocate(s, place, key), a, c)
  {
    assert forall id :: id in s.live ==> SpanKeyed(s, s.live[id]);
  }

  lemma StoreKeyed(s: State, a: nat, w: Work, owner: Option<nat>, u: nat)
    requires Ready(s, a) && s.pcs[a] == Storing(w, owner, u) && u < |s.places|
    ensures AllKeyed(Store(s, a, w, owner, u))
  {
    var stored := s.(live := s.live[w.span := Span(owner, Some(u), w.key, w.parent, 0)],
                     places := s.places[u := Live(w.span)]);
    assert SpanKeyed(stored, stored.live[w.span]);
    assert KeyPart(s, stored, a, w.context);
    KeyBorrow(s, stored, a, w.context, None);
    KeyedKept(s, Borrow(stored, w.context, None), a, w.context, Idle);
  }

  lemma ReleaseKeyed(s: State, a: nat, held: Option<nat>, key: Key, owner: Option<nat>, u: nat)
    requires Ready(s, a) && s.pcs[a] == Releasing(held, key, owner, u) && u < |s.places|
    ensures AllKeyed(Release(s, a, held, key, owner, u))
  {
    var c := if held.Some? then held.value else 0;
    KeyNothing(s, a, c);
    if owner.None? {
      KeyThen(s, s, Retire(s, u), a, c);
      if held.Some? {
        KeyBorrow(s, Retire(s, u), a, c, None);
      }
      KeyedKept(s, FreeContext(Retire(s, u), held), a, c, Idle);
    } else if held.None? {
      KeyRelease(s, s, a, c, owner.value, u);
      KeyedKept(s, ReleaseTo(s, owner.value, u), a, c, Idle);
    } else {
      ReleaseCachedKeyed(s, a, c, key, owner.value, u);
    }
  }

  lemma ReleaseCachedKeyed(s: State, a: nat, c: nat, key: Key, p: nat, u: nat)
    requires Ready(s, a) && s.pcs[a] == Releasing(Some(c), key, Some(p), u) && u < |s.places|
    ensures AllKeyed(ReleaseCached(s, a, c, key, p, u))
  {
    KeyNothing(s, a, c);
    var slots := s.contexts[c].slots;
    var k := FindPool(slots, p);
    assert ContextKeyed(s, s.contexts[c]);
    assert forall j: nat :: j < |slots| ==> SlotKeyed(s, slots[j]);
    if k == |slots| {
      assert Absent(slots, key);
      KeyedKept(s, s, a, c, Evicting(c, p, key, Some(u), ForRelease));
    } else if slots[k].value.local.None? {
      var slot := slots[k].value.(local := Some(u));
      var put := PutSlot(s, c, k, Some(slot));
      assert slot.key == key;
      KeySameSlot(s, a, c, k, slot);
      KeptKeyed(s, put, s.places[u := Cached(c, k)], a, c);
    } else {
      KeyRelease(s, s, a, c, p, u);
      KeyBorrow(s, ReleaseTo(s, p, u), a, c, None);
      KeyedKept(s, Borrow(ReleaseTo(s, p, u), c, None), a, c, Idle);
    }
  }

  lemma DropKeyed(s: State, a: nat, c: nat, k: nat)
    requires Ready(s, a) && s.pcs[a] == Exiting(c, k)
    ensures AllKeyed(DropSlot(s, a, c, k))
  {
    KeyNothing(s, a, c);
    if k >= |s.contexts[c].slots| {
      KeyedKept(s, s, a, c, Idle);
    } else {
      var victim := s.contexts[c].slots[k];
      assert ContextKeyed(s, s.contexts[c]);
      assert SlotKeyed(s, victim);
      if victim.Some? && victim.value.local.Some? {
        var put := PutSlot(s, c, k, Some(victim.value.(local := None)));
        KeySameSlot(s, a, c, k, victim.value.(local := None));
        KeyRelease(s, put, a, c, victim.value.pool, victim.value.local.value);
        KeyedKept(s, ReleaseTo(put, victim.value.pool, victim.value.local.value), a, c, Exiting(c, k + 1));
      } else {
        KeyedKept(s, s, a, c, Exiting(c, k + 1));
      }
    }
  }

  lemma AcquireKeyed(s: State, a: nat, c: nat, pc: Pc)
    requires Ready(s, a) && c < |s.contexts| && PcKeyed(s, pc) && !NeedsAbsent(pc)
    ensures AllKeyed(Go(Borrow(s, c, Some(a)), a, pc))
  {
    KeyNothing(s, a, c);
    KeyBorrow(s, s, a, c, Some(a));
    KeyedKept(s, Borrow(s, c, Some(a)), a, c, pc);
  }

  lemma NoteKeyed(s: State, a: nat, kind: Kind, u: nat, time: nat, emitted: bool, pc: Pc)
    requires Ready(s, a) && PcKeyed(s, pc)
    ensures AllKeyed(Go(Note(s, kind, u, time, emitted), a, pc))
  {
    KeyNothing(s, a, 0);
    KeyThen(s, s, Note(s, kind, u, time, emitted), a, 0);
    SameKeyed(s, Note(s, kind, u, time, emitted));
    KeyedKept(s, Note(s, kind, u, time, emitted), a, 0, pc);
  }

  // ------------------------------------------------------------ every step

  lemma HereReady(s: State, a: nat)
    requires Shaped(s) && AllKeyed(s) && PoolMapOk(s) && a < |s.pcs|
    ensures Ready(s, a)
  {
    ShapedIsHere(s, a);
  }

  lemma ClaimKeyed(s: State, l: Label)
    requires Ready(s, l.actor) && Enabled(s, l) && l.action.Advance? && Claims(s.pcs[l.actor])
    ensures AllKeyed(Apply(s, l))
  {
    var a := l.actor;
    match s.pcs[a]
    case Scanning(w) => ScanKeyed(s, a, w);
    case LookingUp(w) => LookUpKeyed(s, a, w);
    case Entering(w) => EnterKeyed(s, a, w);
    case Reserving(w) => ReserveKeyed(s, a, w);
    case Publishing(w) => PublishKeyed(s, a, w);
    case Popping(w, p, cached) => PopKeyed(s, a, w, p, cached);
  }

  lemma ReplaceKeyed(s: State, l: Label)
    requires Ready(s, l.actor) && Enabled(s, l) && l.action.Advance? && Replaces(s.pcs[l.actor])
    ensures AllKeyed(Apply(s, l))
  {
    var a := l.actor;
    match s.pcs[a]
    case Evicting(c, p, key, hand, purpose) => EvictKeyed(s, a, c, p, key, hand, purpose);
    case Installing(c, k, p, key, hand, purpose) => InstallKeyed(s, a, c, k, p, key, hand, purpose);
    case Opening(w, owner, hand) => OpenKeyed(s, a, w, owner, hand);
    case Storing(w, owner, u) => StoreKeyed(s, a, w, owner, u);
    case Exiting(c, k) => DropKeyed(s, a, c, k);
  }

  lemma BoundaryKeyed(s: State, l: Label)
    requires Ready(s, l.actor) && Enabled(s, l) && l.action.Advance? && !Claims(s.pcs[l.actor])
    requires !Replaces(s.pcs[l.actor])
    ensures AllKeyed(Apply(s, l))
  {
    var a := l.actor;
    match s.pcs[a]
    case Releasing(held, key, owner, u) => ReleaseKeyed(s, a, held, key, owner, u);
    case Beginning(w, owner, u) => BeginningKeyed(s, a, w, owner, u, l.choice.time);
    case Ending(c, key, owner, u) => EndKeyed(s, a, c, key, owner, u, l.choice.time);
    case Keyed(id, key, parent) => AcquireForSpanKeyed(s, a, id, key, parent, l.choice);
    case Closing(key, owner, u) => AcquireForCloseKeyed(s, a, key, owner, u, l.choice);
  }

  lemma BeginningKeyed(s: State, a: nat, w: Work, owner: Option<nat>, u: nat, time: nat)
    requires Ready(s, a) && s.pcs[a] == Beginning(w, owner, u)
    ensures AllKeyed(Go(Note(s, LifeBegin, u, time, true), a, Storing(w, owner, u)))
  {
    NoteKeyed(s, a, LifeBegin, u, time, true, Storing(w, owner, u));
  }

  lemma EndKeyed(s: State, a: nat, c: nat, key: Key, owner: Option<nat>, u: nat, time: nat)
    requires Ready(s, a) && s.pcs[a] == Ending(c, key, owner, u)
    ensures AllKeyed(Go(Note(s, LifeEnd, u, time, true), a, Releasing(Some(c), key, owner, u)))
  {
    NoteKeyed(s, a, LifeEnd, u, time, true, Releasing(Some(c), key, owner, u));
  }

  lemma AcquireForCloseKeyed(s: State, a: nat, key: Key, owner: Option<nat>, u: nat, choice: Choice)
    requires Ready(s, a) && s.pcs[a] == Closing(key, owner, u) && CanAcquire(s, choice)
    ensures AllKeyed(AcquireForClose(s, a, key, owner, u, choice))
  {
    if choice.context.Some? {
      AcquireKeyed(s, a, choice.context.value, Ending(choice.context.value, key, owner, u));
    } else {
      NoteKeyed(s, a, LifeEnd, u, choice.time, false, Releasing(None, key, owner, u));
    }
  }

  lemma AcquireForSpanKeyed(s: State, a: nat, id: nat, key: Key, parent: Option<nat>, choice: Choice)
    requires Ready(s, a) && s.pcs[a] == Keyed(id, key, parent) && CanAcquire(s, choice)
    ensures AllKeyed(AcquireForSpan(s, a, id, key, parent, choice))
  {
    if choice.context.Some? {
      AcquireKeyed(s, a, choice.context.value, Scanning(Work(id, key, parent, choice.context.value)));
    } else {
      var inserted := s.(live := s.live[id := Span(None, None, key, parent, 0)]);
      assert SpanKeyed(inserted, inserted.live[id]);
      assert KeyPart(s, inserted, a, 0);
      KeyedKept(s, inserted, a, 0, Idle);
    }
  }

  lemma StartKeyed(s: State, a: nat, id: nat, address: nat, length: nat, parent: Option<nat>)
    requires Ready(s, a) && s.pcs[a] == Idle
    ensures AllKeyed(StartSpan(s, a, id, address, length, parent))
  {
    var enclosing := if parent.Some? && parent.value in s.live then parent else None;
    var track := TrackOf(s.live, parent);
    if track.None? && s.process.None? {
      StartRootKeyed(s, a, id, address, length, enclosing);
    } else {
      var above := if track.Some? then track.value else s.process.value;
      KeyNothing(s, a, 0);
      KeyedKept(s, s, a, 0, Keyed(id, Key(address, length, above), enclosing));
    }
  }

  lemma StartRootKeyed(s: State, a: nat, id: nat, address: nat, length: nat, enclosing: Option<nat>)
    requires Ready(s, a) && s.pcs[a] == Idle
    ensures AllKeyed(Go(Allocate(s, Fixed, None).(process := Some(|s.places|)), a,
                        Keyed(id, Key(address, length, |s.places|), enclosing)))
  {
    var born := Allocate(s, Fixed, None).(process := Some(|s.places|));
    AllocateKeyed(s, a, 0, Fixed, None);
    KeyThen(s, Allocate(s, Fixed, None), born, a, 0);
    KeyedKept(s, born, a, 0, Keyed(id, Key(address, length, |s.places|), enclosing));
  }

  lemma FixedKeyed(s: State, l: Label)
    requires Shaped(s) && AllKeyed(s) && Enabled(s, l) && (l.action.AllocateOther? || l.action.UseProcess?)
    ensures AllKeyed(Apply(s, l))
  {
    var a, born := l.actor, Allocate(s, Fixed, None);
    if l.action.AllocateOther? || s.process.None? {
      AllocateKeyed(s, a, 0, Fixed, None);
      KeyThen(s, born, Apply(s, l), a, 0);
      KeyedKept(s, Apply(s, l), a, 0, Idle);
      assert Go(Apply(s, l), a, Idle) == Apply(s, l);
    }
  }

  lemma NewContextKeyed(s: State, l: Label)
    requires Shaped(s) && AllKeyed(s) && Enabled(s, l) && l.action.NewContext?
    ensures AllKeyed(Apply(s, l))
  {
    var s' := Apply(s, l);
    forall b: nat | b < |s'.pcs|
      ensures PcKeyed(s', s'.pcs[b])
    {
      assert PcKeyed(s, s.pcs[b]);
    }
    forall c: nat | c < |s'.contexts|
      ensures ContextKeyed(s', s'.contexts[c])
    {
      if c < |s.contexts| {
        assert ContextKeyed(s, s.contexts[c]);
        assert forall k: nat :: k < |s.contexts[c].slots| ==> SlotKeyed(s, s.contexts[c].slots[k]);
      }
    }
    AllocateKeyed(s, l.actor, 0, Fixed, None);
    RestKept(s, Allocate(s, Fixed, None), l.actor, 0);
    assert forall id :: id in s'.live ==> SpanKeyed(Allocate(s, Fixed, None), s'.live[id]);
    assert forall p: nat :: p < |s'.pools| ==> QueueKeyed(Allocate(s, Fixed, None), s'.pools[p]);
  }

  /** What a callback knows depends on the descriptors, pools and contexts only. */
  lemma PcsStayKeyed(s: State, s': State)
    requires AllKeyed(s) && s'.pcs == s.pcs && s'.keys == s.keys && s'.pools == s.pools && s'.contexts == s.contexts
    ensures forall b: nat :: b < |s'.pcs| ==> PcKeyed(s', s'.pcs[b])
  {
    forall b: nat | b < |s'.pcs|
      ensures PcKeyed(s', s'.pcs[b])
    {
      assert PcKeyed(s, s.pcs[b]);
    }
  }

  lemma PollPart(s: State, a: nat, id: nat, kind: Kind, choice: Choice)
    requires id in s.live && a < |s.pcs|
    ensures KeyPart(s, Poll(s, id, kind, choice), a, 0)
  {
    var s' := Poll(s, id, kind, choice);
    assert s'.live.Keys == s.live.Keys && forall j :: j in s.live ==> SameSpan(s.live[j], s'.live[j]);
  }

  lemma PollKeyed(s: State, a: nat, id: nat, kind: Kind, choice: Choice)
    requires AllKeyed(s) && a < |s.pcs| && id in s.live
    ensures AllKeyed(Poll(s, id, kind, choice))
  {
    PollPart(s, a, id, kind, choice);
    PcsStayKeyed(s, Poll(s, id, kind, choice));
    RestKept(s, Poll(s, id, kind, choice), a, 0);
  }

  lemma TakeSpanKeyed(s: State, a: nat, id: nat)
    requires Ready(s, a) && s.pcs[a] == Idle && id in s.live
    ensures AllKeyed(TakeSpan(s, a, id))
  {
    var span := s.live[id];
    var taken := s.(live := s.live - {id});
    assert SpanKeyed(s, span);
    KeyNothing(s, a, 0);
    assert KeyPart(s, taken, a, 0);
    if span.track.Some? {
      var moved := taken.(places := s.places[span.track.value := Hand(a)]);
      KeyThen(s, taken, moved, a, 0);
      KeyedKept(s, moved, a, 0, Closing(span.key, span.pool, span.track.value));
    } else {
      RestKept(s, taken, a, 0);
      PcsStayKeyed(s, taken);
    }
  }

  ghost predicate TracksOk(s: State) {
    Owned(s) && PoolsOk(s) && AllKeyed(s)
  }

  lemma StepKeyed(s: State, l: Label)
    requires TracksOk(s) && Enabled(s, l)
    ensures TracksOk(Apply(s, l))
  {
    StepOwned(s, l);
    StepPools(s, l);
    HereReady(s, l.actor);
    if l.action.Advance? {
      AdvanceKeyed(s, l);
    } else {
      BeginKeyed(s, l);
    }
  }

  lemma AdvanceKeyed(s: State, l: Label)
    requires Ready(s, l.actor) && Enabled(s, l) && l.action.Advance?
    ensures AllKeyed(Apply(s, l))
  {
    if Claims(s.pcs[l.actor]) {
      ClaimKeyed(s, l);
    } else if Replaces(s.pcs[l.actor]) {
      ReplaceKeyed(s, l);
    } else {
      BoundaryKeyed(s, l);
    }
  }

  lemma BeginKeyed(s: State, l: Label)
    requires Ready(s, l.actor) && Enabled(s, l) && !l.action.Advance?
    ensures AllKeyed(Apply(s, l))
  {
    match l.action
    case NewContext => NewContextKeyed(s, l);
    case AllocateOther => FixedKeyed(s, l);
    case UseProcess => FixedKeyed(s, l);
    case NewSpan(id, address, length, parent) => StartKeyed(s, l.actor, id, address, length, parent);
    case Enter(id) => PollKeyed(s, l.actor, id, PollBegin, l.choice);
    case ExitSpan(id) => PollKeyed(s, l.actor, id, PollEnd, l.choice);
    case Close(id) => TakeSpanKeyed(s, l.actor, id);
    case ExitThread(c) => ExitThreadKeyed(s, l.actor, c);
  }

  lemma ExitThreadKeyed(s: State, a: nat, c: nat)
    requires Ready(s, a) && s.pcs[a] == Idle && c < |s.contexts|
    ensures AllKeyed(Go(Borrow(s, c, Some(a)), a, Exiting(c, 0)))
  {
    AcquireKeyed(s, a, c, Exiting(c, 0));
  }

  lemma InitialKeyed(actors: nat, polls: bool)
    ensures TracksOk(Initial(actors, polls))
  {
    InitialOwned(actors, polls);
    assert Reserved(Initial(actors, polls)) == {};
  }

  lemma {:induction false} RunKeyed(s: State, labels: seq<Label>)
    requires TracksOk(s)
    ensures TracksOk(Run(s, labels))
    decreases |labels|
  {
    if labels != [] && Enabled(s, labels[0]) {
      StepKeyed(s, labels[0]);
      RunKeyed(Apply(s, labels[0]), labels[1..]);
    }
  }

  // ------------------------------------------------------------ main results

  /**
   In every reachable state a live span's track was described with the span's own name
   and parent, wherever the track was recycled from; so was every cached or pooled track
   with the key it is kept under. Each key has at most one pool, each thread's cache at
   most one slot per key, and there are never more than the maximum number of pools.
   */
  lemma DescriptorsAreConsistent(s: State, actors: nat, polls: bool, labels: seq<Label>)
    requires s == Run(Initial(actors, polls), labels)
    ensures forall id :: id in s.live && s.live[id].track.Some? ==>
              s.live[id].track.value < |s.keys| && s.keys[s.live[id].track.value] == Some(s.live[id].key)
    ensures forall c: nat :: c < |s.contexts| ==> ContextKeyed(s, s.contexts[c])
    ensures forall p: nat :: p < |s.pools| ==> QueueKeyed(s, s.pools[p])
    ensures forall p: nat, q: nat :: p < |s.pools| && q < |s.pools| && s.pools[p].key == s.pools[q].key ==> p == q
    ensures |s.pools| == |s.poolOf| <= s.count <= MAX_REUSABLE_KEYS
  {
    InitialKeyed(actors, polls);
    RunKeyed(Initial(actors, polls), labels);
    PoolsCounted(s);
    forall id | id in s.live && s.live[id].track.Some?
      ensures s.live[id].track.value < |s.keys| && s.keys[s.live[id].track.value] == Some(s.live[id].key)
    {
      assert SpanKeyed(s, s.live[id]);
    }
  }

  lemma PoolsCounted(s: State)
    requires PoolMapOk(s)
    ensures |s.pools| == |s.poolOf|
  {
    KeysCounted(s, |s.pools|);
    assert s.poolOf.Keys == KeysUpTo(s, |s.pools|);
    assert |s.poolOf| == |s.poolOf.Keys|;
  }

  ghost function KeysUpTo(s: State, n: nat): set<Key>
    requires n <= |s.pools|
  {
    set p | 0 <= p < n :: s.pools[p].key
  }

  lemma {:induction false} KeysCounted(s: State, n: nat)
    requires PoolMapOk(s) && n <= |s.pools|
    ensures |KeysUpTo(s, n)| == n
  {
    if n > 0 {
      KeysCounted(s, n - 1);
      assert KeysUpTo(s, n) == KeysUpTo(s, n - 1) + {s.pools[n - 1].key};
      assert s.poolOf[s.pools[n - 1].key] == n - 1;
    }
  }
}
