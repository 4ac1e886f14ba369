/** The bookkeeping behind ownership: borrowed contexts, slots, references, queue bounds. */
module TrackShapes {
  import opened Prelude
  import opened TrackMachine
  import opened TrackOwnership

  // ------------------------------------------------------------ what a step may change

  ghost predicate SlotsRef(slots: seq<Option<Slot>>, pools: nat) {
    forall k: nat :: k < |slots| && slots[k].Some? ==> slots[k].value.pool < pools
  }

  /** Only a callback that has borrowed a context changes it. */
  ghost predicate ContextMove(x: Context, x': Context, a: nat, pools: nat) {
    && |x'.slots| == CACHE_SLOTS && x'.next < CACHE_SLOTS && SlotsRef(x'.slots, pools)
    && (x'.slots == x.slots || x.borrower == Some(a))
    && (x'.borrower == x.borrower || (x.borrower == Some(a) && x'.borrower == None)
        || (x.borrower == None && x'.borrower == Some(a)))
  }

  ghost predicate ContextsMove(s: State, s': State, a: nat, c: nat) {
    || s'.contexts == s.contexts
    || (c < |s.contexts| == |s'.contexts| && s'.contexts == s.contexts[c := s'.contexts[c]]
        && ContextMove(s.contexts[c], s'.contexts[c], a, |s'.pools|))
  }

  /** The callback frees at most the context it had. */
  predicate LetsGo(s: State, s': State, a: nat, c: nat)
    requires a < |s.pcs| && a < |s'.pcs|
  {
    c < |s.contexts| && c < |s'.contexts| && s.contexts[c].borrower == Some(a) && s'.contexts[c].borrower == None ==>
      ContextOf(s'.pcs[a]) == None
  }

  ghost predicate LiveMove(s: State, s': State, a: nat)
    requires a < |s.pcs|
  {
    && (forall id :: id in s'.live && s'.live[id].pool.Some? ==> s'.live[id].pool.value < |s'.pools|)
    && (forall id :: id in s'.live && id !in s.live ==> IsCreating(s.pcs[a], id))
  }

  ghost predicate Framed(s: State, s': State, a: nat, c: nat) {
    && a < |s.pcs| == |s'.pcs| && s'.pcs == s.pcs[a := s'.pcs[a]]
    && |s.pools| <= |s'.pools| && |s'.keys| == |s'.places|
    && ContextsMove(s, s', a, c) && LetsGo(s, s', a, c) && LiveMove(s, s', a)
    && (forall key :: key in s'.poolOf ==> s'.poolOf[key] < |s'.pools|)
  }

  ghost predicate PcOk(s: State, pc: Pc, a: nat) {
    && (ContextOf(pc).Some? ==>
        ContextOf(pc).value < |s.contexts| && s.contexts[ContextOf(pc).value].borrower == Some(a))
    && (OwnerOf(pc).Some? ==> OwnerOf(pc).value < |s.pools|)
    && (pc.Installing? ==>
          && pc.context < |s.contexts| && pc.slot < |s.contexts[pc.context].slots|
          && s.contexts[pc.context].slots[pc.slot] == None)
  }

  /** A callback goes on creating the same span, until it stores it. */
  predicate CreatesSame(s: State, s': State, a: nat)
    requires a < |s.pcs| && a < |s'.pcs|
  {
    Creating(s'.pcs[a]).Some? ==> Creating(s.pcs[a]) == Creating(s'.pcs[a]) && Creating(s'.pcs[a]).value.0 !in s'.live
  }

  lemma FramedBorrows(s: State, s': State, a: nat, c: nat)
    requires Shaped(s) && Framed(s, s', a, c) && PcOk(s', s'.pcs[a], a)
    ensures BorrowsOk(s') && ShapesOk(s')
  {
  }

  lemma FramedRefs(s: State, s': State, a: nat, c: nat)
    requires Shaped(s) && Framed(s, s', a, c) && PcOk(s', s'.pcs[a], a)
    ensures RefsOk(s')
  {
  }

  lemma FramedInstalls(s: State, s': State, a: nat, c: nat)
    requires Shaped(s) && Framed(s, s', a, c) && PcOk(s', s'.pcs[a], a)
    ensures InstallsOk(s')
  {
    forall b: nat | b < |s'.pcs| && s'.pcs[b].Installing?
      ensures var (d, k) := (s'.pcs[b].context, s'.pcs[b].slot);
              d < |s'.contexts| && k < |s'.contexts[d].slots| && s'.contexts[d].slots[k] == None
    {
      if b != a {
        assert ContextOf(s.pcs[b]).Some?;
      }
    }
  }

  lemma FramedCreating(s: State, s': State, a: nat, c: nat)
    requires Shaped(s) && Framed(s, s', a, c) && CreatesSame(s, s', a)
    ensures CreatingOk(s')
  {
    forall b: nat, id: nat | b < |s'.pcs| && IsCreating(s'.pcs[b], id)
      ensures id !in s'.live
      ensures IsCreating(s.pcs[b], id)
    {
    }
  }

  lemma FramedKeeps(s: State, s': State, a: nat, c: nat)
    requires Shaped(s) && Framed(s, s', a, c) && PcOk(s', s'.pcs[a], a) && CreatesSame(s, s', a)
    ensures Shaped(s')
  {
    FramedBorrows(s, s', a, c);
    FramedRefs(s, s', a, c);
    FramedInstalls(s, s', a, c);
    FramedCreating(s, s', a, c);
  }

  // ------------------------------------------------------------ each step

  /** What one callback's step needs of the invariant. */
  ghost predicate Here(s: State, a: nat) {
    && a < |s.pcs| && |s.keys| == |s.places|
    && PcOk(s, s.pcs[a], a) && LiveMove(s, s, a)
    && (Creating(s.pcs[a]).Some? ==> Creating(s.pcs[a]).value.0 !in s.live)
    && (ContextOf(s.pcs[a]).Some? ==> ContextFine(s.contexts[ContextOf(s.pcs[a]).value], |s.pools|))
    && (forall key :: key in s.poolOf ==> s.poolOf[key] < |s.pools|)
  }

  ghost predicate ContextFine(x: Context, pools: nat) {
    |x.slots| == CACHE_SLOTS && x.next < CACHE_SLOTS && SlotsRef(x.slots, pools)
  }

  lemma ShapedIsHere(s: State, a: nat)
    requires Shaped(s) && a < |s.pcs|
    ensures Here(s, a)
  {
    if Creating(s.pcs[a]).Some? {
      assert IsCreating(s.pcs[a], Creating(s.pcs[a]).value.0);
    }
  }

  /** A step that meets its local conditions. */
  ghost predicate Tidy(s: State, s': State, a: nat, c: nat) {
    Framed(s, s', a, c) && PcOk(s', s'.pcs[a], a) && CreatesSame(s, s', a)
  }

  // ------------------------------------------------------------ parts of steps

  /** Everything but the callback's program counter is as a step must leave it. */
  ghost predicate Partly(s: State, s': State, a: nat, c: nat) {
    && a < |s.pcs| && s'.pcs == s.pcs && |s'.keys| == |s'.places|
    && |s.pools| <= |s'.pools| && ContextsMove(s, s', a, c) && LiveMove(s, s', a)
    && (forall key :: key in s'.poolOf ==> s'.poolOf[key] < |s'.pools|)
  }

  lemma NothingYet(s: State, a: nat, c: nat)
    requires Here(s, a)
    ensures Partly(s, s, a, c)
  {
  }

  lemma SlotPut(s: State, a: nat, c: nat, k: nat, slot: Option<Slot>)
    requires Here(s, a) && ContextOf(s.pcs[a]) == Some(c) && k < CACHE_SLOTS
    requires (slot.Some? ==> slot.value.pool < |s.pools|)
    ensures Partly(s, PutSlot(s, c, k, slot), a, c)
  {
  }

  /** The parts of the state that shapes do not depend on. */
  lemma AndThen(s: State, s1: State, s2: State, a: nat, c: nat)
    requires Partly(s, s1, a, c)
    requires s2.pcs == s1.pcs && s2.contexts == s1.contexts && |s2.pools| == |s1.pools|
    requires s2.live == s1.live && s2.poolOf == s1.poolOf && |s2.keys| == |s2.places|
    ensures Partly(s, s2, a, c)
  {
  }

  lemma ThenFree(s: State, s1: State, a: nat, c: nat)
    requires Here(s, a) && Partly(s, s1, a, c) && ContextOf(s.pcs[a]) == Some(c)
    ensures c < |s1.contexts| && Partly(s, Borrow(s1, c, None), a, c)
  {
  }

  /** A callback that goes on keeps its context. */
  lemma ThenGo(s: State, s1: State, a: nat, c: nat, pc: Pc)
    requires Here(s, a) && Partly(s, s1, a, c) && PcOk(s1, pc, a)
    requires LetsGo(s, Go(s1, a, pc), a, c)
    requires Creating(pc).Some? ==> Creating(pc) == Creating(s.pcs[a]) && Creating(pc).value.0 !in s1.live
    ensures Tidy(s, Go(s1, a, pc), a, c)
  {
  }

  // ------------------------------------------------------------ each step

  lemma ScanTidy(s: State, a: nat, w: Work)
    requires Here(s, a) && s.pcs[a] == Scanning(w)
    ensures Tidy(s, Scan(s, a, w), a, w.context)
  {
    var slots := s.contexts[w.context].slots;
    var k := FindKey(slots, w.key);
    if k == |slots| {
      NothingYet(s, a, w.context);
      ThenGo(s, s, a, w.context, LookingUp(w));
    } else if slots[k].value.local.None? {
      NothingYet(s, a, w.context);
      ThenGo(s, s, a, w.context, Popping(w, slots[k].value.pool, true));
    } else if slots[k].value.local.value < |s.places| {
      TakeTidy(s, a, w, k);
    } else {
      NothingYet(s, a, w.context);
    }
  }

  lemma TakeTidy(s: State, a: nat, w: Work, k: nat)
    requires Here(s, a) && s.pcs[a] == Scanning(w)
    requires k < |s.contexts[w.context].slots| && LocalOf(s.contexts[w.context].slots[k]).Some?
    requires LocalOf(s.contexts[w.context].slots[k]).value < |s.places|
    ensures var slot := s.contexts[w.context].slots[k].value;
            var put := PutSlot(s, w.context, k, Some(slot.(local := None)));
            Tidy(s, Go(put.(places := s.places[slot.local.value := Hand(a)]), a,
                       Opening(w, Some(slot.pool), slot.local)), a, w.context)
  {
    var slot := s.contexts[w.context].slots[k].value;
    var put := PutSlot(s, w.context, k, Some(slot.(local := None)));
    var moved := put.(places := s.places[slot.local.value := Hand(a)]);
    SlotPut(s, a, w.context, k, Some(slot.(local := None)));
    AndThen(s, put, moved, a, w.context);
    ThenGo(s, moved, a, w.context, Opening(w, Some(slot.pool), slot.local));
  }

  lemma PopTidy(s: State, a: nat, w: Work, p: nat, cached: bool)
    requires Here(s, a) && s.pcs[a] == Popping(w, p, cached)
    ensures Tidy(s, Pop(s, a, w, p, cached), a, w.context)
  {
    NothingYet(s, a, w.context);
    var tracks := s.pools[p].tracks;
    if tracks == [] {
      ThenGo(s, s, a, w.context, Popped(w, p, cached, None));
    } else if tracks[0] < |s.places| {
      var popped := s.(pools := s.pools[p := s.pools[p].(tracks := tracks[1..])],
                       places := s.places[tracks[0] := Hand(a)]);
      AndThen(s, s, popped, a, w.context);
      ThenGo(s, popped, a, w.context, Popped(w, p, cached, Some(tracks[0])));
    }
  }

  lemma ReleasedPartly(s: State, s1: State, a: nat, c: nat, p: nat, u: nat)
    requires Partly(s, s1, a, c) && p < |s1.pools| && u < |s1.places|
    ensures Partly(s, ReleaseTo(s1, p, u), a, c)
  {
    AndThen(s, s1, ReleaseTo(s1, p, u), a, c);
  }

  lemma EmptiedPartly(s: State, a: nat, c: nat)
    requires Here(s, a) && ContextOf(s.pcs[a]) == Some(c)
    ensures Partly(s, EmptyNext(s, c), a, c)
    ensures EmptyNext(s, c).contexts[c].borrower == Some(a) && s.contexts[c].next < |EmptyNext(s, c).contexts[c].slots|
    ensures EmptyNext(s, c).contexts[c].slots[s.contexts[c].next] == None
  {
  }

  lemma EvictTidy(s: State, a: nat, c: nat, p: nat, key: Key, hand: Option<nat>, purpose: Purpose)
    requires Here(s, a) && s.pcs[a] == Evicting(c, p, key, hand, purpose)
    ensures Tidy(s, Evict(s, a, c, p, key, hand, purpose), a, c)
  {
    var k := s.contexts[c].next;
    var victim := s.contexts[c].slots[k];
    var emptied := EmptyNext(s, c);
    var pc := Installing(c, k, p, key, hand, purpose);
    EmptiedPartly(s, a, c);
    if victim.Some? && victim.value.local.Some? && victim.value.pool < |s.pools|
       && victim.value.local.value < |s.places| {
      var released := ReleaseTo(emptied, victim.value.pool, victim.value.local.value);
      ReleasedPartly(s, emptied, a, c, victim.value.pool, victim.value.local.value);
      assert released.contexts == emptied.contexts;
      EmptiedGo(s, released, a, c, pc);
    } else {
      EmptiedGo(s, emptied, a, c, pc);
    }
  }

  /** The callback goes on to install in the slot it has emptied. */
  lemma EmptiedGo(s: State, s1: State, a: nat, c: nat, pc: Pc)
    requires Here(s, a) && s.pcs[a].Evicting? && ContextOf(s.pcs[a]) == Some(c) && Partly(s, s1, a, c)
    requires s1.live == s.live
    requires s1.contexts == EmptyNext(s, c).contexts
    requires pc == Installing(c, s.contexts[c].next, s.pcs[a].pool, s.pcs[a].key, s.pcs[a].hand, s.pcs[a].purpose)
    ensures Tidy(s, Go(s1, a, pc), a, c)
  {
    EmptiedPartly(s, a, c);
    ThenGo(s, s1, a, c, pc);
  }

  lemma InstallTidy(s: State, a: nat, c: nat, k: nat, p: nat, key: Key, hand: Option<nat>, purpose: Purpose)
    requires Here(s, a) && s.pcs[a] == Installing(c, k, p, key, hand, purpose)
    ensures Tidy(s, Install(s, a, c, k, p, key, hand, purpose), a, c)
  {
    match purpose
    case ForClaim(id, parent) =>
      var slot := Some(Slot(key, p, None));
      SlotPut(s, a, c, k, slot);
      ThenGo(s, PutSlot(s, c, k, slot), a, c, Opening(Work(id, key, parent, c), Some(p), hand));
    case ForRelease =>
      var slot := Some(Slot(key, p, hand));
      var stored := PutSlot(s, c, k, slot);
      SlotPut(s, a, c, k, slot);
      if hand.Some? && hand.value < |s.places| {
        var placed := stored.(places := s.places[hand.value := Cached(c, k)]);
        AndThen(s, stored, placed, a, c);
        ThenFree(s, placed, a, c);
        ThenGo(s, Borrow(placed, c, None), a, c, Idle);
      } else {
        ThenFree(s, stored, a, c);
        ThenGo(s, Borrow(stored, c, None), a, c, Idle);
      }
  }

  lemma OpenTidy(s: State, a: nat, w: Work, owner: Option<nat>, hand: Option<nat>)
    requires Here(s, a) && s.pcs[a] == Opening(w, owner, hand)
    ensures Tidy(s, Open(s, a, w, owner, hand), a, w.context)
  {
    NothingYet(s, a, w.context);
    if hand.Some? {
      ThenGo(s, s, a, w.context, Beginning(w, owner, hand.value));
    } else {
      var born := Allocate(s, Hand(a), Some(w.key));
      AndThen(s, s, born, a, w.context);
      ThenGo(s, born, a, w.context, Beginning(w, owner, |s.places|));
    }
  }

  lemma StoreTidy(s: State, a: nat, w: Work, owner: Option<nat>, u: nat)
    requires Here(s, a) && s.pcs[a] == Storing(w, owner, u) && u < |s.places|
    ensures Tidy(s, Store(s, a, w, owner, u), a, w.context)
  {
    var stored := s.(live := s.live[w.span := Span(owner, Some(u), w.key, w.parent, 0)],
                     places := s.places[u := Live(w.span)]);
    assert IsCreating(s.pcs[a], w.span);
    assert Partly(s, stored, a, w.context);
    ThenFree(s, stored, a, w.context);
    ThenGo(s, Borrow(stored, w.context, None), a, w.context, Idle);
  }

  lemma ReleaseTidy(s: State, a: nat, held: Option<nat>, key: Key, owner: Option<nat>, u: nat)
    requires Here(s, a) && s.pcs[a] == Releasing(held, key, owner, u) && u < |s.places|
    ensures Tidy(s, Release(s, a, held, key, owner, u), a, if held.Some? then held.value else 0)
  {
    var c := if held.Some? then held.value else 0;
    NothingYet(s, a, c);
    if owner.None? {
      AndThen(s, s, Retire(s, u), a, c);
      if held.Some? {
        ThenFree(s, Retire(s, u), a, c);
      }
      ThenGo(s, FreeContext(Retire(s, u), held), a, c, Idle);
    } else if held.None? {
      ReleasedPartly(s, s, a, c, owner.value, u);
      ThenGo(s, ReleaseTo(s, owner.value, u), a, c, Idle);
    } else {
      ReleaseCachedTidy(s, a, c, key, owner.value, u);
    }
  }

  lemma ReleaseCachedTidy(s: State, a: nat, c: nat, key: Key, p: nat, u: nat)
    requires Here(s, a) && s.pcs[a] == Releasing(Some(c), key, Some(p), u) && u < |s.places|
    ensures Tidy(s, ReleaseCached(s, a, c, key, p, u), a, c)
  {
    NothingYet(s, a, c);
    var slots := s.contexts[c].slots;
    var k := FindPool(slots, p);
    if k == |slots| {
      ThenGo(s, s, a, c, Evicting(c, p, key, Some(u), ForRelease));
    } else if slots[k].value.local.None? {
      var slot := Some(slots[k].value.(local := Some(u)));
      var put := PutSlot(s, c, k, slot);
      var placed := put.(places := s.places[u := Cached(c, k)]);
      SlotPut(s, a, c, k, slot);
      AndThen(s, put, placed, a, c);
      ThenFree(s, placed, a, c);
      ThenGo(s, Borrow(placed, c, None), a, c, Idle);
    } else {
      ReleasedPartly(s, s, a, c, p, u);
      ThenFree(s, ReleaseTo(s, p, u), a, c);
      ThenGo(s, Borrow(ReleaseTo(s, p, u), c, None), a, c, Idle);
    }
  }

  lemma DropTidy(s: State, a: nat, c: nat, k: nat)
    requires Here(s, a) && s.pcs[a] == Exiting(c, k)
    ensures Tidy(s, DropSlot(s, a, c, k), a, c)
  {
    NothingYet(s, a, c);
    if k >= |s.contexts[c].slots| {
      ThenGo(s, s, a, c, Idle);
    } else {
      var victim := s.contexts[c].slots[k];
      if victim.Some? && victim.value.local.Some? && victim.value.pool < |s.pools|
         && victim.value.local.value < |s.places| {
        var slot := Some(victim.value.(local := None));
        SlotPut(s, a, c, k, slot);
        ReleasedPartly(s, PutSlot(s, c, k, slot), a, c, victim.value.pool, victim.value.local.value);
        ThenGo(s, ReleaseTo(PutSlot(s, c, k, slot), victim.value.pool, victim.value.local.value), a, c,
               Exiting(c, k + 1));
      } else {
        ThenGo(s, s, a, c, Exiting(c, k + 1));
      }
    }
  }

  lemma LookUpTidy(s: State, a: nat, w: Work)
    requires Here(s, a) && s.pcs[a] == LookingUp(w)
    ensures Tidy(s, LookUp(s, a, w), a, w.context)
  {
    NothingYet(s, a, w.context);
    if w.key in s.poolOf {
      ThenGo(s, s, a, w.context, Popping(w, s.poolOf[w.key], false));
    } else {
      ThenGo(s, s, a, w.context, Entering(w));
    }
  }

  lemma EnterTidy(s: State, a: nat, w: Work)
    requires Here(s, a) && s.pcs[a] == Entering(w)
    ensures Tidy(s, EnterPool(s, a, w), a, w.context)
  {
    NothingYet(s, a, w.context);
    if w.key in s.poolOf {
      ThenGo(s, s, a, w.context, Popping(w, s.poolOf[w.key], false));
    } else {
      var locked := s.(locks := s.locks[w.key := a]);
      AndThen(s, s, locked, a, w.context);
      ThenGo(s, locked, a, w.context, Reserving(w));
    }
  }

  lemma ReserveTidy(s: State, a: nat, w: Work)
    requires Here(s, a) && s.pcs[a] == Reserving(w)
    ensures Tidy(s, Reserve(s, a, w), a, w.context)
  {
    NothingYet(s, a, w.context);
    if s.count < MAX_REUSABLE_KEYS {
      var counted := s.(count := s.count + 1);
      AndThen(s, s, counted, a, w.context);
      ThenGo(s, counted, a, w.context, Publishing(w));
    } else {
      var unlocked := s.(locks := s.locks - {w.key});
      AndThen(s, s, unlocked, a, w.context);
      ThenGo(s, unlocked, a, w.context, Opening(w, None, None));
    }
  }

  lemma PublishTidy(s: State, a: nat, w: Work)
    requires Here(s, a) && s.pcs[a] == Publishing(w)
    ensures Tidy(s, Publish(s, a, w), a, w.context)
  {
    var p := |s.pools|;
    var published := s.(pools := s.pools + [Pool(w.key, [])], poolOf := s.poolOf[w.key := p],
                        locks := s.locks - {w.key});
    assert Partly(s, published, a, w.context);
    ThenGo(s, published, a, w.context, Popping(w, p, false));
  }

  lemma AcquireTidy(s: State, a: nat, c: nat, pc: Pc)
    requires Here(s, a) && ContextOf(s.pcs[a]) == None && c < |s.contexts| && s.contexts[c].borrower == None
    requires ContextFine(s.contexts[c], |s.pools|) && ContextOf(pc) == Some(c) && !pc.Installing?
    requires OwnerOf(pc) == OwnerOf(s.pcs[a]) && Creating(pc) == Creating(s.pcs[a])
    ensures Tidy(s, Go(Borrow(s, c, Some(a)), a, pc), a, c)
  {
    assert Partly(s, Borrow(s, c, Some(a)), a, c);
    ThenGo(s, Borrow(s, c, Some(a)), a, c, pc);
  }

  lemma NoteTidy(s: State, a: nat, kind: Kind, u: nat, time: nat, emitted: bool, pc: Pc)
    requires Here(s, a) && !pc.Installing? && ContextOf(pc) == ContextOf(s.pcs[a]) && OwnerOf(pc) == OwnerOf(s.pcs[a])
    requires Creating(pc) == Creating(s.pcs[a])
    ensures Tidy(s, Go(Note(s, kind, u, time, emitted), a, pc), a, 0)
  {
    NothingYet(s, a, 0);
    AndThen(s, s, Note(s, kind, u, time, emitted), a, 0);
    ThenGo(s, Note(s, kind, u, time, emitted), a, 0, pc);
  }

  lemma RefusedTidy(s: State, a: nat, id: nat, key: Key, parent: Option<nat>)
    requires Here(s, a) && s.pcs[a] == Keyed(id, key, parent)
    ensures Tidy(s, AcquireForSpan(s, a, id, key, parent, Choice(None, 0)), a, 0)
  {
    var inserted := s.(live := s.live[id := Span(None, None, key, parent, 0)]);
    assert IsCreating(s.pcs[a], id);
    assert Partly(s, inserted, a, 0);
    ThenGo(s, inserted, a, 0, Idle);
  }

  // ------------------------------------------------------------ queues

  lemma ReleaseQueues(s: State, p: nat, u: nat)
    requires QueuesOk(s) && p < |s.pools| && u < |s.places| && u !in s.pools[p].tracks
    ensures QueuesOk(ReleaseTo(s, p, u))
  {
  }

  /** A uuid held elsewhere is in no queue. */
  lemma NotQueued(s: State, place: Place, u: nat, p: nat)
    requires PlacesOk(s) && Holds(s, place, u) && !place.Pooled? && p < |s.pools|
    ensures u !in s.pools[p].tracks
  {
    assert Holds(s, Pooled(p), u) <==> u in s.pools[p].tracks;
  }

  lemma EvictQueues(s: State, a: nat, c: nat, p: nat, key: Key, hand: Option<nat>, purpose: Purpose)
    requires Owned(s) && Here(s, a) && s.pcs[a] == Evicting(c, p, key, hand, purpose)
    ensures QueuesOk(Evict(s, a, c, p, key, hand, purpose))
  {
    var k := s.contexts[c].next;
    var victim := s.contexts[c].slots[k];
    if victim.Some? && victim.value.local.Some? && victim.value.pool < |s.pools|
       && victim.value.local.value < |s.places| {
      assert Holds(s, Cached(c, k), victim.value.local.value);
      NotQueued(s, Cached(c, k), victim.value.local.value, victim.value.pool);
      ReleaseQueues(EmptyNext(s, c), victim.value.pool, victim.value.local.value);
    }
  }

  lemma ReleasingQueues(s: State, a: nat, held: Option<nat>, key: Key, owner: Option<nat>, u: nat)
    requires Owned(s) && Here(s, a) && s.pcs[a] == Releasing(held, key, owner, u) && u < |s.places|
    ensures QueuesOk(Release(s, a, held, key, owner, u))
  {
    if owner.Some? {
      assert Holds(s, Hand(a), u);
      NotQueued(s, Hand(a), u, owner.value);
      ReleaseQueues(s, owner.value, u);
      if held.Some? {
        ReleasingCachedQueues(s, a, held.value, key, owner.value, u);
      }
    }
  }

  lemma ReleasingCachedQueues(s: State, a: nat, c: nat, key: Key, p: nat, u: nat)
    requires Here(s, a) && s.pcs[a] == Releasing(Some(c), key, Some(p), u) && u < |s.places|
    requires QueuesOk(s) && QueuesOk(ReleaseTo(s, p, u))
    ensures QueuesOk(ReleaseCached(s, a, c, key, p, u))
  {
    var slots := s.contexts[c].slots;
    var k := FindPool(slots, p);
    if k == |slots| {
      SameQueues(s, Go(s, a, Evicting(c, p, key, Some(u), ForRelease)));
    } else if slots[k].value.local.None? {
      var slot := Some(slots[k].value.(local := Some(u)));
      SameQueues(s, Go(Borrow(PutSlot(s, c, k, slot).(places := s.places[u := Cached(c, k)]), c, None), a, Idle));
    } else {
      SameQueues(ReleaseTo(s, p, u), Go(Borrow(ReleaseTo(s, p, u), c, None), a, Idle));
    }
  }

  lemma SameQueues(s: State, s': State)
    requires QueuesOk(s) && s'.pools == s.pools
    ensures QueuesOk(s')
  {
  }

  lemma DropQueues(s: State, a: nat, c: nat, k: nat)
    requires Owned(s) && Here(s, a) && s.pcs[a] == Exiting(c, k)
    ensures QueuesOk(DropSlot(s, a, c, k))
  {
    if k < |s.contexts[c].slots| {
      var victim := s.contexts[c].slots[k];
      if victim.Some? && victim.value.local.Some? && victim.value.pool < |s.pools|
         && victim.value.local.value < |s.places| {
        assert Holds(s, Cached(c, k), victim.value.local.value);
        NotQueued(s, Cached(c, k), victim.value.local.value, victim.value.pool);
        ReleaseQueues(PutSlot(s, c, k, Some(victim.value.(local := None))), victim.value.pool,
                      victim.value.local.value);
      }
    }
  }

  // ------------------------------------------------------------ every step keeps everything

  ghost predicate Fine(s: State) {
    Shaped(s) && QueuesOk(s)
  }

  lemma FineStep(s: State, s': State, a: nat, c: nat)
    requires Shaped(s) && QueuesOk(s') && Tidy(s, s', a, c)
    ensures Fine(s')
  {
    FramedKeeps(s, s', a, c);
  }

  lemma ScanStep(s: State, a: nat, w: Work)
    requires Owned(s) && Here(s, a) && s.pcs[a] == Scanning(w)
    ensures Fine(Scan(s, a, w))
  {
    ScanTidy(s, a, w);
    FineStep(s, Scan(s, a, w), a, w.context);
  }

  lemma LookUpStep(s: State, a: nat, w: Work)
    requires Owned(s) && Here(s, a) && s.pcs[a] == LookingUp(w)
    ensures Fine(LookUp(s, a, w))
  {
    LookUpTidy(s, a, w);
    FineStep(s, LookUp(s, a, w), a, w.context);
  }

  lemma EnterStep(s: State, a: nat, w: Work)
    requires Owned(s) && Here(s, a) && s.pcs[a] == Entering(w)
    ensures Fine(EnterPool(s, a, w))
  {
    EnterTidy(s, a, w);
    FineStep(s, EnterPool(s, a, w), a, w.context);
  }

  lemma ReserveStep(s: State, a: nat, w: Work)
    requires Owned(s) && Here(s, a) && s.pcs[a] == Reserving(w)
    ensures Fine(Reserve(s, a, w))
  {
    ReserveTidy(s, a, w);
    FineStep(s, Reserve(s, a, w), a, w.context);
  }

  lemma PublishStep(s: State, a: nat, w: Work)
    requires Owned(s) && Here(s, a) && s.pcs[a] == Publishing(w)
    ensures Fine(Publish(s, a, w))
  {
    PublishTidy(s, a, w);
    FineStep(s, Publish(s, a, w), a, w.context);
  }

  lemma PopStep(s: State, a: nat, w: Work, p: nat, cached: bool)
    requires Owned(s) && Here(s, a) && s.pcs[a] == Popping(w, p, cached)
    ensures Fine(Pop(s, a, w, p, cached))
  {
    PopTidy(s, a, w, p, cached);
    FineStep(s, Pop(s, a, w, p, cached), a, w.context);
  }

  lemma EvictStep(s: State, a: nat, c: nat, p: nat, key: Key, hand: Option<nat>, purpose: Purpose)
    requires Owned(s) && Here(s, a) && s.pcs[a] == Evicting(c, p, key, hand, purpose)
    ensures Fine(Evict(s, a, c, p, key, hand, purpose))
  {
    EvictTidy(s, a, c, p, key, hand, purpose);
    EvictQueues(s, a, c, p, key, hand, purpose);
    FineStep(s, Evict(s, a, c, p, key, hand, purpose), a, c);
  }

  lemma InstallStep(s: State, a: nat, c: nat, k: nat, p: nat, key: Key, hand: Option<nat>, purpose: Purpose)
    requires Owned(s) && Here(s, a) && s.pcs[a] == Installing(c, k, p, key, hand, purpose)
    ensures Fine(Install(s, a, c, k, p, key, hand, purpose))
  {
    InstallTidy(s, a, c, k, p, key, hand, purpose);
    FineStep(s, Install(s, a, c, k, p, key, hand, purpose), a, c);
  }

  lemma OpenStep(s: State, a: nat, w: Work, owner: Option<nat>, hand: Option<nat>)
    requires Owned(s) && Here(s, a) && s.pcs[a] == Opening(w, owner, hand)
    ensures Fine(Open(s, a, w, owner, hand))
  {
    OpenTidy(s, a, w, owner, hand);
    FineStep(s, Open(s, a, w, owner, hand), a, w.context);
  }

  lemma StoreStep(s: State, a: nat, w: Work, owner: Option<nat>, u: nat)
    requires Owned(s) && Here(s, a) && s.pcs[a] == Storing(w, owner, u) && u < |s.places|
    ensures Fine(Store(s, a, w, owner, u))
  {
    StoreTidy(s, a, w, owner, u);
    FineStep(s, Store(s, a, w, owner, u), a, w.context);
  }

  lemma ReleaseStep(s: State, a: nat, held: Option<nat>, key: Key, owner: Option<nat>, u: nat)
    requires Owned(s) && Here(s, a) && s.pcs[a] == Releasing(held, key, owner, u) && u < |s.places|
    ensures Fine(Release(s, a, held, key, owner, u))
  {
    ReleaseTidy(s, a, held, key, owner, u);
    ReleasingQueues(s, a, held, key, owner, u);
    FineStep(s, Release(s, a, held, key, owner, u), a, if held.Some? then held.value else 0);
  }

  lemma DropStep(s: State, a: nat, c: nat, k: nat)
    requires Owned(s) && Here(s, a) && s.pcs[a] == Exiting(c, k)
    ensures Fine(DropSlot(s, a, c, k))
  {
    DropTidy(s, a, c, k);
    DropQueues(s, a, c, k);
    FineStep(s, DropSlot(s, a, c, k), a, c);
  }

  lemma AcquireStep(s: State, a: nat, pc: Pc, choice: Choice)
    requires Owned(s) && Here(s, a) && s.pcs[a] == pc && CanAcquire(s, choice)
    ensures pc.Keyed? ==> Fine(AcquireForSpan(s, a, pc.span, pc.key, pc.parent, choice))
    ensures pc.Closing? ==> Fine(AcquireForClose(s, a, pc.key, pc.owner, pc.track, choice))
  {
    if choice.context.Some? {
      var c := choice.context.value;
      if pc.Keyed? {
        AcquireTidy(s, a, c, Scanning(Work(pc.span, pc.key, pc.parent, c)));
        FineStep(s, AcquireForSpan(s, a, pc.span, pc.key, pc.parent, choice), a, c);
      } else if pc.Closing? {
        AcquireTidy(s, a, c, Ending(c, pc.key, pc.owner, pc.track));
        FineStep(s, AcquireForClose(s, a, pc.key, pc.owner, pc.track, choice), a, c);
      }
    } else if pc.Keyed? {
      RefusedTidy(s, a, pc.span, pc.key, pc.parent);
      FineStep(s, AcquireForSpan(s, a, pc.span, pc.key, pc.parent, choice), a, 0);
    } else if pc.Closing? {
      NoteTidy(s, a, LifeEnd, pc.track, choice.time, false, Releasing(None, pc.key, pc.owner, pc.track));
      FineStep(s, AcquireForClose(s, a, pc.key, pc.owner, pc.track, choice), a, 0);
    }
  }

  lemma NoteStep(s: State, a: nat, kind: Kind, u: nat, time: nat, emitted: bool, pc: Pc)
    requires Owned(s) && Here(s, a) && !pc.Installing? && ContextOf(pc) == ContextOf(s.pcs[a])
    requires OwnerOf(pc) == OwnerOf(s.pcs[a])
    requires Creating(pc) == Creating(s.pcs[a])
    ensures Fine(Go(Note(s, kind, u, time, emitted), a, pc))
  {
    NoteTidy(s, a, kind, u, time, emitted, pc);
    FineStep(s, Go(Note(s, kind, u, time, emitted), a, pc), a, 0);
  }

  /** The steps of creating a span up to its pool. */
  predicate Claims(pc: Pc) {
    pc.Scanning? || IsQuiet(pc) || pc.Popping?
  }

  lemma ClaimFine(s: State, l: Label)
    requires Owned(s) && Enabled(s, l) && l.action.Advance? && Here(s, l.actor) && Claims(s.pcs[l.actor])
    ensures Fine(Apply(s, l))
  {
    var a := l.actor;
    match s.pcs[a]
    case Scanning(w) => ScanStep(s, a, w);
    case LookingUp(w) => LookUpStep(s, a, w);
    case Entering(w) => EnterStep(s, a, w);
    case Reserving(w) => ReserveStep(s, a, w);
    case Publishing(w) => PublishStep(s, a, w);
    case Popping(w, p, cached) => PopStep(s, a, w, p, cached);
  }

  /** The steps between. */
  predicate Replaces(pc: Pc) {
    pc.Evicting? || pc.Installing? || pc.Opening? || pc.Storing? || pc.Exiting?
  }

  lemma ReplaceFine(s: State, l: Label)
    requires Owned(s) && Enabled(s, l) && l.action.Advance? && Here(s, l.actor) && Replaces(s.pcs[l.actor])
    ensures Fine(Apply(s, l))
  {
    var a := l.actor;
    match s.pcs[a]
    case Evicting(c, p, key, hand, purpose) => EvictStep(s, a, c, p, key, hand, purpose);
    case Installing(c, k, p, key, hand, purpose) => InstallStep(s, a, c, k, p, key, hand, purpose);
    case Opening(w, owner, hand) => OpenStep(s, a, w, owner, hand);
    case Storing(w, owner, u) => StoreStep(s, a, w, owner, u);
    case Exiting(c, k) => DropStep(s, a, c, k);
  }

  lemma BoundaryFine(s: State, l: Label)
    requires Owned(s) && Enabled(s, l) && l.action.Advance? && Here(s, l.actor)
    requires !Claims(s.pcs[l.actor]) && !Replaces(s.pcs[l.actor])
    ensures Fine(Apply(s, l))
  {
    var a := l.actor;
    match s.pcs[a]
    case Releasing(held, key, owner, u) => ReleaseStep(s, a, held, key, owner, u);
    case Beginning(w, owner, u) => NoteStep(s, a, LifeBegin, u, l.choice.time, true, Storing(w, owner, u));
    case Ending(c, key, owner, u) => NoteStep(s, a, LifeEnd, u, l.choice.time, true, Releasing(Some(c), key, owner, u));
    case Keyed(_, _, _) => AcquireStep(s, a, s.pcs[a], l.choice);
    case Closing(_, _, _) => AcquireStep(s, a, s.pcs[a], l.choice);
  }

  lemma AdvanceFine(s: State, l: Label)
    requires Owned(s) && Enabled(s, l) && l.action.Advance?
    ensures Fine(Apply(s, l))
  {
    ShapedIsHere(s, l.actor);
    if Claims(s.pcs[l.actor]) {
      ClaimFine(s, l);
    } else if Replaces(s.pcs[l.actor]) {
      ReplaceFine(s, l);
    } else {
      BoundaryFine(s, l);
    }
  }

  /** A callback begins to create a span that has no state and is not being created. */
  lemma FramedStart(s: State, s': State, a: nat, id: nat)
    requires Shaped(s) && Framed(s, s', a, 0) && PcOk(s', s'.pcs[a], a) && s.pcs[a] == Idle
    requires s'.live == s.live && id !in s.live && Creating(s'.pcs[a]).Some? && Creating(s'.pcs[a]).value.0 == id
    requires forall b: nat :: b < |s.pcs| ==> !IsCreating(s.pcs[b], id)
    ensures Shaped(s')
  {
    FramedBorrows(s, s', a, 0);
    FramedRefs(s, s', a, 0);
    FramedInstalls(s, s', a, 0);
    forall b: nat, other: nat | b < |s'.pcs| && IsCreating(s'.pcs[b], other)
      ensures if b == a then other == id else IsCreating(s.pcs[b], other)
    {
    }
  }

  lemma StartFine(s: State, a: nat, id: nat, address: nat, length: nat, parent: Option<nat>)
    requires Owned(s) && a < |s.pcs| && s.pcs[a] == Idle && id !in s.live
    requires forall b: nat :: b < |s.pcs| ==> !IsCreating(s.pcs[b], id)
    ensures Fine(StartSpan(s, a, id, address, length, parent))
  {
    ShapedIsHere(s, a);
    NothingYet(s, a, 0);
    var enclosing := if parent.Some? && parent.value in s.live then parent else None;
    var track := TrackOf(s.live, parent);
    if track.None? && s.process.None? {
      var u := |s.places|;
      var s1 := Allocate(s, Fixed, None).(process := Some(u));
      AndThen(s, s, s1, a, 0);
      KeyedFine(s, s1, a, id, Key(address, length, u), enclosing);
    } else {
      var above := if track.Some? then track.value else s.process.value;
      KeyedFine(s, s, a, id, Key(address, length, above), enclosing);
    }
  }

  lemma KeyedFine(s: State, s1: State, a: nat, id: nat, key: Key, parent: Option<nat>)
    requires Owned(s) && a < |s.pcs| && s.pcs[a] == Idle && id !in s.live
    requires forall b: nat :: b < |s.pcs| ==> !IsCreating(s.pcs[b], id)
    requires Partly(s, s1, a, 0) && s1.live == s.live && s1.pools == s.pools
    ensures Fine(Go(s1, a, Keyed(id, key, parent)))
  {
    FramedStart(s, Go(s1, a, Keyed(id, key, parent)), a, id);
  }

  lemma ContextFineNew(s: State, l: Label)
    requires Owned(s) && Enabled(s, l) && l.action.NewContext?
    ensures Fine(Apply(s, l))
  {
  }

  lemma FixedFine(s: State, l: Label)
    requires Owned(s) && Enabled(s, l) && (l.action.AllocateOther? || l.action.UseProcess?)
    ensures Fine(Apply(s, l))
  {
    ShapedIsHere(s, l.actor);
    NothingYet(s, l.actor, 0);
    AndThen(s, s, Apply(s, l), l.actor, 0);
    FineStep(s, Apply(s, l), l.actor, 0);
  }

  lemma PollFine(s: State, id: nat, kind: Kind, choice: Choice)
    requires Owned(s) && id in s.live
    ensures Fine(Poll(s, id, kind, choice))
  {
  }

  lemma TakeFine(s: State, a: nat, id: nat)
    requires Owned(s) && a < |s.pcs| && s.pcs[a] == Idle && id in s.live
    ensures Fine(TakeSpan(s, a, id))
  {
    ShapedIsHere(s, a);
    var span := s.live[id];
    var taken := s.(live := s.live - {id});
    assert Partly(s, taken, a, 0);
    if span.track.Some? && span.track.value < |s.places| {
      var moved := taken.(places := s.places[span.track.value := Hand(a)]);
      AndThen(s, taken, moved, a, 0);
      ThenGo(s, moved, a, 0, Closing(span.key, span.pool, span.track.value));
      FineStep(s, TakeSpan(s, a, id), a, 0);
    } else {
      FineStep(s, taken, a, 0);
    }
  }

  lemma ExitThreadFine(s: State, a: nat, c: nat)
    requires Owned(s) && a < |s.pcs| && s.pcs[a] == Idle && c < |s.contexts| && s.contexts[c].borrower == None
    ensures Fine(Go(Borrow(s, c, Some(a)), a, Exiting(c, 0)))
  {
    ShapedIsHere(s, a);
    AcquireTidy(s, a, c, Exiting(c, 0));
    FineStep(s, Go(Borrow(s, c, Some(a)), a, Exiting(c, 0)), a, c);
  }

  lemma StepOwned(s: State, l: Label)
    requires Owned(s) && Enabled(s, l)
    ensures Owned(Apply(s, l)) && Conserves(s, Apply(s, l))
  {
    StepConserves(s, l);
    match l.action {
      case NewContext => ContextFineNew(s, l);
      case AllocateOther => FixedFine(s, l);
      case UseProcess => FixedFine(s, l);
      case NewSpan(id, address, length, parent) => StartFine(s, l.actor, id, address, length, parent);
      case Enter(id) => PollFine(s, id, PollBegin, l.choice);
      case ExitSpan(id) => PollFine(s, id, PollEnd, l.choice);
      case Close(id) => TakeFine(s, l.actor, id);
      case ExitThread(c) => ExitThreadFine(s, l.actor, c);
      case Advance => AdvanceFine(s, l);
    }
  }

  lemma InitialOwned(actors: nat, polls: bool)
    ensures Owned(Initial(actors, polls))
  {
  }

  lemma {:induction false} RunOwned(s: State, labels: seq<Label>)
    requires Owned(s)
    ensures Owned(Run(s, labels))
    decreases |labels|
  {
    if labels != [] && Enabled(s, labels[0]) {
      StepOwned(s, labels[0]);
      RunOwned(Apply(s, labels[0]), labels[1..]);
    }
  }

  // ------------------------------------------------------------ main results

  /**
   Exclusivity and conservation, in every reachable state: each uuid ever allocated is in
   exactly one place, so no two live spans share a track, no cached or pooled track is in
   use, and none is cached or pooled twice.
   */
  lemma TracksAreExclusive(s: State, actors: nat, polls: bool, labels: seq<Label>)
    requires s == Run(Initial(actors, polls), labels)
    ensures forall u: nat :: u < |s.places| ==> Holds(s, s.places[u], u)
    ensures forall place: Place, other: Place, u: nat :: Holds(s, place, u) && Holds(s, other, u) ==> place == other
    ensures forall a, b, u: nat :: TrackAt(s.live, a) == Some(u) && TrackAt(s.live, b) == Some(u) ==> a == b
    ensures forall p: nat :: p < |s.pools| ==> Distinct(s.pools[p].tracks) && |s.pools[p].tracks| <= POOL_CAPACITY
  {
    InitialOwned(actors, polls);
    RunOwned(Initial(actors, polls), labels);
    forall a, b, u: nat | TrackAt(s.live, a) == Some(u) && TrackAt(s.live, b) == Some(u)
      ensures a == b
    {
      assert Holds(s, Live(a), u) && Holds(s, Live(b), u);
    }
  }
}
