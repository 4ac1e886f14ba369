/** Every uuid is in exactly one place, and every place holds exactly its uuids. */
module TrackOwnership {
  import opened Prelude
  import opened TrackMachine

  // ------------------------------------------------------------ the invariant

  function TrackAt(live: map<nat, Span>, id: nat): Option<nat> {
    if id in live then live[id].track else None
  }

  function HandAt(pcs: seq<Pc>, a: nat): Option<nat> {
    if a < |pcs| then HandOf(pcs[a]) else None
  }

  function LocalOf(slot: Option<Slot>): Option<nat> {
    if slot.Some? then slot.value.local else None
  }

  function LocalAt(contexts: seq<Context>, c: nat, k: nat): Option<nat> {
    if c < |contexts| && k < |contexts[c].slots| then LocalOf(contexts[c].slots[k]) else None
  }

  function TracksAt(pools: seq<Pool>, p: nat): seq<nat> {
    if p < |pools| then pools[p].tracks else []
  }

  /** What is really there: the span's field, the callback's variable, the slot, the queue. */
  predicate Holds(s: State, place: Place, u: nat) {
    match place
    case Live(id) => TrackAt(s.live, id) == Some(u)
    case Hand(a) => HandAt(s.pcs, a) == Some(u)
    case Cached(c, k) => LocalAt(s.contexts, c, k) == Some(u)
    case Pooled(p) => u in TracksAt(s.pools, p)
    case Fixed => u < |s.places| && s.places[u] == Fixed
    case Retired => u < |s.places| && s.places[u] == Retired
  }

  /** A uuid is held where its history says, and nowhere else. */
  ghost predicate PlacesOk(s: State) {
    forall place: Place, u: nat :: Holds(s, place, u) <==> u < |s.places| && s.places[u] == place
  }

  predicate Distinct(tracks: seq<nat>) {
    forall i, j :: 0 <= i < j < |tracks| ==> tracks[i] != tracks[j]
  }

  /** Queues hold no uuid twice, and at most their capacity. */
  ghost predicate QueuesOk(s: State) {
    forall p: nat :: p < |s.pools| ==> Distinct(s.pools[p].tracks) && |s.pools[p].tracks| <= POOL_CAPACITY
  }

  ghost predicate BorrowsOk(s: State) {
    forall a: nat :: a < |s.pcs| && ContextOf(s.pcs[a]).Some? ==>
      ContextOf(s.pcs[a]).value < |s.contexts| && s.contexts[ContextOf(s.pcs[a]).value].borrower == Some(a)
  }

  ghost predicate ShapesOk(s: State) {
    forall c: nat :: c < |s.contexts| ==> |s.contexts[c].slots| == CACHE_SLOTS && s.contexts[c].next < CACHE_SLOTS
  }

  /** A slot being replaced is empty. */
  ghost predicate InstallsOk(s: State) {
    forall a: nat :: a < |s.pcs| && s.pcs[a].Installing? ==>
      var (c, k) := (s.pcs[a].context, s.pcs[a].slot);
      c < |s.contexts| && k < |s.contexts[c].slots| && s.contexts[c].slots[k] == None
  }

  /** A span being created has no state yet, and is being created once. */
  ghost predicate CreatingOk(s: State) {
    && (forall a: nat, id: nat :: a < |s.pcs| && IsCreating(s.pcs[a], id) ==> id !in s.live)
    && (forall a: nat, b: nat, id: nat ::
          a < |s.pcs| && b < |s.pcs| && IsCreating(s.pcs[a], id) && IsCreating(s.pcs[b], id) ==> a == b)
  }

  function OwnerOf(pc: Pc): Option<nat> {
    match pc
    case Popping(_, p, _) => Some(p)
    case Evicting(_, p, _, _, _) => Some(p)
    case Installing(_, _, p, _, _, _) => Some(p)
    case Opening(_, owner, _) => owner
    case Beginning(_, owner, _) => owner
    case Storing(_, owner, _) => owner
    case Closing(_, owner, _) => owner
    case Ending(_, _, owner, _) => owner
    case Releasing(_, _, owner, _) => owner
    case _ => None
  }

  /** Every reference to a pool is to a pool. */
  ghost predicate RefsOk(s: State) {
    && (forall a: nat :: a < |s.pcs| && OwnerOf(s.pcs[a]).Some? ==> OwnerOf(s.pcs[a]).value < |s.pools|)
    && (forall id :: id in s.live && s.live[id].pool.Some? ==> s.live[id].pool.value < |s.pools|)
    && (forall c: nat, k: nat :: c < |s.contexts| && k < |s.contexts[c].slots| && s.contexts[c].slots[k].Some? ==>
          s.contexts[c].slots[k].value.pool < |s.pools|)
    && (forall key :: key in s.poolOf ==> s.poolOf[key] < |s.pools|)
  }

  ghost predicate Shaped(s: State) {
    BorrowsOk(s) && ShapesOk(s) && InstallsOk(s) && CreatingOk(s) && RefsOk(s) && |s.keys| == |s.places|
  }

  ghost predicate Owned(s: State) {
    Shaped(s) && PlacesOk(s) && QueuesOk(s)
  }

  // ------------------------------------------------------------ moving one uuid

  /** The step moves `u` to place `to`, and nothing else. */
  ghost predicate Moved(s: State, s': State, u: nat, to: Place) {
    && u < |s.places| && s'.places == s.places[u := to]
    && forall place: Place, x: nat :: Holds(s', place, x) <==> if x == u then place == to else Holds(s, place, x)
  }

  ghost predicate Unmoved(s: State, s': State) {
    s'.places == s.places && forall place: Place, x: nat :: Holds(s', place, x) <==> Holds(s, place, x)
  }

  /** A new uuid appears at `to`. */
  ghost predicate Born(s: State, s': State, to: Place) {
    && s'.places == s.places + [to]
    && forall place: Place, x: nat :: Holds(s', place, x) <==> Holds(s, place, x) || (x == |s.places| && place == to)
  }

  lemma PlacesKept(s: State, s': State)
    requires PlacesOk(s)
    requires Unmoved(s, s') || (exists u: nat, to: Place :: Moved(s, s', u, to))
             || (exists to: Place :: Born(s, s', to))
    ensures PlacesOk(s')
  {
  }

  // ------------------------------------------------------------ what the parts of steps do

  lemma GoHolds(s: State, a: nat, pc: Pc)
    requires a < |s.pcs|
    ensures forall place: Place, x: nat ::
              Holds(Go(s, a, pc), place, x)
              <==> if place == Hand(a) then HandOf(pc) == Some(x) else Holds(s, place, x)
  {
  }

  lemma BorrowHolds(s: State, c: nat, borrower: Option<nat>)
    requires c < |s.contexts|
    ensures forall place: Place, x: nat :: Holds(Borrow(s, c, borrower), place, x) <==> Holds(s, place, x)
  {
    forall d: nat, k: nat
      ensures LocalAt(Borrow(s, c, borrower).contexts, d, k) == LocalAt(s.contexts, d, k)
    {
    }
  }

  lemma PutSlotHolds(s: State, c: nat, k: nat, slot: Option<Slot>)
    requires c < |s.contexts| && k < |s.contexts[c].slots|
    ensures forall place: Place, x: nat :: Holds(PutSlot(s, c, k, slot), place, x)
                          <==> if place == Cached(c, k) then LocalOf(slot) == Some(x) else Holds(s, place, x)
  {
    forall d: nat, j: nat
      ensures LocalAt(PutSlot(s, c, k, slot).contexts, d, j) == if d == c && j == k then LocalOf(slot)
              else LocalAt(s.contexts, d, j)
    {
    }
  }

  function ReleasedTo(s: State, p: nat): Place
    requires p < |s.pools|
  {
    if |s.pools[p].tracks| < POOL_CAPACITY then Pooled(p) else Retired
  }

  predicate IsHistory(place: Place) {
    place.Fixed? || place.Retired?
  }

  lemma ReleaseToHolds(s: State, p: nat, u: nat)
    requires p < |s.pools| && u < |s.places|
    ensures forall place: Place, x: nat :: Holds(ReleaseTo(s, p, u), place, x)
                          <==> if x == u && (IsHistory(place) || place == ReleasedTo(s, p)) then
                              place == ReleasedTo(s, p)
                               else Holds(s, place, x)
  {
  }

  // ------------------------------------------------------------ every step moves at most one uuid

  ghost predicate Conserves(s: State, s': State) {
    || Unmoved(s, s')
    || (exists u: nat, to: Place :: Moved(s, s', u, to))
    || (exists to: Place :: Born(s, s', to))
  }

  /** Where a uuid is not, once it is known where it is. */
  lemma OnlyThere(s: State, place: Place, u: nat)
    requires PlacesOk(s) && Holds(s, place, u)
    ensures u < |s.places| && s.places[u] == place
    ensures forall other: Place :: Holds(s, other, u) <==> other == place
  {
  }

  /** A uuid in hand or at a place changes hands: the two places change, nothing else does. */
  lemma MovedFromTo(s: State, s': State, u: nat, from: Place, to: Place)
    requires PlacesOk(s) && Holds(s, from, u) && s'.places == s.places[u := to]
    requires forall place: Place, x: nat :: place != from && place != to && !IsHistory(place) ==>
        (Holds(s', place, x) <==> Holds(s, place, x))
    requires forall x: nat :: from != to && !IsHistory(from) ==> (Holds(s', from, x) <==> Holds(s, from, x) && x != u)
    requires forall x: nat :: !IsHistory(to) ==> (Holds(s', to, x) <==> Holds(s, to, x) || x == u)
    ensures Moved(s, s', u, to)
  {
    OnlyThere(s, from, u);
    forall place: Place, x: nat
      ensures Holds(s', place, x) <==> if x == u then place == to else Holds(s, place, x)
    {
      assert Holds(s, place, u) <==> place == from;
    }
  }

  /** The step carries `u` from where it is to `to`, and leaves every other uuid in place. */
  ghost predicate Carried(s: State, s': State, u: nat, from: Place, to: Place) {
    Holds(s, from, u) && u < |s.places| && s.places[u] == from && Moved(s, s', u, to)
  }

  /** A claim takes the uuid of the first slot with the key, if there is one, into the callback's hand. */
  lemma ScanConserves(s: State, a: nat, w: Work)
    requires Owned(s) && a < |s.pcs| && s.pcs[a] == Scanning(w) && w.context < |s.contexts|
    ensures Conserves(s, Scan(s, a, w))
    ensures var slots := s.contexts[w.context].slots;
            var k := FindKey(slots, w.key);
            if k < |slots| && slots[k].value.local.Some?
            then Carried(s, Scan(s, a, w), slots[k].value.local.value, Cached(w.context, k), Hand(a))
            else Unmoved(s, Scan(s, a, w))
  {
    var slots := s.contexts[w.context].slots;
    var k := FindKey(slots, w.key);
    if k < |slots| && slots[k].value.local.Some? {
      OnlyThere(s, Cached(w.context, k), slots[k].value.local.value);
      TakeMoves(s, a, w, k, slots[k].value);
    } else {
      var pc := Scan(s, a, w).pcs[a];
      GoHolds(s, a, pc);
    }
  }

  lemma TakeMoves(s: State, a: nat, w: Work, k: nat, slot: Slot)
    requires PlacesOk(s) && a < |s.pcs| && HandOf(s.pcs[a]) == None && w.context < |s.contexts| && slot.local.Some?
    requires k < |s.contexts[w.context].slots| && s.contexts[w.context].slots[k] == Some(slot)
    requires Holds(s, Cached(w.context, k), slot.local.value) && slot.local.value < |s.places|
    ensures var taken := PutSlot(s, w.context, k, Some(slot.(local := None)));
            Moved(s, Go(taken.(places := s.places[slot.local.value := Hand(a)]), a,
                        Opening(w, Some(slot.pool), slot.local)),
                  slot.local.value, Hand(a))
  {
    var u := slot.local.value;
    var emptied := Some(slot.(local := None));
    var taken := PutSlot(s, w.context, k, emptied).(places := s.places[u := Hand(a)]);
    PutSlotHolds(s, w.context, k, emptied);
    GoHolds(taken, a, Opening(w, Some(slot.pool), Some(u)));
    MovedFromTo(s, Go(taken, a, Opening(w, Some(slot.pool), Some(u))), u, Cached(w.context, k), Hand(a));
  }

  /** The pool's oldest uuid, if it has any, goes into the callback's hand. */
  lemma PopConserves(s: State, a: nat, w: Work, p: nat, cached: bool)
    requires Owned(s) && a < |s.pcs| && s.pcs[a] == Popping(w, p, cached) && p < |s.pools|
    ensures Conserves(s, Pop(s, a, w, p, cached))
    ensures if s.pools[p].tracks != [] then
        Carried(s, Pop(s, a, w, p, cached), s.pools[p].tracks[0], Pooled(p), Hand(a))
            else Unmoved(s, Pop(s, a, w, p, cached))
  {
    var tracks := s.pools[p].tracks;
    if tracks != [] {
      assert Holds(s, Pooled(p), tracks[0]);
      OnlyThere(s, Pooled(p), tracks[0]);
      PopMoves(s, a, p, tracks[0], Popped(w, p, cached, Some(tracks[0])));
    } else {
      GoHolds(s, a, Popped(w, p, cached, None));
    }
  }

  lemma DistinctTail(tracks: seq<nat>)
    requires Distinct(tracks) && tracks != []
    ensures forall x :: x in tracks[1..] <==> x in tracks && x != tracks[0]
  {
  }

  lemma PopMoves(s: State, a: nat, p: nat, u: nat, pc: Pc)
    requires PlacesOk(s) && QueuesOk(s) && a < |s.pcs| && HandOf(s.pcs[a]) == None && HandOf(pc) == Some(u)
    requires p < |s.pools| && s.pools[p].tracks != [] && s.pools[p].tracks[0] == u && u < |s.places|
    requires Holds(s, Pooled(p), u)
    ensures var popped := s.(pools := s.pools[p := s.pools[p].(tracks := s.pools[p].tracks[1..])],
                             places := s.places[u := Hand(a)]);
            Moved(s, Go(popped, a, pc), u, Hand(a))
  {
    var popped := s.(pools := s.pools[p := s.pools[p].(tracks := s.pools[p].tracks[1..])],
                     places := s.places[u := Hand(a)]);
    GoHolds(popped, a, pc);
    DistinctTail(s.pools[p].tracks);
    MovedFromTo(s, Go(popped, a, pc), u, Pooled(p), Hand(a));
  }

  /** The replaced slot's uuid goes to that slot's own pool, or is retired if the pool is full. */
  lemma EvictConserves(s: State, a: nat, c: nat, p: nat, key: Key, hand: Option<nat>, purpose: Purpose)
    requires Owned(s) && a < |s.pcs| && s.pcs[a] == Evicting(c, p, key, hand, purpose) && c < |s.contexts|
    ensures s.contexts[c].next < |s.contexts[c].slots|
    ensures Conserves(s, Evict(s, a, c, p, key, hand, purpose))
    ensures var k := s.contexts[c].next;
            var victim := s.contexts[c].slots[k];
            victim.Some? ==> victim.value.pool < |s.pools|
    ensures var k := s.contexts[c].next;
            var victim := s.contexts[c].slots[k];
            if LocalOf(victim).Some?
            then Carried(s, Evict(s, a, c, p, key, hand, purpose), LocalOf(victim).value,
                         Cached(c, k), ReleasedTo(s, victim.value.pool))
            else Unmoved(s, Evict(s, a, c, p, key, hand, purpose))
  {
    var k := s.contexts[c].next;
    var victim := s.contexts[c].slots[k];
    var emptied := EmptyNext(s, c);
    var s' := Evict(s, a, c, p, key, hand, purpose);
    EmptiedHolds(s, c);
    if victim.Some? && victim.value.local.Some? {
      var u := victim.value.local.value;
      assert Holds(s, Cached(c, k), u);
      OnlyThere(s, Cached(c, k), u);
      var to := ReleasedTo(emptied, victim.value.pool);
      ReleaseToHolds(emptied, victim.value.pool, u);
      GoHolds(ReleaseTo(emptied, victim.value.pool, u), a, Installing(c, k, p, key, hand, purpose));
      MovedFromTo(s, s', u, Cached(c, k), to);
    } else {
      GoHolds(emptied, a, Installing(c, k, p, key, hand, purpose));
    }
  }

  lemma EmptiedHolds(s: State, c: nat)
    requires c < |s.contexts| && s.contexts[c].next < |s.contexts[c].slots|
    ensures forall place: Place, x: nat ::
              Holds(EmptyNext(s, c), place, x) <==> place != Cached(c, s.contexts[c].next) && Holds(s, place, x)
  {
    forall d: nat, j: nat
      ensures LocalAt(EmptyNext(s, c).contexts, d, j) == if d == c && j == s.contexts[c].next then None
              else LocalAt(s.contexts, d, j)
    {
    }
  }

  lemma InstallConserves(s: State, a: nat, c: nat, k: nat, p: nat, key: Key, hand: Option<nat>, purpose: Purpose)
    requires Owned(s) && a < |s.pcs| && s.pcs[a] == Installing(c, k, p, key, hand, purpose)
    ensures c < |s.contexts| && k < |s.contexts[c].slots|
    ensures Conserves(s, Install(s, a, c, k, p, key, hand, purpose))
  {
    var s' := Install(s, a, c, k, p, key, hand, purpose);
    assert s.contexts[c].slots[k] == None;
    assert forall x: nat :: !Holds(s, Cached(c, k), x);
    if purpose.ForClaim? {
      var slot := Some(Slot(key, p, None));
      PutSlotHolds(s, c, k, slot);
      GoHolds(PutSlot(s, c, k, slot), a, Opening(Work(purpose.span, key, purpose.parent, c), Some(p), hand));
    } else {
      var slot := Some(Slot(key, p, hand));
      var stored := PutSlot(s, c, k, slot);
      PutSlotHolds(s, c, k, slot);
      if hand.Some? {
        assert Holds(s, Hand(a), hand.value);
        OnlyThere(s, Hand(a), hand.value);
        var placed := stored.(places := s.places[hand.value := Cached(c, k)]);
        BorrowHolds(placed, c, None);
        GoHolds(Borrow(placed, c, None), a, Idle);
        MovedFromTo(s, s', hand.value, Hand(a), Cached(c, k));
      } else {
        BorrowHolds(stored, c, None);
        GoHolds(Borrow(stored, c, None), a, Idle);
      }
    }
  }

  lemma OpenConserves(s: State, a: nat, w: Work, owner: Option<nat>, hand: Option<nat>)
    requires Owned(s) && a < |s.pcs| && s.pcs[a] == Opening(w, owner, hand)
    ensures Conserves(s, Open(s, a, w, owner, hand))
  {
    if hand.Some? {
      GoHolds(s, a, Beginning(w, owner, hand.value));
    } else {
      var born := Allocate(s, Hand(a), Some(w.key));
      GoHolds(born, a, Beginning(w, owner, |s.places|));
      assert forall x: nat :: Holds(s, Hand(a), x) <==> HandAt(s.pcs, a) == Some(x);
      assert Born(s, Open(s, a, w, owner, hand), Hand(a));
    }
  }

  lemma StoreConserves(s: State, a: nat, w: Work, owner: Option<nat>, u: nat)
    requires Owned(s) && a < |s.pcs| && s.pcs[a] == Storing(w, owner, u) && w.context < |s.contexts|
    ensures u < |s.places| && Conserves(s, Store(s, a, w, owner, u))
  {
    assert Holds(s, Hand(a), u);
    OnlyThere(s, Hand(a), u);
    assert IsCreating(s.pcs[a], w.span);
    var stored := s.(live := s.live[w.span := Span(owner, Some(u), w.key, w.parent, 0)],
                     places := s.places[u := Live(w.span)]);
    BorrowHolds(stored, w.context, None);
    GoHolds(Borrow(stored, w.context, None), a, Idle);
    MovedFromTo(s, Store(s, a, w, owner, u), u, Hand(a), Live(w.span));
  }

  lemma TakeConserves(s: State, a: nat, id: nat)
    requires Owned(s) && a < |s.pcs| && s.pcs[a] == Idle && id in s.live
    ensures Conserves(s, TakeSpan(s, a, id))
  {
    var span := s.live[id];
    if span.track.Some? {
      var u := span.track.value;
      assert Holds(s, Live(id), u);
      OnlyThere(s, Live(id), u);
      GoHolds(s.(live := s.live - {id}, places := s.places[u := Hand(a)]), a, Closing(span.key, span.pool, u));
      MovedFromTo(s, TakeSpan(s, a, id), u, Live(id), Hand(a));
    }
  }

  /** Where a released uuid goes: its slot, its pool, retirement; or nowhere yet, if a slot must be replaced. */
  function ReleaseTarget(s: State, held: Option<nat>, owner: Option<nat>): Option<Place>
    requires held.Some? ==> held.value < |s.contexts|
    requires owner.Some? ==> owner.value < |s.pools|
  {
    if owner.None? then Some(Retired)
    else if held.None? then Some(ReleasedTo(s, owner.value))
    else
      var slots := s.contexts[held.value].slots;
      var k := FindPool(slots, owner.value);
      if k == |slots| then None
      else if slots[k].value.local.None? then Some(Cached(held.value, k))
      else Some(ReleasedTo(s, owner.value))
  }

  lemma ReleaseConserves(s: State, a: nat, held: Option<nat>, key: Key, owner: Option<nat>, u: nat)
    requires Owned(s) && a < |s.pcs| && s.pcs[a] == Releasing(held, key, owner, u)
    ensures u < |s.places| && (held.Some? ==> held.value < |s.contexts|) && (owner.Some? ==> owner.value < |s.pools|)
    ensures Conserves(s, Release(s, a, held, key, owner, u))
    ensures match ReleaseTarget(s, held, owner)
            case Some(to) => Carried(s, Release(s, a, held, key, owner, u), u, Hand(a), to)
            case None => Unmoved(s, Release(s, a, held, key, owner, u))
  {
    assert Holds(s, Hand(a), u);
    OnlyThere(s, Hand(a), u);
    var s' := Release(s, a, held, key, owner, u);
    if owner.None? {
      if held.Some? {
        BorrowHolds(Retire(s, u), held.value, None);
      }
      GoHolds(FreeContext(Retire(s, u), held), a, Idle);
      MovedFromTo(s, s', u, Hand(a), Retired);
    } else if held.None? {
      ReleaseToHolds(s, owner.value, u);
      GoHolds(ReleaseTo(s, owner.value, u), a, Idle);
      MovedFromTo(s, s', u, Hand(a), ReleasedTo(s, owner.value));
    } else {
      ReleaseCachedConserves(s, a, held.value, key, owner.value, u);
    }
  }

  lemma ReleaseCachedConserves(s: State, a: nat, c: nat, key: Key, p: nat, u: nat)
    requires Owned(s) && a < |s.pcs| && s.pcs[a] == Releasing(Some(c), key, Some(p), u)
    requires c < |s.contexts| && p < |s.pools| && Holds(s, Hand(a), u) && u < |s.places|
    ensures match ReleaseTarget(s, Some(c), Some(p))
            case Some(to) => Moved(s, ReleaseCached(s, a, c, key, p, u), u, to)
            case None => Unmoved(s, ReleaseCached(s, a, c, key, p, u))
  {
    var slots := s.contexts[c].slots;
    var k := FindPool(slots, p);
    if k == |slots| {
      GoHolds(s, a, Evicting(c, p, key, Some(u), ForRelease));
    } else if slots[k].value.local.None? {
      KeepMoves(s, a, c, k, u);
    } else {
      GiveMoves(s, a, c, p, u);
    }
  }

  lemma KeepMoves(s: State, a: nat, c: nat, k: nat, u: nat)
    requires PlacesOk(s) && Holds(s, Hand(a), u) && u < |s.places| && a < |s.pcs|
    requires c < |s.contexts| && k < |s.contexts[c].slots| && s.contexts[c].slots[k].Some?
    requires LocalAt(s.contexts, c, k) == None
    ensures var put := PutSlot(s, c, k, Some(s.contexts[c].slots[k].value.(local := Some(u))));
            Moved(s, Go(Borrow(put.(places := s.places[u := Cached(c, k)]), c, None), a, Idle), u, Cached(c, k))
  {
    var slot := Some(s.contexts[c].slots[k].value.(local := Some(u)));
    var stored := PutSlot(s, c, k, slot).(places := s.places[u := Cached(c, k)]);
    assert forall x: nat :: !Holds(s, Cached(c, k), x);
    PutSlotHolds(s, c, k, slot);
    BorrowHolds(stored, c, None);
    GoHolds(Borrow(stored, c, None), a, Idle);
    MovedFromTo(s, Go(Borrow(stored, c, None), a, Idle), u, Hand(a), Cached(c, k));
  }

  lemma GiveMoves(s: State, a: nat, c: nat, p: nat, u: nat)
    requires PlacesOk(s) && Holds(s, Hand(a), u) && u < |s.places| && a < |s.pcs| && c < |s.contexts| && p < |s.pools|
    ensures Moved(s, Go(Borrow(ReleaseTo(s, p, u), c, None), a, Idle), u, ReleasedTo(s, p))
  {
    ReleaseToHolds(s, p, u);
    BorrowHolds(ReleaseTo(s, p, u), c, None);
    GoHolds(Borrow(ReleaseTo(s, p, u), c, None), a, Idle);
    MovedFromTo(s, Go(Borrow(ReleaseTo(s, p, u), c, None), a, Idle), u, Hand(a), ReleasedTo(s, p));
  }

  /** A thread's exit, one slot: its uuid goes to that slot's own pool, or is retired if the pool is full. */
  lemma DropConserves(s: State, a: nat, c: nat, k: nat)
    requires Owned(s) && a < |s.pcs| && s.pcs[a] == Exiting(c, k) && c < |s.contexts|
    ensures Conserves(s, DropSlot(s, a, c, k))
    ensures LocalAt(s.contexts, c, k).Some? ==> s.contexts[c].slots[k].value.pool < |s.pools|
    ensures if LocalAt(s.contexts, c, k).Some?
            then Carried(s, DropSlot(s, a, c, k), LocalAt(s.contexts, c, k).value,
                         Cached(c, k), ReleasedTo(s, s.contexts[c].slots[k].value.pool))
            else Unmoved(s, DropSlot(s, a, c, k))
  {
    if k < |s.contexts[c].slots| && LocalAt(s.contexts, c, k).Some? {
      var victim := s.contexts[c].slots[k].value;
      assert Holds(s, Cached(c, k), victim.local.value);
      OnlyThere(s, Cached(c, k), victim.local.value);
      DropMoves(s, a, c, k, victim.pool, victim.local.value);
    } else {
      GoHolds(s, a, DropSlot(s, a, c, k).pcs[a]);
    }
  }

  lemma DropMoves(s: State, a: nat, c: nat, k: nat, p: nat, u: nat)
    requires PlacesOk(s) && a < |s.pcs| && s.pcs[a] == Exiting(c, k) && c < |s.contexts| && k < |s.contexts[c].slots|
    requires s.contexts[c].slots[k].Some? && s.contexts[c].slots[k].value.local == Some(u) && p < |s.pools|
    requires Holds(s, Cached(c, k), u) && u < |s.places|
    ensures var put := PutSlot(s, c, k, Some(s.contexts[c].slots[k].value.(local := None)));
            Moved(s, Go(ReleaseTo(put, p, u), a, Exiting(c, k + 1)), u, ReleasedTo(s, p))
  {
    var slot := Some(s.contexts[c].slots[k].value.(local := None));
    var put := PutSlot(s, c, k, slot);
    PutSlotHolds(s, c, k, slot);
    ReleaseToHolds(put, p, u);
    GoHolds(ReleaseTo(put, p, u), a, Exiting(c, k + 1));
    MovedFromTo(s, Go(ReleaseTo(put, p, u), a, Exiting(c, k + 1)), u, Cached(c, k), ReleasedTo(s, p));
  }

  // ------------------------------------------------------------ steps that move no uuid

  /** Steps of a callback that only change its own program counter, locks or the pool map. */
  predicate IsQuiet(pc: Pc) {
    pc.LookingUp? || pc.Entering? || pc.Reserving? || pc.Publishing?
  }

  lemma QuietConserves(s: State, a: nat, pc: Pc, choice: Choice)
    requires a < |s.pcs| && s.pcs[a] == pc && IsQuiet(pc) && Steps(s, pc, choice)
    ensures Unmoved(s, Step(s, a, pc, choice))
  {
    match pc
    case LookingUp(w) => GoHolds(s, a, LookUp(s, a, w).pcs[a]);
    case Entering(w) => EnterConserves(s, a, w);
    case Reserving(w) => ReserveConserves(s, a, w);
    case Publishing(w) => PublishConserves(s, a, w);
  }

  lemma EnterConserves(s: State, a: nat, w: Work)
    requires a < |s.pcs| && s.pcs[a] == Entering(w)
    ensures Unmoved(s, EnterPool(s, a, w))
  {
    var pc := EnterPool(s, a, w).pcs[a];
    GoHolds(s, a, pc);
    GoHolds(s.(locks := s.locks[w.key := a]), a, pc);
  }

  lemma ReserveConserves(s: State, a: nat, w: Work)
    requires a < |s.pcs| && s.pcs[a] == Reserving(w)
    ensures Unmoved(s, Reserve(s, a, w))
  {
    var s' := Reserve(s, a, w);
    GoHolds(s.(locks := s'.locks, count := s'.count), a, s'.pcs[a]);
  }

  lemma PublishConserves(s: State, a: nat, w: Work)
    requires a < |s.pcs| && s.pcs[a] == Publishing(w)
    ensures Unmoved(s, Publish(s, a, w))
  {
    var s' := Publish(s, a, w);
    var published := s.(pools := s'.pools, poolOf := s'.poolOf, locks := s'.locks);
    assert forall p: nat :: TracksAt(published.pools, p) == TracksAt(s.pools, p);
    GoHolds(published, a, s'.pcs[a]);
  }

  lemma AcquireForSpanConserves(s: State, a: nat, id: nat, key: Key, parent: Option<nat>, choice: Choice)
    requires CreatingOk(s) && a < |s.pcs| && s.pcs[a] == Keyed(id, key, parent) && CanAcquire(s, choice)
    ensures Unmoved(s, AcquireForSpan(s, a, id, key, parent, choice))
  {
    if choice.context.Some? {
      var c := choice.context.value;
      BorrowHolds(s, c, Some(a));
      GoHolds(Borrow(s, c, Some(a)), a, Scanning(Work(id, key, parent, c)));
    } else {
      assert IsCreating(s.pcs[a], id);
      GoHolds(s.(live := s.live[id := Span(None, None, key, parent, 0)]), a, Idle);
    }
  }

  lemma AcquireForCloseConserves(s: State, a: nat, key: Key, owner: Option<nat>, u: nat, choice: Choice)
    requires a < |s.pcs| && s.pcs[a] == Closing(key, owner, u) && CanAcquire(s, choice)
    ensures Unmoved(s, AcquireForClose(s, a, key, owner, u, choice))
  {
    if choice.context.Some? {
      var c := choice.context.value;
      BorrowHolds(s, c, Some(a));
      GoHolds(Borrow(s, c, Some(a)), a, Ending(c, key, owner, u));
    } else {
      NoteConserves(s, a, LifeEnd, u, choice.time, false, Releasing(None, key, owner, u));
    }
  }

  lemma NoteConserves(s: State, a: nat, kind: Kind, u: nat, time: nat, emitted: bool, pc: Pc)
    requires a < |s.pcs| && HandOf(pc) == HandOf(s.pcs[a])
    ensures Unmoved(s, Go(Note(s, kind, u, time, emitted), a, pc))
  {
    GoHolds(Note(s, kind, u, time, emitted), a, pc);
  }

  lemma StartConserves(s: State, a: nat, id: nat, address: nat, length: nat, parent: Option<nat>)
    requires PlacesOk(s) && a < |s.pcs| && s.pcs[a] == Idle
    ensures Conserves(s, StartSpan(s, a, id, address, length, parent))
  {
    var s' := StartSpan(s, a, id, address, length, parent);
    if s'.places == s.places {
      GoHolds(s, a, s'.pcs[a]);
    } else {
      GoHolds(Allocate(s, Fixed, None).(process := s'.process), a, s'.pcs[a]);
      assert Born(s, s', Fixed);
    }
  }

  lemma OtherConserves(s: State, l: Label)
    requires PlacesOk(s) && Enabled(s, l) && Allocates(l.action)
    ensures Conserves(s, Apply(s, l))
  {
    var s' := Apply(s, l);
    assert forall c: nat, k: nat :: LocalAt(s'.contexts, c, k) == LocalAt(s.contexts, c, k);
    assert s' == s || Born(s, s', Fixed);
  }

  lemma PollConserves(s: State, id: nat, kind: Kind, choice: Choice)
    requires id in s.live
    ensures Unmoved(s, Poll(s, id, kind, choice))
  {
    assert forall j: nat :: TrackAt(Poll(s, id, kind, choice).live, j) == TrackAt(s.live, j);
  }

  lemma ExitThreadConserves(s: State, l: Label)
    requires Enabled(s, l) && l.action.ExitThread?
    ensures Unmoved(s, Apply(s, l))
  {
    BorrowHolds(s, l.action.context, Some(l.actor));
    GoHolds(Borrow(s, l.action.context, Some(l.actor)), l.actor, Exiting(l.action.context, 0));
  }

  lemma AdvanceConserves(s: State, l: Label)
    requires Owned(s) && Enabled(s, l) && l.action.Advance?
    ensures Conserves(s, Apply(s, l))
  {
    var a, pc := l.actor, s.pcs[l.actor];
    match pc
    case Scanning(w) => ScanConserves(s, a, w);
    case Popping(w, p, cached) => PopConserves(s, a, w, p, cached);
    case Evicting(c, p, key, hand, purpose) => EvictConserves(s, a, c, p, key, hand, purpose);
    case Installing(c, k, p, key, hand, purpose) => InstallConserves(s, a, c, k, p, key, hand, purpose);
    case Opening(w, owner, hand) => OpenConserves(s, a, w, owner, hand);
    case Storing(w, owner, u) => StoreConserves(s, a, w, owner, u);
    case Releasing(held, key, owner, u) => ReleaseConserves(s, a, held, key, owner, u);
    case Exiting(c, k) => DropConserves(s, a, c, k);
    case Keyed(id, key, parent) => AcquireForSpanConserves(s, a, id, key, parent, l.choice);
    case Closing(key, owner, u) => AcquireForCloseConserves(s, a, key, owner, u, l.choice);
    case Beginning(w, owner, u) => NoteConserves(s, a, LifeBegin, u, l.choice.time, true, Storing(w, owner, u));
    case Ending(c, key, owner, u) =>
        NoteConserves(s, a, LifeEnd, u, l.choice.time, true, Releasing(Some(c), key, owner, u));
    case _ => QuietConserves(s, a, pc, l.choice);
  }

  /** Conservation: a step moves one uuid from its place to another, or makes a new one, or neither. */
  lemma StepConserves(s: State, l: Label)
    requires Owned(s) && Enabled(s, l)
    ensures Conserves(s, Apply(s, l)) && PlacesOk(Apply(s, l))
  {
    match l.action {
      case NewContext => OtherConserves(s, l);
      case AllocateOther => OtherConserves(s, l);
      case UseProcess => OtherConserves(s, l);
      case NewSpan(id, address, length, parent) => StartConserves(s, l.actor, id, address, length, parent);
      case Enter(id) => PollConserves(s, id, PollBegin, l.choice);
      case ExitSpan(id) => PollConserves(s, id, PollEnd, l.choice);
      case Close(id) => TakeConserves(s, l.actor, id);
      case ExitThread(_) => ExitThreadConserves(s, l);
      case Advance => AdvanceConserves(s, l);
    }
    PlacesKept(s, Apply(s, l));
  }
}
