/**
 A thread's context as the source keeps it: an array of eight cached pools overwritten
 round robin, and an array of four retained boxes, over pools shared through the store.
 */
module ThreadContexts {
  import opened Prelude
  import opened TrackMachine
  import opened Visitors
  import opened RetainedBoxes

  // ------------------------------------------------------------ pools

  /** What a full queue does with a released uuid: nothing, so the uuid is retired. */
  function Released(tracks: seq<u64>, uuid: u64): seq<u64> {
    if |tracks| < POOL_CAPACITY then tracks + [uuid] else tracks
  }

  function Head(tracks: seq<u64>): Option<u64> {
    if tracks == [] then None else Some(tracks[0])
  }

  function Tail(tracks: seq<u64>): seq<u64> {
    if tracks == [] then [] else tracks[1..]
  }

  /** The queue after `n` claims. */
  function AfterClaims(tracks: seq<u64>, n: nat): seq<u64> {
    if n == 0 then tracks else AfterClaims(Tail(tracks), n - 1)
  }

  lemma {:induction false} ClaimsInOrder(tracks: seq<u64>, n: nat)
    ensures Head(AfterClaims(tracks, n)) == if n < |tracks| then Some(tracks[n]) else None
    decreases n
  {
    if n > 0 {
      ClaimsInOrder(Tail(tracks), n - 1);
    }
  }

  /**
   A released uuid is claimed again, once and after every uuid queued before it, if and
   only if the queue had room; the others come back as if nothing had been released. A
   bounded queue of distinct uuids stays one.
   */
  lemma ReleasedIsClaimedLast(tracks: seq<u64>, uuid: u64, n: nat)
    requires |tracks| <= POOL_CAPACITY && uuid !in tracks
    requires forall i, j :: 0 <= i < j < |tracks| ==> tracks[i] != tracks[j]
    ensures var queue := Released(tracks, uuid);
            && |queue| <= POOL_CAPACITY && (forall i, j :: 0 <= i < j < |queue| ==> queue[i] != queue[j])
            && (n < |tracks| ==> Head(AfterClaims(queue, n)) == Head(AfterClaims(tracks, n)))
            && (Head(AfterClaims(queue, n)) == Some(uuid) <==> n == |tracks| < POOL_CAPACITY)
            && (n > |tracks| ==> Head(AfterClaims(queue, n)) == None)
  {
    ClaimsInOrder(tracks, n);
    ClaimsInOrder(Released(tracks, uuid), n);
  }

  class TrackPool {
    const key: Key
    var tracks: seq<u64>

    constructor (key: Key)
      ensures this.key == key && tracks == []
    {
      this.key, tracks := key, [];
    }

    method Claim() returns (uuid: Option<u64>)
      modifies this
      ensures uuid == Head(old(tracks)) && tracks == Tail(old(tracks))
    {
      if tracks == [] {
        return None;
      }
      uuid := Some(tracks[0]);
      tracks := tracks[1..];
    }

    /** With room the uuid is queued behind all others; a full queue forgets it. */
    method Release(uuid: u64)
      modifies this
      ensures old(tracks) <= tracks
      ensures |old(tracks)| < POOL_CAPACITY ==> |tracks| == |old(tracks)| + 1 && tracks[|tracks| - 1] == uuid
      ensures |old(tracks)| >= POOL_CAPACITY ==> |tracks| == |old(tracks)|
    {
      if |tracks| < POOL_CAPACITY {
        tracks := tracks + [uuid];
      }
    }
  }

  /** The shared map from keys to pools, and the number of keys it has admitted. */
  class PoolMap {
    var pools: map<Key, TrackPool>
    var reusableKeys: nat

    constructor ()
      ensures Valid() && pools == map[]
    {
      pools, reusableKeys := map[], 0;
    }

    ghost predicate Valid()
      reads this
    {
      && reusableKeys == |pools| <= MAX_REUSABLE_KEYS
      && forall key :: key in pools ==> pools[key].key == key
    }

    /** The key's pool, created on first use unless there are too many keys already. */
    method Find(key: Key) returns (pool: Option<TrackPool>)
      requires Valid()
      modifies this
      ensures Valid()
      ensures key in old(pools) ==> pools == old(pools) && pool == Some(pools[key])
      ensures key !in old(pools) && |old(pools)| == MAX_REUSABLE_KEYS ==> pools == old(pools) && pool == None
      ensures key !in old(pools) && |old(pools)| < MAX_REUSABLE_KEYS ==>
                pool.Some? && fresh(pool.value) && pool.value.key == key && pool.value.tracks == []
                && pools == old(pools)[key := pool.value]
    {
      if key in pools {
        return Some(pools[key]);
      }
      if reusableKeys >= MAX_REUSABLE_KEYS {
        return None;
      }
      reusableKeys := reusableKeys + 1;
      var created := new TrackPool(key);
      pools := pools[key := created];
      pool := Some(created);
    }
  }

  // ------------------------------------------------------------ the context

  datatype CachedTrackPool = CachedTrackPool(key: Key, pool: TrackPool, local: Option<u64>)

  datatype ClaimedTrack = ClaimedTrack(pool: TrackPool, uuid: Option<u64>)

  /** The first cached slot for a key, or the number of slots. */
  function SlotFor(slots: seq<Option<CachedTrackPool>>, key: Key): (k: nat)
    ensures k <= |slots|
    ensures k < |slots| ==> slots[k].Some? && slots[k].value.key == key
    ensures forall j :: 0 <= j < k ==> slots[j].None? || slots[j].value.key != key
  {
    if slots == [] || (slots[0].Some? && slots[0].value.key == key) then 0 else 1 + SlotFor(slots[1..], key)
  }

  lemma {:induction false} SlotForIs(slots: seq<Option<CachedTrackPool>>, key: Key, k: nat)
    requires k <= |slots| && (k < |slots| ==> slots[k].Some? && slots[k].value.key == key)
    requires forall j :: 0 <= j < k ==> slots[j].None? || slots[j].value.key != key
    ensures SlotFor(slots, key) == k
  {
    if k > 0 {
      SlotForIs(slots[1..], key, k - 1);
    }
  }

  /** What releasing a slot's uuid to its pool leaves in pool `p`'s queue. */
  function AfterEviction(tracks: seq<u64>, victim: Option<CachedTrackPool>, p: TrackPool): seq<u64> {
    if victim.Some? && victim.value.pool == p && victim.value.local.Some? then
        Released(tracks, victim.value.local.value) else tracks
  }

  class ThreadCtx {
    const trackPools: array<Option<CachedTrackPool>>
    var nextTrackPool: nat
    const retainedSpans: array<Option<RetainedSpan>>

    constructor ()
      ensures fresh(trackPools) && fresh(retainedSpans) && nextTrackPool == 0
      ensures trackPools[..] == seq(CACHE_SLOTS, i => None) && retainedSpans[..] == seq(RETAINED, i => None)
    {
      trackPools := new Option<CachedTrackPool>[CACHE_SLOTS](i => None);
      retainedSpans := new Option<RetainedSpan>[RETAINED](i => None);
      nextTrackPool := 0;
    }

    /** Every cached pool is the map's pool for its key, and no key is cached twice. */
    ghost predicate Caches(store: PoolMap)
      reads this, trackPools, store
    {
      && trackPools.Length == CACHE_SLOTS && nextTrackPool < CACHE_SLOTS
      && (forall k :: 0 <= k < CACHE_SLOTS && trackPools[k].Some? ==>
            trackPools[k].value.key in store.pools && trackPools[k].value.pool == store.pools[trackPools[k].value.key])
      && (forall j, k :: 0 <= j < k < CACHE_SLOTS && trackPools[j].Some? && trackPools[k].Some? ==>
            trackPools[j].value.key != trackPools[k].value.key)
    }

    /** Overwrites the round-robin slot; the victim's uuid goes back to its own pool. */
    method ReplaceTrackPool(store: PoolMap, key: Key, pool: TrackPool, local: Option<u64>)
      requires store.Valid() && Caches(store) && key in store.pools && store.pools[key] == pool
      requires SlotFor(trackPools[..], key) == CACHE_SLOTS
      modifies this, trackPools, store.pools.Values
      ensures store.Valid() && Caches(store)
      ensures nextTrackPool == (old(nextTrackPool) + 1) % CACHE_SLOTS
      ensures trackPools[..] == old(trackPools[..])[old(nextTrackPool) := Some(CachedTrackPool(key, pool, local))]
      ensures forall p: TrackPool :: p in store.pools.Values ==>
                p.tracks == AfterEviction(old(p.tracks), old(trackPools[nextTrackPool]), p)
    {
      var slot := nextTrackPool;
      nextTrackPool := (slot + 1) % trackPools.Length;
      var victim := trackPools[slot];
      if victim.Some? && victim.value.local.Some? {
        victim.value.pool.Release(victim.value.local.value);
      }
      trackPools[slot] := Some(CachedTrackPool(key, pool, local));
    }

    /** The index of the key's slot, as the source's loop finds it. */
    method FindSlot(key: Key) returns (k: nat)
      requires trackPools.Length == CACHE_SLOTS
      ensures k == SlotFor(trackPools[..], key)
    {
      k := 0;
      while k < trackPools.Length && !(trackPools[k].Some? && trackPools[k].value.key == key)
        invariant k <= trackPools.Length
        invariant forall j :: 0 <= j < k ==> trackPools[j].None? || trackPools[j].value.key != key
      {
        k := k + 1;
      }
      SlotForIs(trackPools[..], key, k);
    }

    /**
     Claims a track for a key: the uuid kept in the key's own slot, else the head of its
     pool's queue, the pool being looked up and cached if it was not; none if the key is
     one too many.
     */
    method ClaimTrack(store: PoolMap, key: Key) returns (claim: Option<ClaimedTrack>)
      requires store.Valid() && Caches(store)
      modifies this, trackPools, store, store.pools.Values
      ensures store.Valid() && Caches(store)
      ensures claim.Some? <==> key in old(store.pools) || |old(store.pools)| < MAX_REUSABLE_KEYS
      ensures claim.Some? ==> claim.value.pool.key == key && key in store.pools && store.pools[key] == claim.value.pool
      ensures old(SlotFor(trackPools[..], key)) < CACHE_SLOTS ==>
                var slot := old(trackPools[SlotFor(trackPools[..], key)]).value;
                && claim.Some? && store.pools == old(store.pools) && nextTrackPool == old(nextTrackPool)
                && trackPools[..]
                    == old(trackPools[..])[old(SlotFor(trackPools[..], key)) := Some(slot.(local := None))]
                && claim.value.uuid == (if slot.local.Some? then slot.local else Head(old(slot.pool.tracks)))
                && forall p: TrackPool :: p in store.pools.Values ==>
                     p.tracks == if p == slot.pool && slot.local.None? then Tail(old(p.tracks)) else old(p.tracks)
      ensures old(SlotFor(trackPools[..], key)) == CACHE_SLOTS && claim.None? ==>
                trackPools[..] == old(trackPools[..]) && store.pools == old(store.pools)
      ensures old(SlotFor(trackPools[..], key)) == CACHE_SLOTS && claim.Some? ==>
                && nextTrackPool == (old(nextTrackPool) + 1) % CACHE_SLOTS
                && trackPools[..]
                    == old(trackPools[..])[old(nextTrackPool) := Some(CachedTrackPool(key, claim.value.pool, None))]
                && claim.value.uuid == (if key in old(store.pools) then Head(old(store.pools[key].tracks)) else None)
                && forall other: Key :: other in old(store.pools) ==>
                     other in store.pools && store.pools[other] == old(store.pools)[other]
                     && store.pools[other].tracks
                     == if other == key then Tail(old(store.pools[key].tracks))
                        else AfterEviction(old(store.pools[other].tracks), old(trackPools[nextTrackPool]),
                                           store.pools[other])
    {
      var k := FindSlot(key);
      if k < trackPools.Length {
        claim := ClaimCached(store, k);
      } else {
        claim := ClaimShared(store, key);
      }
    }

    method ClaimCached(store: PoolMap, k: nat) returns (claim: Option<ClaimedTrack>)
      requires store.Valid() && Caches(store) && k < CACHE_SLOTS && trackPools[k].Some?
      modifies trackPools, store.pools.Values
      ensures store.Valid() && Caches(store)
      ensures var slot := old(trackPools[k]).value;
              && trackPools[..] == old(trackPools[..])[k := Some(slot.(local := None))]
              && claim == Some(ClaimedTrack(slot.pool, if slot.local.Some? then slot.local
                                            else Head(old(slot.pool.tracks))))
              && forall p: TrackPool :: p in store.pools.Values ==>
                   p.tracks == if p == slot.pool && slot.local.None? then Tail(old(p.tracks)) else old(p.tracks)
    {
      var slot := trackPools[k].value;
      var uuid := slot.local;
      if uuid.Some? {
        trackPools[k] := Some(slot.(local := None));
      } else {
        uuid := slot.pool.Claim();
      }
      claim := Some(ClaimedTrack(slot.pool, uuid));
    }

    method ClaimShared(store: PoolMap, key: Key) returns (claim: Option<ClaimedTrack>)
      requires store.Valid() && Caches(store) && SlotFor(trackPools[..], key) == CACHE_SLOTS
      modifies this, trackPools, store, store.pools.Values
      ensures store.Valid() && Caches(store)
      ensures claim.Some? <==> key in old(store.pools) || |old(store.pools)| < MAX_REUSABLE_KEYS
      ensures claim.None? ==> trackPools[..] == old(trackPools[..]) && store.pools == old(store.pools)
      ensures claim.Some? ==>
                && claim.value.pool.key == key && key in store.pools && store.pools[key] == claim.value.pool
                && nextTrackPool == (old(nextTrackPool) + 1) % CACHE_SLOTS
                && trackPools[..]
                    == old(trackPools[..])[old(nextTrackPool) := Some(CachedTrackPool(key, claim.value.pool, None))]
                && claim.value.uuid == (if key in old(store.pools) then Head(old(store.pools[key].tracks)) else None)
                && forall other: Key :: other in old(store.pools) ==>
                     other in store.pools && store.pools[other] == old(store.pools)[other]
                     && store.pools[other].tracks
                     == if other == key then Tail(old(store.pools[key].tracks))
                        else AfterEviction(old(store.pools[other].tracks), old(trackPools[nextTrackPool]),
                                           store.pools[other])
    {
      var found := store.Find(key);
      if found.None? {
        return None;
      }
      var pool := found.value;
      var uuid := pool.Claim();
      ReplaceTrackPool(store, key, pool, None);
      claim := Some(ClaimedTrack(pool, uuid));
    }

    /**
     Releases a uuid into its pool's own slot if that is free, else into the pool, else
     by giving the pool a slot.
     */
    method ReleaseTrack(store: PoolMap, pool: TrackPool, uuid: u64)
      requires store.Valid() && Caches(store) && pool.key in store.pools && store.pools[pool.key] == pool
      modifies this, trackPools, store.pools.Values
      ensures store.Valid() && Caches(store)
      ensures old(SlotFor(trackPools[..], pool.key)) < CACHE_SLOTS ==>
                var k := old(SlotFor(trackPools[..], pool.key));
                var slot := old(trackPools[SlotFor(trackPools[..], pool.key)]).value;
                && nextTrackPool == old(nextTrackPool)
                && trackPools[..] == (if slot.local.None? then
                                      old(trackPools[..])[k := Some(slot.(local := Some(uuid)))]
                                          else old(trackPools[..]))
                && forall p: TrackPool :: p in store.pools.Values ==>
                     p.tracks == if p == pool && slot.local.Some? then Released(old(p.tracks), uuid) else old(p.tracks)
      ensures old(SlotFor(trackPools[..], pool.key)) == CACHE_SLOTS ==>
                && nextTrackPool == (old(nextTrackPool) + 1) % CACHE_SLOTS
                && trackPools[..]
                    == old(trackPools[..])[old(nextTrackPool) := Some(CachedTrackPool(pool.key, pool, Some(uuid)))]
                && forall p: TrackPool :: p in store.pools.Values ==>
                     p.tracks == AfterEviction(old(p.tracks), old(trackPools[nextTrackPool]), p)
    {
      var k := 0;
      while k < trackPools.Length && !(trackPools[k].Some? && trackPools[k].value.pool == pool)
        invariant k <= trackPools.Length
        invariant forall j :: 0 <= j < k ==> trackPools[j].None? || trackPools[j].value.key != pool.key
      {
        k := k + 1;
      }
      SlotForIs(trackPools[..], pool.key, k);
      if k == trackPools.Length {
        ReplaceTrackPool(store, pool.key, pool, Some(uuid));
      } else if trackPools[k].value.local.None? {
        trackPools[k] := Some(trackPools[k].value.(local := Some(uuid)));
      } else {
        pool.Release(uuid);
      }
    }

    // -------------------------------------------------------- retained boxes

    /** Every box kept for reuse is empty, and kept once. */
    ghost predicate Retains()
      reads retainedSpans, set k | 0 <= k < retainedSpans.Length && retainedSpans[k].Some? :: retainedSpans[k].value
    {
      && retainedSpans.Length == RETAINED
      && (forall k :: 0 <= k < RETAINED && retainedSpans[k].Some? ==> retainedSpans[k].value.IsEmpty())
      && (forall j, k :: 0 <= j < k < RETAINED && retainedSpans[j].Some? && retainedSpans[k].Some? ==>
            retainedSpans[j].value != retainedSpans[k].value)
    }

    ghost predicate Keeps(box: RetainedSpan)
      reads retainedSpans
    {
      exists k :: 0 <= k < retainedSpans.Length && retainedSpans[k] == Some(box)
    }

    /** A box is always handed out empty, and is then kept no longer. */
    method TakeRetainedSpan() returns (box: RetainedSpan)
      requires Retains()
      modifies retainedSpans
      ensures Retains() && box.IsEmpty() && !Keeps(box)
      ensures var k := FirstWhere(old(retainedSpans[..]), true);
              if k < RETAINED then retainedSpans[..] == old(retainedSpans[..])[k := None]
                 && old(retainedSpans[..])[k] == Some(box)
              else fresh(box) && retainedSpans[..] == old(retainedSpans[..])
    {
      var k := 0;
      while k < retainedSpans.Length
        invariant k <= retainedSpans.Length
        invariant forall j :: 0 <= j < k ==> retainedSpans[j].None?
        invariant retainedSpans[..] == old(retainedSpans[..])
      {
        if retainedSpans[k].Some? {
          FirstWhereIs(retainedSpans[..], true, k);
          box := retainedSpans[k].value;
          retainedSpans[k] := None;
          return;
        }
        k := k + 1;
      }
      FirstWhereIs(retainedSpans[..], true, k);
      box := new RetainedSpan();
    }

    /** A returned box is cleared before it is kept; with no room it is dropped. */
    method ReturnRetainedSpan(box: RetainedSpan)
      requires Retains() && !Keeps(box)
      modifies retainedSpans, box
      ensures Retains() && box.IsEmpty()
      ensures var k := FirstWhere(old(retainedSpans[..]), false);
              retainedSpans[..] == if k < RETAINED then old(retainedSpans[..])[k := Some(box)]
                  else old(retainedSpans[..])
    {
      box.Clear();
      var k := 0;
      while k < retainedSpans.Length
        invariant k <= retainedSpans.Length
        invariant forall j :: 0 <= j < k ==> retainedSpans[j].Some?
        invariant retainedSpans[..] == old(retainedSpans[..])
      {
        if retainedSpans[k].None? {
          FirstWhereIs(retainedSpans[..], false, k);
          retainedSpans[k] := Some(box);
          return;
        }
        k := k + 1;
      }
      FirstWhereIs(retainedSpans[..], false, k);
    }
  }
}
