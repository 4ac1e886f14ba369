/** One pool per key, and never more than the maximum number of pools. */
module TrackPools {
  import opened Prelude
  import opened TrackMachine
  import opened TrackOwnership
  import opened TrackShapes

  /** The map from keys to pools is one to one. */
  ghost predicate PoolMapOk(s: State) {
    && (forall key :: key in s.poolOf ==> s.poolOf[key] < |s.pools| && s.pools[s.poolOf[key]].key == key)
    && (forall p: nat :: p < |s.pools| ==> s.pools[p].key in s.poolOf && s.poolOf[s.pools[p].key] == p)
  }

  /** The key whose map entry a callback has locked. */
  function LockedBy(pc: Pc): Option<Key> {
    match pc
    case Reserving(w) => Some(w.key)
    case Publishing(w) => Some(w.key)
    case _ => None
  }

  /** An entry is locked by exactly the callback that is inside it, and is still vacant. */
  ghost predicate EntriesOk(s: State) {
    && (forall a: nat :: a < |s.pcs| && LockedBy(s.pcs[a]).Some? ==>
          LockedBy(s.pcs[a]).value in s.locks && s.locks[LockedBy(s.pcs[a]).value] == a)
    && (forall key :: key in s.locks ==>
          s.locks[key] < |s.pcs| && LockedBy(s.pcs[s.locks[key]]) == Some(key) && key !in s.poolOf)
  }

  predicate IsReserved(s: State, key: Key) {
    key in s.locks && s.locks[key] < |s.pcs| && s.pcs[s.locks[key]].Publishing?
  }

  /** Keys counted for a pool that is not published yet. */
  ghost function Reserved(s: State): set<Key> {
    set key | key in s.locks && IsReserved(s, key)
  }

  ghost predicate CountOk(s: State) {
    s.count == |s.poolOf| + |Reserved(s)| && s.count <= MAX_REUSABLE_KEYS
  }

  ghost predicate PoolsOk(s: State) {
    PoolMapOk(s) && EntriesOk(s) && CountOk(s)
  }

  /** A step that leaves the map, its locks and the count alone. */
  ghost predicate Aside(s: State, s': State, a: nat) {
    && a < |s.pcs| == |s'.pcs| && s'.pcs == s.pcs[a := s'.pcs[a]]
    && LockedBy(s.pcs[a]) == None && LockedBy(s'.pcs[a]) == None
    && s'.poolOf == s.poolOf && s'.locks == s.locks && s'.count == s.count && SamePoolKeys(s.pools, s'.pools)
  }

  lemma AsideKeeps(s: State, s': State, a: nat)
    requires PoolsOk(s) && Aside(s, s', a)
    ensures PoolsOk(s')
  {
    assert Reserved(s') == Reserved(s) by {
      forall key | key in s.locks
        ensures key in Reserved(s') <==> key in Reserved(s)
      {
        assert s.locks[key] != a;
      }
    }
  }

  lemma EnterKeeps(s: State, a: nat, w: Work)
    requires PoolsOk(s) && a < |s.pcs| && s.pcs[a] == Entering(w) && w.key !in s.locks
    ensures PoolsOk(EnterPool(s, a, w))
  {
    if w.key in s.poolOf {
      AsideKeeps(s, Go(s, a, Popping(w, s.poolOf[w.key], false)), a);
    } else {
      LockKeeps(s, a, w);
    }
  }

  lemma LockKeeps(s: State, a: nat, w: Work)
    requires PoolsOk(s) && a < |s.pcs| && s.pcs[a] == Entering(w) && w.key !in s.locks && w.key !in s.poolOf
    ensures PoolsOk(Go(s.(locks := s.locks[w.key := a]), a, Reserving(w)))
  {
    var s' := Go(s.(locks := s.locks[w.key := a]), a, Reserving(w));
    assert PoolMapOk(s');
    assert EntriesOk(s');
    forall key: Key
      ensures key in Reserved(s') <==> key in Reserved(s)
    {
      if key in s.locks {
        assert s.locks[key] != a;
      }
    }
    assert Reserved(s') == Reserved(s);
  }

  lemma ReserveKeeps(s: State, a: nat, w: Work)
    requires PoolsOk(s) && a < |s.pcs| && s.pcs[a] == Reserving(w)
    ensures PoolsOk(Reserve(s, a, w))
  {
    LocksOwn(s, a, w.key);
    if s.count < MAX_REUSABLE_KEYS {
      CountKeeps(s, a, w);
    } else {
      UnlockKeeps(s, a, w);
    }
  }

  lemma LocksOwn(s: State, a: nat, key: Key)
    requires EntriesOk(s) && a < |s.pcs| && LockedBy(s.pcs[a]) == Some(key)
    ensures key in s.locks && s.locks[key] == a
  {
  }

  function Counted(s: State, a: nat, w: Work): State
    requires a < |s.pcs|
  {
    Go(s.(count := s.count + 1), a, Publishing(w))
  }

  lemma CountKeeps(s: State, a: nat, w: Work)
    requires PoolsOk(s) && a < |s.pcs| && s.pcs[a] == Reserving(w) && s.count < MAX_REUSABLE_KEYS
    requires w.key in s.locks && s.locks[w.key] == a
    ensures PoolsOk(Counted(s, a, w))
  {
    CountedEntries(s, a, w);
    CountedReserved(s, a, w);
  }

  lemma CountedEntries(s: State, a: nat, w: Work)
    requires EntriesOk(s) && a < |s.pcs| && s.pcs[a] == Reserving(w)
    ensures EntriesOk(Counted(s, a, w))
  {
  }

  lemma CountedReserved(s: State, a: nat, w: Work)
    requires EntriesOk(s) && a < |s.pcs| && s.pcs[a] == Reserving(w) && w.key in s.locks && s.locks[w.key] == a
    ensures w.key !in Reserved(s) && Reserved(Counted(s, a, w)) == Reserved(s) + {w.key}
  {
    var s' := Counted(s, a, w);
    forall key: Key
      ensures key in Reserved(s') <==> key in Reserved(s) || key == w.key
    {
      if key in s.locks && key != w.key {
        assert s.locks[key] != a;
      }
    }
  }

  function Unlocked(s: State, a: nat, w: Work): State
    requires a < |s.pcs|
  {
    Go(s.(locks := s.locks - {w.key}), a, Opening(w, None, None))
  }

  lemma UnlockKeeps(s: State, a: nat, w: Work)
    requires PoolsOk(s) && a < |s.pcs| && s.pcs[a] == Reserving(w) && w.key in s.locks && s.locks[w.key] == a
    ensures PoolsOk(Unlocked(s, a, w))
  {
    UnlockedEntries(s, a, w);
    UnlockedReserved(s, a, w);
  }

  lemma UnlockedEntries(s: State, a: nat, w: Work)
    requires EntriesOk(s) && a < |s.pcs| && s.pcs[a] == Reserving(w) && w.key in s.locks && s.locks[w.key] == a
    ensures EntriesOk(Unlocked(s, a, w))
  {
  }

  lemma UnlockedReserved(s: State, a: nat, w: Work)
    requires EntriesOk(s) && a < |s.pcs| && s.pcs[a] == Reserving(w) && w.key in s.locks && s.locks[w.key] == a
    ensures Reserved(Unlocked(s, a, w)) == Reserved(s)
  {
    var s' := Unlocked(s, a, w);
    forall key: Key
      ensures key in Reserved(s') <==> key in Reserved(s)
    {
      if key in s.locks && key != w.key {
        assert s.locks[key] != a;
      }
    }
  }

  lemma PublishKeeps(s: State, a: nat, w: Work)
    requires PoolsOk(s) && a < |s.pcs| && s.pcs[a] == Publishing(w)
    ensures PoolsOk(Publish(s, a, w))
    ensures var s' := Publish(s, a, w);
            && s'.count == s.count && |s'.pools| == |s.pools| + 1
            && s'.poolOf == s.poolOf[w.key := |s.pools|] && w.key !in s.poolOf
            && w.key in Reserved(s) && Reserved(s') == Reserved(s) - {w.key}
  {
    assert LockedBy(s.pcs[a]) == Some(w.key);
    PublishedMap(s, a, w);
    PublishedEntries(s, a, w);
    PublishedReserved(s, a, w);
    PublishedCount(s, a, w);
  }

  lemma PublishedReserved(s: State, a: nat, w: Work)
    requires EntriesOk(s) && a < |s.pcs| && s.pcs[a] == Publishing(w) && w.key in s.locks && s.locks[w.key] == a
    ensures w.key in Reserved(s) && Reserved(Publish(s, a, w)) == Reserved(s) - {w.key}
  {
    var s' := Publish(s, a, w);
    forall key: Key
      ensures key in Reserved(s') <==> key in Reserved(s) && key != w.key
    {
      if key in s.locks && key != w.key {
        assert s.locks[key] != a;
      }
    }
  }

  lemma PublishedCount(s: State, a: nat, w: Work)
    requires a < |s.pcs| && w.key !in s.poolOf
    ensures var s' := Publish(s, a, w);
            |s'.poolOf| == |s.poolOf| + 1 && s'.count == s.count
  {
    var s' := Publish(s, a, w);
    assert s'.poolOf.Keys == s.poolOf.Keys + {w.key};
    assert |s'.poolOf| == |s'.poolOf.Keys| && |s.poolOf| == |s.poolOf.Keys|;
  }

  lemma PublishedMap(s: State, a: nat, w: Work)
    requires PoolMapOk(s) && a < |s.pcs| && w.key !in s.poolOf
    ensures PoolMapOk(Publish(s, a, w))
  {
  }

  lemma PublishedEntries(s: State, a: nat, w: Work)
    requires EntriesOk(s) && a < |s.pcs| && s.pcs[a] == Publishing(w)
    requires w.key in s.locks && s.locks[w.key] == a
    ensures EntriesOk(Publish(s, a, w))
  {
  }

  // ------------------------------------------------------------ every step

  lemma AdvanceAside(s: State, l: Label)
    requires Enabled(s, l) && l.action.Advance? && !Locking(s.pcs[l.actor]) && !s.pcs[l.actor].Entering?
    ensures Aside(s, Apply(s, l), l.actor)
  {
    StepKeepsPools(s, l.actor, s.pcs[l.actor], l.choice);
  }

  lemma OthersAside(s: State, l: Label)
    requires Enabled(s, l) && !l.action.Advance?
    ensures Aside(s, Apply(s, l), l.actor)
  {
  }

  lemma StepPools(s: State, l: Label)
    requires PoolsOk(s) && Enabled(s, l)
    ensures PoolsOk(Apply(s, l))
  {
    var a, pc := l.actor, s.pcs[l.actor];
    if !l.action.Advance? {
      OthersAside(s, l);
      AsideKeeps(s, Apply(s, l), a);
    } else if pc.Entering? {
      EnterKeeps(s, a, pc.work);
    } else if pc.Reserving? {
      ReserveKeeps(s, a, pc.work);
    } else if pc.Publishing? {
      PublishKeeps(s, a, pc.work);
    } else {
      AdvanceAside(s, l);
      AsideKeeps(s, Apply(s, l), a);
    }
  }
}
