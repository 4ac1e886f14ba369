/** No track is thrown away while its own pool has room for it. */
module TrackRecycling {
  import opened Prelude
  import opened TrackMachine
  import opened TrackOwnership
  import opened TrackShapes
  import opened TrackPools
  import opened TrackKeys
  import opened TrackHistories
  import opened TrackExits

  /** The pool for this name and parent has no room. */
  ghost predicate PoolFull(s: State, key: Key) {
    exists p: nat :: p < |s.pools| && s.pools[p].key == key && |s.pools[p].tracks| == POOL_CAPACITY
  }

  predicate Retires(s: State, s': State, u: nat) {
    u < |s.places| <= |s'.places| && s.places[u] != Retired && s'.places[u] == Retired
  }

  /** A uuid released to a pool of its own key is retired only if that is full. */
  lemma ReleasedWhere(s: State, u: nat, p: nat, key: Key)
    requires QueuesOk(s) && p < |s.pools| && s.pools[p].key == key && ReleasedTo(s, p) == Retired
    ensures PoolFull(s, key)
  {
  }

  lemma EvictRetires(s: State, a: nat, c: nat, p: nat, key: Key, hand: Option<nat>, purpose: Purpose, u: nat)
    requires Owned(s) && AllKeyed(s) && a < |s.pcs| && s.pcs[a] == Evicting(c, p, key, hand, purpose)
    requires c < |s.contexts| && s.contexts[c].next < |s.contexts[c].slots|
    requires Retires(s, Evict(s, a, c, p, key, hand, purpose), u)
    ensures u < |s.keys| && s.keys[u].Some? && PoolFull(s, s.keys[u].value)
  {
    EvictConserves(s, a, c, p, key, hand, purpose);
    var victim := s.contexts[c].slots[s.contexts[c].next];
    assert LocalOf(victim) == Some(u) && SlotKeyed(s, victim);
    ReleasedWhere(s, u, victim.value.pool, victim.value.key);
  }

  lemma ReleaseRetires(s: State, a: nat, held: Option<nat>, key: Key, owner: Option<nat>, u: nat, x: nat)
    requires Owned(s) && AllKeyed(s) && a < |s.pcs| && s.pcs[a] == Releasing(held, key, owner, u)
    requires u < |s.places| && (held.Some? ==> held.value < |s.contexts|) && (owner.Some? ==> owner.value < |s.pools|)
    requires Retires(s, Release(s, a, held, key, owner, u), x)
    ensures x < |s.keys| && s.keys[x].Some? && (owner == None || PoolFull(s, s.keys[x].value))
  {
    ReleaseConserves(s, a, held, key, owner, u);
    assert PcKeyed(s, s.pcs[a]);
    assert x == u && s.keys[u] == Some(key);
    if owner.Some? {
      ReleasedWhere(s, u, owner.value, key);
    }
  }

  lemma DropRetires(s: State, a: nat, c: nat, k: nat, u: nat)
    requires Owned(s) && AllKeyed(s) && a < |s.pcs| && s.pcs[a] == Exiting(c, k) && c < |s.contexts|
    requires Retires(s, DropSlot(s, a, c, k), u)
    ensures u < |s.keys| && s.keys[u].Some? && PoolFull(s, s.keys[u].value)
  {
    DropConserves(s, a, c, k);
    assert LocalAt(s.contexts, c, k) == Some(u);
    var victim := s.contexts[c].slots[k];
    assert SlotKeyed(s, victim);
    ReleasedWhere(s, u, victim.value.pool, victim.value.key);
  }

  /** No other step retires anything. */
  lemma OthersRetireNothing(s: State, l: Label, u: nat)
    requires Enabled(s, l) && !(l.action.Advance? && MayRetire(s.pcs[l.actor]))
    ensures !Retires(s, Apply(s, l), u)
  {
    if l.action.Advance? {
      StepRetiresNothing(s, l.actor, s.pcs[l.actor], l.choice, u);
    }
  }

  predicate MayRetire(pc: Pc) {
    pc.Evicting? || pc.Releasing? || pc.Exiting?
  }

  lemma StepRetiresNothing(s: State, a: nat, pc: Pc, choice: Choice, u: nat)
    requires a < |s.pcs| && Steps(s, pc, choice) && !MayRetire(pc)
    ensures !Retires(s, Step(s, a, pc, choice), u)
  {
  }

  lemma StepRetires(s: State, a: nat, pc: Pc, choice: Choice, u: nat)
    requires TracksOk(s) && FullOk(s) && a < |s.pcs| && s.pcs[a] == pc && Steps(s, pc, choice) && MayRetire(pc)
    requires Retires(s, Step(s, a, pc, choice), u)
    ensures u < |s.keys| && s.keys[u].Some? && (s.count == MAX_REUSABLE_KEYS || PoolFull(s, s.keys[u].value))
  {
    if pc.Evicting? {
      EvictRetires(s, a, pc.context, pc.pool, pc.key, pc.hand, pc.purpose, u);
    } else if pc.Releasing? {
      ReleaseRetires(s, a, pc.held, pc.key, pc.owner, pc.track, u);
      assert pc.owner == None ==> Unpooled(pc);
    } else {
      DropRetires(s, a, pc.context, pc.slot, u);
    }
  }

  lemma PlacesGrow(s: State, l: Label)
    requires Owned(s) && Enabled(s, l)
    ensures |s.places| <= |Apply(s, l).places| && |s.keys| == |s.places|
  {
    StepConserves(s, l);
  }

  lemma RetiredWhere(s: State, l: Label, u: nat)
    requires TracksOk(s) && FullOk(s) && Enabled(s, l) && Retires(s, Apply(s, l), u)
    ensures u < |s.keys| && s.keys[u].Some? && (s.count == MAX_REUSABLE_KEYS || PoolFull(s, s.keys[u].value))
  {
    if l.action.Advance? && MayRetire(s.pcs[l.actor]) {
      StepRetires(s, l.actor, s.pcs[l.actor], l.choice, u);
    } else {
      OthersRetireNothing(s, l, u);
    }
  }

  /**
   Over any run, a track is thrown away only when the pool of the name and parent it was
   described with is full, or when there are all the pools there may be.
   */
  lemma RetiredOnlyIfFull(h: History, actors: nat, polls: bool, labels: seq<Label>, l: Label, u: nat)
    requires h == RunRecalled(Begin(actors, polls), labels) && Enabled(h.s, l)
    requires u < |h.s.places| && h.s.places[u] != Retired
    ensures u < |Apply(h.s, l).places| && u < |h.s.keys|
    ensures Apply(h.s, l).places[u] == Retired ==>
              h.s.keys[u].Some? && (h.s.count == MAX_REUSABLE_KEYS || PoolFull(h.s, h.s.keys[u].value))
  {
    ReachableHistory(h, actors, polls, labels);
    PlacesGrow(h.s, l);
    if Apply(h.s, l).places[u] == Retired {
      RetiredWhere(h.s, l, u);
    }
  }
}
