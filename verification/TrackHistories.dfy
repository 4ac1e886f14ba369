/**
 Tracks over whole runs, against a history of the labels: whose names the keys are, which
 threads have exited, how often each cache has replaced a slot; and what single steps may
 do to queues and to the log.
 */
module TrackHistories {
  import opened Prelude
  import opened TrackMachine
  import opened TrackOwnership
  import opened TrackShapes
  import opened TrackPools
  import opened TrackKeys

  // ------------------------------------------------------------ queues

  /** A queue's change: nothing, one uuid at the back, or its oldest uuid gone. */
  predicate QueueStep(tracks: seq<nat>, tracks': seq<nat>) {
    || tracks' == tracks
    || (|tracks'| == |tracks| + 1 && tracks'[..|tracks|] == tracks && |tracks| < POOL_CAPACITY)
    || (tracks != [] && tracks' == tracks[1..])
  }

  /** Pools are queues: whatever the step, uuids join at the back, leave at the front, and none is skipped. */
  lemma PoolsAreQueues(s: State, l: Label)
    requires Enabled(s, l)
    ensures |s.pools| <= |Apply(s, l).pools|
    ensures forall p: nat :: p < |s.pools| ==> QueueStep(s.pools[p].tracks, Apply(s, l).pools[p].tracks)
    ensures forall p: nat :: |s.pools| <= p < |Apply(s, l).pools| ==> Apply(s, l).pools[p].tracks == []
  {
    if l.action.Advance? {
      StepQueues(s, l.actor, s.pcs[l.actor], l.choice);
    }
  }

  lemma ReleaseToQueues(s: State, p: nat, u: nat)
    requires p < |s.pools| && u < |s.places|
    ensures forall q: nat :: q < |s.pools| ==> QueueStep(s.pools[q].tracks, ReleaseTo(s, p, u).pools[q].tracks)
  {
  }

  predicate Queued(s: State, s': State) {
    && |s.pools| <= |s'.pools|
    && (forall p: nat :: p < |s.pools| ==> QueueStep(s.pools[p].tracks, s'.pools[p].tracks))
    && (forall p: nat :: |s.pools| <= p < |s'.pools| ==> s'.pools[p].tracks == [])
  }

  lemma StepQueues(s: State, a: nat, pc: Pc, choice: Choice)
    requires a < |s.pcs| && Steps(s, pc, choice)
    ensures Queued(s, Step(s, a, pc, choice))
  {
    match pc
    case Publishing(w) => PublishQueues(s, a, w);
    case Popping(w, p, cached) =>
    case Evicting(c, p, key, hand, purpose) => EvictQueued(s, a, c, p, key, hand, purpose);
    case Releasing(held, key, owner, u) => ReleaseQueued(s, a, held, key, owner, u);
    case Exiting(c, k) => DropQueued(s, a, c, k);
    case _ => OtherQueues(s, a, pc, choice);
  }

  lemma PublishQueues(s: State, a: nat, w: Work)
    requires a < |s.pcs|
    ensures Queued(s, Publish(s, a, w))
  {
  }

  lemma EvictQueued(s: State, a: nat, c: nat, p: nat, key: Key, hand: Option<nat>, purpose: Purpose)
    requires a < |s.pcs| && c < |s.contexts| && s.contexts[c].next < |s.contexts[c].slots|
    ensures Queued(s, Evict(s, a, c, p, key, hand, purpose))
  {
    var victim := s.contexts[c].slots[s.contexts[c].next];
    if victim.Some? && victim.value.local.Some? && victim.value.pool < |s.pools|
       && victim.value.local.value < |s.places| {
      ReleaseToQueues(EmptyNext(s, c), victim.value.pool, victim.value.local.value);
    }
  }

  lemma ReleaseQueued(s: State, a: nat, held: Option<nat>, key: Key, owner: Option<nat>, u: nat)
    requires a < |s.pcs| && u < |s.places| && (held.Some? ==> held.value < |s.contexts|)
    requires owner.Some? ==> owner.value < |s.pools|
    ensures Queued(s, Release(s, a, held, key, owner, u))
  {
    if owner.Some? {
      ReleaseToQueues(s, owner.value, u);
    }
  }

  lemma DropQueued(s: State, a: nat, c: nat, k: nat)
    requires a < |s.pcs| && c < |s.contexts|
    ensures Queued(s, DropSlot(s, a, c, k))
  {
    if k < |s.contexts[c].slots| {
      var victim := s.contexts[c].slots[k];
      if victim.Some? && victim.value.local.Some? && victim.value.pool < |s.pools|
         && victim.value.local.value < |s.places| {
        ReleaseToQueues(PutSlot(s, c, k, Some(victim.value.(local := None))), victim.value.pool,
                        victim.value.local.value);
      }
    }
  }

  lemma OtherQueues(s: State, a: nat, pc: Pc, choice: Choice)
    requires a < |s.pcs| && Steps(s, pc, choice)
    requires !pc.Publishing? && !pc.Popping? && !pc.Evicting? && !pc.Releasing? && !pc.Exiting?
    ensures Step(s, a, pc, choice).pools == s.pools
  {
  }

  // ------------------------------------------------------------ the log

  /** The boundary a label's step is due to mark, if any. */
  function Due(s: State, l: Label): Option<(Kind, nat)>
    requires Enabled(s, l)
  {
    match l.action
    case Enter(id) => if s.polls && s.live[id].track.Some? then Some((PollBegin, s.live[id].track.value)) else None
    case ExitSpan(id) => if s.polls && s.live[id].track.Some? then Some((PollEnd, s.live[id].track.value)) else None
    case Advance =>
      (match s.pcs[l.actor]
       case Beginning(_, _, u) => Some((LifeBegin, u))
       case Ending(_, _, _, u) => Some((LifeEnd, u))
       case Closing(_, _, u) => if l.choice.context.None? then Some((LifeEnd, u)) else None
       case _ => None)
    case _ => None
  }

  /** Whether the callback has a context to write the boundary with. */
  predicate CanWrite(s: State, l: Label)
    requires Enabled(s, l)
  {
    if l.action.Advance? then ContextOf(s.pcs[l.actor]).Some? else l.choice.context.Some?
  }

  /** A step marks the one boundary due, at its own clock value, written exactly if it has a context. */
  lemma MarksAreDue(s: State, l: Label)
    requires Enabled(s, l)
    ensures var log' := Apply(s, l).log;
            match Due(s, l)
            case None => log' == s.log
            case Some((kind, u)) => log' == s.log + [Mark(kind, u, l.choice.time, CanWrite(s, l))]
  {
    if l.action.Advance? {
      var pc := s.pcs[l.actor];
      if Inner(pc) {
        InnerStepsWithin(s, l.actor, pc, l.choice);
      }
    }
  }

  // ------------------------------------------------------------ the history of a run

  /** A span's name, and the enclosing span it was created under, if that had state. */
  datatype Birth = Birth(address: nat, length: nat, enclosing: Option<nat>)

  /**
   A run's births, the spans created and not closed yet, the contexts whose thread has
   exited, and how often each has replaced a slot.
   */
  datatype History =
    History(s: State, births: map<nat, Birth>, open: set<nat>, exited: set<nat>, turns: map<nat, nat>)

  function Begin(actors: nat, polls: bool): History {
    History(Initial(actors, polls), map[], {}, {}, map[])
  }

  function Turns(h: History, c: nat): nat {
    if c in h.turns then h.turns[c] else 0
  }

  function Recall(h: History, l: Label): History
    requires Enabled(h.s, l)
  {
    var s', pc := Apply(h.s, l), h.s.pcs[l.actor];
    match l.action
    case NewSpan(id, address, length, parent) =>
      var enclosing := if parent.Some? && parent.value in h.s.live then parent else None;
      h.(s := s', births := h.births[id := Birth(address, length, enclosing)], open := h.open + {id})
    case Close(id) => h.(s := s', open := h.open - {id})
    case ExitThread(c) => h.(s := s', exited := h.exited + {c})
    case Advance =>
      if pc.Evicting? then h.(s := s', turns := h.turns[pc.context := Turns(h, pc.context) + 1]) else h.(s := s')
    case _ => h.(s := s')
  }

  function RunRecalled(h: History, labels: seq<Label>): History
    decreases |labels|
  {
    if labels == [] || !Enabled(h.s, labels[0]) then h else RunRecalled(Recall(h, labels[0]), labels[1..])
  }

  lemma {:induction false} RecallsTheRun(h: History, labels: seq<Label>)
    ensures RunRecalled(h, labels).s == Run(h.s, labels)
    decreases |labels|
  {
    if labels != [] && Enabled(h.s, labels[0]) {
      RecallsTheRun(Recall(h, labels[0]), labels[1..]);
    }
  }

  // ------------------------------------------------------------ names

  predicate Named(births: map<nat, Birth>, id: nat, key: Key, parent: Option<nat>) {
    id in births && births[id] == Birth(key.address, key.length, parent)
  }

  /** A span's key carries its own name. */
  ghost predicate NamesOk(h: History) {
    && (forall a: nat :: a < |h.s.pcs| && Creating(h.s.pcs[a]).Some? ==>
          Named(h.births, Creating(h.s.pcs[a]).value.0, Creating(h.s.pcs[a]).value.1, Creating(h.s.pcs[a]).value.2))
    && (forall id :: id in h.s.live ==> Named(h.births, id, h.s.live[id].key, h.s.live[id].parent))
  }

  /** What a step may do to spans and to those being created. */
  predicate Continues(s: State, s': State, a: nat) {
    && a < |s.pcs| == |s'.pcs| && s'.pcs == s.pcs[a := s'.pcs[a]]
    && (Creating(s'.pcs[a]).Some? ==> Creating(s'.pcs[a]) == Creating(s.pcs[a]))
    && forall id :: id in s'.live ==>
         || (id in s.live && s'.live[id].key == s.live[id].key && s'.live[id].parent == s.live[id].parent)
         || Creating(s.pcs[a]) == Some((id, s'.live[id].key, s'.live[id].parent))
  }

  lemma AdvanceContinues(s: State, l: Label)
    requires Enabled(s, l) && l.action.Advance?
    ensures Continues(s, Apply(s, l), l.actor)
  {
    if Inner(s.pcs[l.actor]) {
      InnerContinues(s, l.actor, s.pcs[l.actor], l.choice);
    } else {
      OuterContinues(s, l.actor, s.pcs[l.actor], l.choice);
    }
  }

  lemma InnerContinues(s: State, a: nat, pc: Pc, choice: Choice)
    requires a < |s.pcs| && s.pcs[a] == pc && Steps(s, pc, choice) && Inner(pc)
    ensures Continues(s, Step(s, a, pc, choice), a)
  {
    InnerStepsWithin(s, a, pc, choice);
    assert MovesOnly(s, Step(s, a, pc, choice), a);
  }

  lemma OuterContinues(s: State, a: nat, pc: Pc, choice: Choice)
    requires a < |s.pcs| && s.pcs[a] == pc && Steps(s, pc, choice) && !Inner(pc)
    ensures Continues(s, Step(s, a, pc, choice), a)
  {
  }

  lemma OtherContinues(s: State, l: Label)
    requires Enabled(s, l) && !l.action.Advance? && !l.action.NewSpan?
    ensures Continues(s, Apply(s, l), l.actor)
  {
  }

  lemma ContinuedNames(h: History, h': History, a: nat)
    requires NamesOk(h) && Continues(h.s, h'.s, a) && h'.births == h.births
    ensures NamesOk(h')
  {
    forall b: nat | b < |h'.s.pcs| && Creating(h'.s.pcs[b]).Some?
      ensures Creating(h'.s.pcs[b]) == Creating(h.s.pcs[b])
    {
    }
  }

  /** A new span takes its name, and disturbs no other's: ids are unique among the living. */
  lemma BornNames(h: History, l: Label)
    requires NamesOk(h) && Enabled(h.s, l) && l.action.NewSpan?
    ensures NamesOk(Recall(h, l))
  {
    var s', id := Apply(h.s, l), l.action.span;
    assert Creating(s'.pcs[l.actor]).Some? && Creating(s'.pcs[l.actor]).value.0 == id;
    forall b: nat | b < |s'.pcs| && b != l.actor && Creating(s'.pcs[b]).Some?
      ensures Creating(s'.pcs[b]) == Creating(h.s.pcs[b]) && Creating(h.s.pcs[b]).value.0 != id
    {
      assert !IsCreating(h.s.pcs[b], id);
    }
  }

  lemma NamesKept(h: History, l: Label)
    requires NamesOk(h) && Enabled(h.s, l)
    ensures NamesOk(Recall(h, l))
  {
    if l.action.NewSpan? {
      BornNames(h, l);
    } else if l.action.Advance? {
      AdvanceContinues(h.s, l);
      ContinuedNames(h, Recall(h, l), l.actor);
    } else {
      OtherContinues(h.s, l);
      ContinuedNames(h, Recall(h, l), l.actor);
    }
  }

  // ------------------------------------------------------------ spans created and not closed

  /** A span has state, or is being created, from its creation to its close. */
  ghost predicate OpenOk(h: History) {
    forall id :: id in h.open <==> id in h.s.live || Created(h.s, id)
  }

  ghost predicate Created(s: State, id: nat) {
    exists a: nat :: a < |s.pcs| && IsCreating(s.pcs[a], id)
  }

  /** No span is lost by the step, and none appears. */
  predicate Lasts(s: State, s': State, a: nat) {
    && a < |s.pcs| == |s'.pcs| && s'.pcs == s.pcs[a := s'.pcs[a]] && s.live.Keys <= s'.live.Keys
    && (Creating(s.pcs[a]).Some? ==>
          Creating(s'.pcs[a]) == Creating(s.pcs[a]) || Creating(s.pcs[a]).value.0 in s'.live)
    && (Creating(s'.pcs[a]).Some? ==> Creating(s'.pcs[a]) == Creating(s.pcs[a]))
    && forall id :: id in s'.live ==> id in s.live || IsCreating(s.pcs[a], id)
  }

  lemma AdvanceLasts(s: State, l: Label)
    requires Enabled(s, l) && l.action.Advance?
    ensures Lasts(s, Apply(s, l), l.actor)
  {
    if Inner(s.pcs[l.actor]) {
      InnerStepsWithin(s, l.actor, s.pcs[l.actor], l.choice);
      assert MovesOnly(s, Step(s, l.actor, s.pcs[l.actor], l.choice), l.actor);
    } else {
      OuterLasts(s, l.actor, s.pcs[l.actor], l.choice);
    }
  }

  lemma OuterLasts(s: State, a: nat, pc: Pc, choice: Choice)
    requires a < |s.pcs| && s.pcs[a] == pc && Steps(s, pc, choice) && !Inner(pc)
    ensures Lasts(s, Step(s, a, pc, choice), a)
  {
  }

  lemma SideLasts(s: State, l: Label)
    requires Enabled(s, l) && !l.action.Advance? && !l.action.NewSpan? && !l.action.Close?
    ensures Lasts(s, Apply(s, l), l.actor)
  {
  }

  lemma LastingOpen(h: History, h': History, a: nat)
    requires OpenOk(h) && Lasts(h.s, h'.s, a) && h'.open == h.open
    ensures OpenOk(h')
  {
    forall id | id in h.s.live || Created(h.s, id)
      ensures id in h'.s.live || Created(h'.s, id)
    {
      if Created(h.s, id) {
        var b: nat :| b < |h.s.pcs| && IsCreating(h.s.pcs[b], id);
        assert b < |h'.s.pcs| && (IsCreating(h'.s.pcs[b], id) || id in h'.s.live);
      }
    }
    forall id | id in h'.s.live || Created(h'.s, id)
      ensures id in h.s.live || Created(h.s, id)
    {
      if Created(h'.s, id) {
        var b: nat :| b < |h'.s.pcs| && IsCreating(h'.s.pcs[b], id);
        assert IsCreating(h.s.pcs[b], id);
      } else if id !in h.s.live {
        assert IsCreating(h.s.pcs[a], id);
      }
    }
  }

  lemma NewOpen(h: History, l: Label)
    requires OpenOk(h) && Enabled(h.s, l) && l.action.NewSpan?
    ensures OpenOk(Recall(h, l))
  {
    var h' := Recall(h, l);
    assert IsCreating(h'.s.pcs[l.actor], l.action.span);
    forall id | id != l.action.span
      ensures Created(h'.s, id) <==> Created(h.s, id)
    {
      if Created(h.s, id) {
        var b: nat :| b < |h.s.pcs| && IsCreating(h.s.pcs[b], id);
        assert IsCreating(h'.s.pcs[b], id);
      }
      if Created(h'.s, id) {
        var b: nat :| b < |h'.s.pcs| && IsCreating(h'.s.pcs[b], id);
        assert IsCreating(h.s.pcs[b], id);
      }
    }
  }

  lemma ClosedOpen(h: History, l: Label)
    requires OpenOk(h) && CreatingOk(h.s) && Enabled(h.s, l) && l.action.Close?
    ensures OpenOk(Recall(h, l))
  {
    TakeCloses(h.s, l.actor, l.action.span);
    SameCreated(h.s, Apply(h.s, l), l.actor);
    OneClosed(h, Recall(h, l), l.action.span);
  }

  lemma TakeCloses(s: State, a: nat, id: nat)
    requires a < |s.pcs| && s.pcs[a] == Idle && id in s.live
    ensures var s' := TakeSpan(s, a, id);
            && s'.live == s.live - {id} && |s'.pcs| == |s.pcs| && s'.pcs == s.pcs[a := s'.pcs[a]]
            && Creating(s'.pcs[a]) == None
  {
  }

  lemma SameCreated(s: State, s': State, a: nat)
    requires a < |s.pcs| == |s'.pcs| && s'.pcs == s.pcs[a := s'.pcs[a]]
    requires Creating(s.pcs[a]) == None && Creating(s'.pcs[a]) == None
    ensures forall id :: Created(s', id) <==> Created(s, id)
  {
    forall b: nat, id: nat | b < |s.pcs|
      ensures IsCreating(s'.pcs[b], id) <==> IsCreating(s.pcs[b], id)
    {
      if b != a {
        assert s'.pcs[b] == s.pcs[b];
      }
    }
  }

  lemma OneClosed(h: History, h': History, id: nat)
    requires OpenOk(h) && CreatingOk(h.s) && id in h.s.live && h'.s.live == h.s.live - {id} && h'.open == h.open - {id}
    requires forall other :: Created(h'.s, other) <==> Created(h.s, other)
    ensures OpenOk(h')
  {
    assert !Created(h.s, id);
  }

  lemma OpenKept(h: History, l: Label)
    requires OpenOk(h) && CreatingOk(h.s) && Enabled(h.s, l)
    ensures OpenOk(Recall(h, l))
  {
    match l.action
    case NewSpan(_, _, _, _) => NewOpen(h, l);
    case Close(_) => ClosedOpen(h, l);
    case Advance =>
      AdvanceLasts(h.s, l);
      LastingOpen(h, Recall(h, l), l.actor);
    case _ =>
      SideLasts(h.s, l);
      LastingOpen(h, Recall(h, l), l.actor);
  }

  // ------------------------------------------------------------ spans without a pool

  /** A callback with a track, or about to make one, that belongs to no pool. */
  predicate Unpooled(pc: Pc) {
    OwnerOf(pc) == None && (pc.Opening? || pc.Beginning? || pc.Storing? || pc.Closing? || pc.Ending? || pc.Releasing?)
  }

  /** Only when all the keys there may be have pools does a span go without one. */
  ghost predicate FullOk(s: State) {
    && (forall a: nat :: a < |s.pcs| && Unpooled(s.pcs[a]) ==> s.count >= MAX_REUSABLE_KEYS)
    && (forall id :: id in s.live && s.live[id].track.Some? && s.live[id].pool.None? ==> s.count >= MAX_REUSABLE_KEYS)
  }

  predicate StillFull(s: State, s': State, a: nat) {
    && a < |s.pcs| == |s'.pcs| && s'.pcs == s.pcs[a := s'.pcs[a]] && s.count <= s'.count
    && (Unpooled(s'.pcs[a]) ==> Unpooled(s.pcs[a]) || s'.count >= MAX_REUSABLE_KEYS
                                || exists id :: id in s.live && s.live[id].track.Some? && s.live[id].pool.None?)
    && forall id :: id in s'.live && s'.live[id].track.Some? && s'.live[id].pool.None? ==>
         || (id in s.live && s.live[id].track.Some? && s.live[id].pool.None?)
         || Unpooled(s.pcs[a])
  }

  lemma FullKept(s: State, s': State, a: nat)
    requires FullOk(s) && StillFull(s, s', a)
    ensures FullOk(s')
  {
    forall b: nat | b < |s'.pcs| && Unpooled(s'.pcs[b])
      ensures s'.count >= MAX_REUSABLE_KEYS
    {
      if b != a {
        assert s'.pcs[b] == s.pcs[b];
      }
    }
  }

  lemma ClaimFull(s: State, a: nat, pc: Pc, choice: Choice)
    requires a < |s.pcs| && s.pcs[a] == pc && Steps(s, pc, choice) && (pc.Scanning? || pc.LookingUp? || pc.Popping?)
    ensures StillFull(s, Step(s, a, pc, choice), a)
  {
    InnerStepsWithin(s, a, pc, choice);
    StepKeepsPools(s, a, pc, choice);
  }

  lemma EntryFull(s: State, a: nat, pc: Pc, choice: Choice)
    requires a < |s.pcs| && s.pcs[a] == pc && Steps(s, pc, choice) && (pc.Entering? || pc.Reserving? || pc.Publishing?)
    ensures StillFull(s, Step(s, a, pc, choice), a)
  {
  }

  lemma ReplaceFull(s: State, a: nat, pc: Pc, choice: Choice)
    requires a < |s.pcs| && s.pcs[a] == pc && Steps(s, pc, choice) && (pc.Evicting? || pc.Installing?)
    ensures StillFull(s, Step(s, a, pc, choice), a)
  {
    InnerStepsWithin(s, a, pc, choice);
    StepKeepsPools(s, a, pc, choice);
  }

  lemma EndFull(s: State, a: nat, pc: Pc, choice: Choice)
    requires a < |s.pcs| && s.pcs[a] == pc && Steps(s, pc, choice) && (pc.Releasing? || pc.Exiting?)
    ensures StillFull(s, Step(s, a, pc, choice), a)
  {
    InnerStepsWithin(s, a, pc, choice);
    StepKeepsPools(s, a, pc, choice);
  }

  lemma InnerFull(s: State, a: nat, pc: Pc, choice: Choice)
    requires a < |s.pcs| && s.pcs[a] == pc && Steps(s, pc, choice) && Inner(pc)
    ensures StillFull(s, Step(s, a, pc, choice), a)
  {
    if pc.Scanning? || pc.LookingUp? || pc.Popping? {
      ClaimFull(s, a, pc, choice);
    } else if pc.Entering? || pc.Reserving? || pc.Publishing? {
      EntryFull(s, a, pc, choice);
    } else if pc.Evicting? || pc.Installing? {
      ReplaceFull(s, a, pc, choice);
    } else {
      EndFull(s, a, pc, choice);
    }
  }

  lemma OuterFull(s: State, a: nat, pc: Pc, choice: Choice)
    requires a < |s.pcs| && s.pcs[a] == pc && Steps(s, pc, choice) && !Inner(pc)
    ensures StillFull(s, Step(s, a, pc, choice), a)
  {
    StepKeepsPools(s, a, pc, choice);
  }

  lemma TakeFull(s: State, a: nat, id: nat)
    requires a < |s.pcs| && s.pcs[a] == Idle && id in s.live
    ensures StillFull(s, TakeSpan(s, a, id), a)
  {
  }

  lemma StartFull(s: State, l: Label)
    requires Enabled(s, l) && !l.action.Advance? && !l.action.Close?
    ensures StillFull(s, Apply(s, l), l.actor)
  {
  }

  lemma StepKeepsFull(s: State, l: Label)
    requires FullOk(s) && Enabled(s, l)
    ensures FullOk(Apply(s, l))
  {
    var a := l.actor;
    if l.action.Close? {
      TakeFull(s, a, l.action.span);
    } else if !l.action.Advance? {
      StartFull(s, l);
    } else if Inner(s.pcs[a]) {
      InnerFull(s, a, s.pcs[a], l.choice);
    } else {
      OuterFull(s, a, s.pcs[a], l.choice);
    }
    FullKept(s, Apply(s, l), a);
  }
}
