/**
 Span tracks as a shared resource: every callback, on every thread, as a sequence of
 atomic steps over the live spans, the thread contexts' caches and the shared pools.
 A uuid is named by its position in allocation order; module `Ids` shows that distinct
 positions are distinct uuids until the 64-bit counter has gone all the way round.
 */
module TrackMachine {
  import opened Prelude

  const CACHE_SLOTS: nat := 8
  const POOL_CAPACITY: nat := 4
  const MAX_REUSABLE_KEYS: nat := 8192

  /** A static string is determined by its address and length. */
  datatype Key = Key(address: nat, length: nat, parent: nat)

  datatype Slot = Slot(key: Key, pool: nat, local: Option<nat>)

  /** A thread's context. `borrower` is the callback holding it, if any. */
  datatype Context = Context(slots: seq<Option<Slot>>, next: nat, borrower: Option<nat>)

  datatype Pool = Pool(key: Key, tracks: seq<nat>)

  /**
   A live span's state. `key`, `parent` (the enclosing span, if it has state) and
   `entered` (how often it is entered and not yet exited) are history.
   */
  datatype Span = Span(pool: Option<nat>, track: Option<nat>, key: Key, parent: Option<nat>, entered: nat)

  /** Where a uuid is. `Fixed` are the process, thread and counter tracks'. */
  datatype Place =
    | Fixed
    | Live(span: nat)
    | Hand(actor: nat)
    | Cached(context: nat, slot: nat)
    | Pooled(pool: nat)
    | Retired

  datatype Kind = LifeBegin | LifeEnd | PollBegin | PollEnd

  /** A slice boundary due on a track; it is skipped when the context cannot be acquired. */
  datatype Mark = Mark(kind: Kind, track: nat, time: nat, emitted: bool)

  /** A span being created by a callback that holds context `context`. */
  datatype Work = Work(span: nat, key: Key, parent: Option<nat>, context: nat)

  datatype Purpose = ForClaim(span: nat, parent: Option<nat>) | ForRelease

  datatype Pc =
    | Idle
    | Keyed(span: nat, key: Key, parent: Option<nat>)
    | Scanning(work: Work)
    | LookingUp(work: Work)
    | Entering(work: Work)
    | Reserving(work: Work)
    | Publishing(work: Work)
    | Popping(work: Work, pool: nat, cached: bool)
    | Evicting(context: nat, pool: nat, key: Key, hand: Option<nat>, purpose: Purpose)
    | Installing(context: nat, slot: nat, pool: nat, key: Key, hand: Option<nat>, purpose: Purpose)
    | Opening(work: Work, owner: Option<nat>, hand: Option<nat>)
    | Beginning(work: Work, owner: Option<nat>, track: nat)
    | Storing(work: Work, owner: Option<nat>, track: nat)
    | Closing(key: Key, owner: Option<nat>, track: nat)
    | Ending(context: nat, key: Key, owner: Option<nat>, track: nat)
    | Releasing(held: Option<nat>, key: Key, owner: Option<nat>, track: nat)
    | Exiting(context: nat, slot: nat)

  /**
   `keys` are the described name and parent of each uuid, `locks` the pool map's entry
   locks, and `polls` says whether poll slices are configured.
   */
  datatype State = State(
    pcs: seq<Pc>, contexts: seq<Context>, pools: seq<Pool>, poolOf: map<Key, nat>, count: nat, locks: map<Key, nat>,
    live: map<nat, Span>, places: seq<Place>, keys: seq<Option<Key>>, process: Option<nat>, log: seq<Mark>, polls: bool)

  /** The context a callback acquires, or none; and the clock value it reads. */
  datatype Choice = Choice(context: Option<nat>, time: nat)

  datatype Action =
    | NewContext
    | AllocateOther
    | UseProcess
    | NewSpan(span: nat, address: nat, length: nat, parent: Option<nat>)
    | Enter(span: nat)
    | ExitSpan(span: nat)
    | Close(span: nat)
    | ExitThread(context: nat)
    | Advance

  datatype Label = Label(actor: nat, action: Action, choice: Choice)

  function Initial(actors: nat, polls: bool): State {
    State(seq(actors, i requires 0 <= i < actors => Idle), [], [], map[], 0, map[], map[], [], [], None, [], polls)
  }

  // ------------------------------------------------------------ parts of steps

  predicate SamePoolKeys(x: seq<Pool>, y: seq<Pool>) {
    |x| == |y| && forall p: nat :: p < |x| ==> x[p].key == y[p].key
  }

  /** The callback is inside a map entry. */
  predicate Locking(pc: Pc) {
    pc.Reserving? || pc.Publishing?
  }

  predicate MovesOnly(s: State, s': State, a: nat) {
    a < |s.pcs| == |s'.pcs| && s'.pcs == s.pcs[a := s'.pcs[a]]
  }

  /** The spans, descriptors and slices are left alone. */
  predicate Within(s: State, s': State) {
    s'.live == s.live && s'.process == s.process && s'.log == s.log && s'.keys == s.keys && s'.polls == s.polls
  }

  /** A callback between beginning and ending its track's lifetime slice. */
  function Alive(pc: Pc): Option<nat> {
    if pc.Storing? || pc.Closing? || pc.Ending? then HandOf(pc) else None
  }

  /** The map of pools, its locks and its count are left alone. */
  predicate KeepsPools(s: State, s': State) {
    s'.poolOf == s.poolOf && s'.locks == s.locks && s'.count == s.count && SamePoolKeys(s.pools, s'.pools)
  }

  function Go(s: State, a: nat, pc: Pc): State
    requires a < |s.pcs|
  {
    s.(pcs := s.pcs[a := pc])
  }

  predicate CanAcquire(s: State, choice: Choice) {
    choice.context.Some? ==> choice.context.value < |s.contexts| && s.contexts[choice.context.value].borrower == None
  }

  function Borrow(s: State, c: nat, borrower: Option<nat>): State
    requires c < |s.contexts|
  {
    s.(contexts := s.contexts[c := s.contexts[c].(borrower := borrower)])
  }

  function PutSlot(s: State, c: nat, k: nat, slot: Option<Slot>): State
    requires c < |s.contexts| && k < |s.contexts[c].slots|
  {
    s.(contexts := s.contexts[c := s.contexts[c].(slots := s.contexts[c].slots[k := slot])])
  }

  function Allocate(s: State, place: Place, key: Option<Key>): State {
    s.(places := s.places + [place], keys := s.keys + [key])
  }

  /** `process_track_uuid`: whoever needs the process track first allocates it. */
  function WithProcess(s: State): (s': State)
    ensures s'.process.Some? && (s.process.Some? ==> s' == s)
    ensures s'.pcs == s.pcs && s'.contexts == s.contexts && s'.live == s.live && s'.polls == s.polls
    ensures KeepsPools(s, s')
  {
    if s.process.Some? then s else Allocate(s, Fixed, None).(process := Some(|s.places|))
  }

  /** `TrackPool::release`: queued if there is room, otherwise retired for good. */
  function ReleaseTo(s: State, p: nat, u: nat): (s': State)
    requires p < |s.pools| && u < |s.places|
    ensures KeepsPools(s, s')
    ensures Within(s, s') && s'.contexts == s.contexts && s'.pcs == s.pcs
  {
    if |s.pools[p].tracks| < POOL_CAPACITY then
      s.(pools := s.pools[p := s.pools[p].(tracks := s.pools[p].tracks + [u])], places := s.places[u := Pooled(p)])
    else Retire(s, u)
  }

  function Retire(s: State, u: nat): State
    requires u < |s.places|
  {
    s.(places := s.places[u := Retired])
  }

  function Note(s: State, kind: Kind, u: nat, time: nat, emitted: bool): State {
    s.(log := s.log + [Mark(kind, u, time, emitted)])
  }

  predicate HasKey(slot: Option<Slot>, key: Key) {
    slot.Some? && slot.value.key == key
  }

  predicate HasPool(slot: Option<Slot>, p: nat) {
    slot.Some? && slot.value.pool == p
  }

  function FindKey(slots: seq<Option<Slot>>, key: Key): (k: nat)
    ensures k <= |slots|
    ensures k < |slots| ==> HasKey(slots[k], key)
    ensures forall j: nat :: j < k ==> !HasKey(slots[j], key)
  {
    if slots == [] || HasKey(slots[0], key) then 0 else 1 + FindKey(slots[1..], key)
  }

  function FindPool(slots: seq<Option<Slot>>, p: nat): (k: nat)
    ensures k <= |slots|
    ensures k < |slots| ==> HasPool(slots[k], p)
    ensures forall j: nat :: j < k ==> !HasPool(slots[j], p)
  {
    if slots == [] || HasPool(slots[0], p) then 0 else 1 + FindPool(slots[1..], p)
  }

  /** A live span's track, or else the process track. */
  function TrackOf(live: map<nat, Span>, parent: Option<nat>): Option<nat> {
    if parent.Some? && parent.value in live then live[parent.value].track else None
  }

  // ------------------------------------------------------------ what a callback holds

  function ContextOf(pc: Pc): Option<nat> {
    match pc
    case Scanning(w) => Some(w.context)
    case LookingUp(w) => Some(w.context)
    case Entering(w) => Some(w.context)
    case Reserving(w) => Some(w.context)
    case Publishing(w) => Some(w.context)
    case Popping(w, _, _) => Some(w.context)
    case Evicting(c, _, _, _, _) => Some(c)
    case Installing(c, _, _, _, _, _) => Some(c)
    case Opening(w, _, _) => Some(w.context)
    case Beginning(w, _, _) => Some(w.context)
    case Storing(w, _, _) => Some(w.context)
    case Ending(c, _, _, _) => Some(c)
    case Releasing(c, _, _, _) => c
    case Exiting(c, _) => Some(c)
    case _ => None
  }

  /** The uuid a callback holds. */
  function HandOf(pc: Pc): Option<nat> {
    match pc
    case Evicting(_, _, _, hand, _) => hand
    case Installing(_, _, _, _, hand, _) => hand
    case Opening(_, _, hand) => hand
    case Beginning(_, _, u) => Some(u)
    case Storing(_, _, u) => Some(u)
    case Closing(_, _, u) => Some(u)
    case Ending(_, _, _, u) => Some(u)
    case Releasing(_, _, _, u) => Some(u)
    case _ => None
  }

  /** The span a callback is creating, with its key and enclosing span. */
  function Creating(pc: Pc): Option<(nat, Key, Option<nat>)> {
    match pc
    case Keyed(id, key, parent) => Some((id, key, parent))
    case Scanning(w) => Some((w.span, w.key, w.parent))
    case LookingUp(w) => Some((w.span, w.key, w.parent))
    case Entering(w) => Some((w.span, w.key, w.parent))
    case Reserving(w) => Some((w.span, w.key, w.parent))
    case Publishing(w) => Some((w.span, w.key, w.parent))
    case Popping(w, _, _) => Some((w.span, w.key, w.parent))
    case Evicting(_, _, key, _, purpose) => CreatingFor(purpose, key)
    case Installing(_, _, _, key, _, purpose) => CreatingFor(purpose, key)
    case Opening(w, _, _) => Some((w.span, w.key, w.parent))
    case Beginning(w, _, _) => Some((w.span, w.key, w.parent))
    case Storing(w, _, _) => Some((w.span, w.key, w.parent))
    case _ => None
  }

  function CreatingBy(w: Work): Option<(nat, Key, Option<nat>)> {
    Some((w.span, w.key, w.parent))
  }

  function CreatingFor(purpose: Purpose, key: Key): Option<(nat, Key, Option<nat>)> {
    match purpose
    case ForClaim(id, parent) => Some((id, key, parent))
    case ForRelease => None
  }

  // ------------------------------------------------------------ steps

  /** `on_new_span`: the key's parent is the enclosing span's track, or the process track. */
  function StartSpan(s: State, a: nat, id: nat, address: nat, length: nat, parent: Option<nat>): (s': State)
    requires a < |s.pcs|
    ensures MovesOnly(s, s', a) && KeepsPools(s, s') && !Locking(s'.pcs[a])
    ensures s'.polls == s.polls
  {
    var enclosing := if parent.Some? && parent.value in s.live then parent else None;
    var track := TrackOf(s.live, parent);
    if track.Some? then Go(s, a, Keyed(id, Key(address, length, track.value), enclosing))
    else
      var s1 := WithProcess(s);
      Go(s1, a, Keyed(id, Key(address, length, s1.process.value), enclosing))
  }

  function AcquireForSpan(s: State, a: nat, id: nat, key: Key, parent: Option<nat>, choice: Choice): (s': State)
    requires a < |s.pcs| && CanAcquire(s, choice)
    ensures MovesOnly(s, s', a) && KeepsPools(s, s') && !Locking(s'.pcs[a])
    ensures s'.polls == s.polls
  {
    match choice.context
    case Some(c) => Go(Borrow(s, c, Some(a)), a, Scanning(Work(id, key, parent, c)))
    case None => Go(s.(live := s.live[id := Span(None, None, key, parent, 0)]), a, Idle)
  }

  /** `claim_track`: the first cached slot with the key, its own uuid before the pool's. */
  function Scan(s: State, a: nat, w: Work): (s': State)
    requires a < |s.pcs| && w.context < |s.contexts|
    ensures MovesOnly(s, s', a) && KeepsPools(s, s') && (Locking(s'.pcs[a]) ==> Locking(s.pcs[a]))
    ensures Within(s, s') && (s' == s || (Alive(s'.pcs[a]) == None && Creating(s'.pcs[a]) == CreatingBy(w)))
  {
    var slots := s.contexts[w.context].slots;
    var k := FindKey(slots, w.key);
    if k == |slots| then Go(s, a, LookingUp(w))
    else if slots[k].value.local.None? then Go(s, a, Popping(w, slots[k].value.pool, true))
    else
      var u := slots[k].value.local.value;
      if u < |s.places| then
        Go(PutSlot(s, w.context, k, Some(slots[k].value.(local := None))).(places := s.places[u := Hand(a)]),
           a, Opening(w, Some(slots[k].value.pool), Some(u)))
      else s
  }

  function LookUp(s: State, a: nat, w: Work): (s': State)
    requires a < |s.pcs|
    ensures MovesOnly(s, s', a) && KeepsPools(s, s') && !Locking(s'.pcs[a])
    ensures Within(s, s') && Alive(s'.pcs[a]) == None && Creating(s'.pcs[a]) == CreatingBy(w)
  {
    if w.key in s.poolOf then Go(s, a, Popping(w, s.poolOf[w.key], false)) else Go(s, a, Entering(w))
  }

  function EnterPool(s: State, a: nat, w: Work): (s': State)
    requires a < |s.pcs|
    ensures MovesOnly(s, s', a)
    ensures Within(s, s') && Alive(s'.pcs[a]) == None && Creating(s'.pcs[a]) == CreatingBy(w)
  {
    if w.key in s.poolOf then Go(s, a, Popping(w, s.poolOf[w.key], false))
    else Go(s.(locks := s.locks[w.key := a]), a, Reserving(w))
  }

  function Reserve(s: State, a: nat, w: Work): (s': State)
    requires a < |s.pcs|
    ensures MovesOnly(s, s', a)
    ensures Within(s, s') && Alive(s'.pcs[a]) == None && Creating(s'.pcs[a]) == CreatingBy(w)
  {
    if s.count < MAX_REUSABLE_KEYS then Go(s.(count := s.count + 1), a, Publishing(w))
    else Go(s.(locks := s.locks - {w.key}), a, Opening(w, None, None))
  }

  function Publish(s: State, a: nat, w: Work): (s': State)
    requires a < |s.pcs|
    ensures MovesOnly(s, s', a)
    ensures Within(s, s') && Alive(s'.pcs[a]) == None && Creating(s'.pcs[a]) == CreatingBy(w)
  {
    var p := |s.pools|;
    Go(s.(pools := s.pools + [Pool(w.key, [])], poolOf := s.poolOf[w.key := p], locks := s.locks - {w.key}),
       a, Popping(w, p, false))
  }

  function Popped(w: Work, p: nat, cached: bool, hand: Option<nat>): Pc {
    if cached then Opening(w, Some(p), hand) else Evicting(w.context, p, w.key, hand, ForClaim(w.span, w.parent))
  }

  function Pop(s: State, a: nat, w: Work, p: nat, cached: bool): (s': State)
    requires a < |s.pcs| && p < |s.pools|
    ensures MovesOnly(s, s', a) && KeepsPools(s, s') && (Locking(s'.pcs[a]) ==> Locking(s.pcs[a]))
    ensures Within(s, s') && (s' == s || (Alive(s'.pcs[a]) == None && Creating(s'.pcs[a]) == CreatingBy(w)))
  {
    var tracks := s.pools[p].tracks;
    if tracks == [] then Go(s, a, Popped(w, p, cached, None))
    else if tracks[0] < |s.places| then
      Go(s.(pools := s.pools[p := s.pools[p].(tracks := tracks[1..])], places := s.places[tracks[0] := Hand(a)]),
         a, Popped(w, p, cached, Some(tracks[0])))
    else s
  }

  /** The round-robin position moves on and its slot is emptied. */
  function EmptyNext(s: State, c: nat): State
    requires c < |s.contexts| && s.contexts[c].next < |s.contexts[c].slots|
  {
    var k := s.contexts[c].next;
    s.(contexts :=
       s.contexts[c := s.contexts[c].(slots := s.contexts[c].slots[k := None], next := (k + 1) % CACHE_SLOTS)])
  }

  /** `replace_track_pool`, first half: the round-robin victim's uuid goes to its pool. */
  function Evict(s: State, a: nat, c: nat, p: nat, key: Key, hand: Option<nat>, purpose: Purpose): (s': State)
    requires a < |s.pcs| && c < |s.contexts| && s.contexts[c].next < |s.contexts[c].slots|
    ensures MovesOnly(s, s', a) && KeepsPools(s, s') && !Locking(s'.pcs[a])
    ensures Within(s, s') && Alive(s'.pcs[a]) == None && Creating(s'.pcs[a]) == CreatingFor(purpose, key)
  {
    var k := s.contexts[c].next;
    var victim := s.contexts[c].slots[k];
    var emptied := EmptyNext(s, c);
    var released :=
      if victim.Some? && victim.value.local.Some? && victim.value.pool < |s.pools|
         && victim.value.local.value < |s.places|
      then ReleaseTo(emptied, victim.value.pool, victim.value.local.value)
      else emptied;
    Go(released, a, Installing(c, k, p, key, hand, purpose))
  }

  /** Second half: the new pool takes the slot, with the released uuid if there is one. */
  function Install(s: State, a: nat, c: nat, k: nat, p: nat, key: Key, hand: Option<nat>, purpose: Purpose): (s': State)
    requires a < |s.pcs| && c < |s.contexts| && k < |s.contexts[c].slots|
    ensures MovesOnly(s, s', a) && KeepsPools(s, s') && !Locking(s'.pcs[a])
    ensures Within(s, s') && Alive(s'.pcs[a]) == None && Creating(s'.pcs[a]) == CreatingFor(purpose, key)
  {
    match purpose
    case ForClaim(id, parent) =>
        Go(PutSlot(s, c, k, Some(Slot(key, p, None))), a, Opening(Work(id, key, parent, c), Some(p), hand))
    case ForRelease =>
      var stored := PutSlot(s, c, k, Some(Slot(key, p, hand)));
      var placed := if hand.Some? && hand.value < |s.places| then
          stored.(places := s.places[hand.value := Cached(c, k)]) else stored;
      Go(Borrow(placed, c, None), a, Idle)
  }

  /** A span without a recycled track gets a new one, described at once. */
  function Open(s: State, a: nat, w: Work, pool: Option<nat>, hand: Option<nat>): (s': State)
    requires a < |s.pcs|
    ensures MovesOnly(s, s', a) && KeepsPools(s, s') && !Locking(s'.pcs[a])
    ensures s'.polls == s.polls
  {
    if hand.Some? then Go(s, a, Beginning(w, pool, hand.value))
    else Go(Allocate(s, Hand(a), Some(w.key)), a, Beginning(w, pool, |s.places|))
  }

  /** The span's state is published only after its lifetime slice has begun. */
  function Store(s: State, a: nat, w: Work, pool: Option<nat>, u: nat): (s': State)
    requires a < |s.pcs| && w.context < |s.contexts| && u < |s.places|
    ensures MovesOnly(s, s', a) && KeepsPools(s, s') && !Locking(s'.pcs[a])
    ensures s'.polls == s.polls
  {
    var stored := s.(live := s.live[w.span := Span(pool, Some(u), w.key, w.parent, 0)],
                     places := s.places[u := Live(w.span)]);
    Go(Borrow(stored, w.context, None), a, Idle)
  }

  /** `on_enter` and `on_exit`: a poll slice's boundary, missed without a context. */
  function Poll(s: State, id: nat, kind: Kind, choice: Choice): (s': State)
    requires id in s.live
    ensures KeepsPools(s, s')
    ensures s'.polls == s.polls
  {
    var span := s.live[id];
    var counted := s.(live := s.live[id := span.(entered := if kind == PollBegin then span.entered + 1
                                                            else if span.entered == 0 then 0 else span.entered - 1)]);
    if s.polls && span.track.Some? then Note(counted, kind, span.track.value, choice.time, choice.context.Some?)
       else counted
  }

  /** `on_close` first removes the state. */
  function TakeSpan(s: State, a: nat, id: nat): (s': State)
    requires a < |s.pcs| && id in s.live
    ensures KeepsPools(s, s')
    ensures s'.polls == s.polls
  {
    var span := s.live[id];
    var taken := s.(live := s.live - {id});
    if span.track.Some? && span.track.value < |s.places| then
      Go(taken.(places := s.places[span.track.value := Hand(a)]), a, Closing(span.key, span.pool, span.track.value))
    else taken
  }

  function AcquireForClose(s: State, a: nat, key: Key, pool: Option<nat>, u: nat, choice: Choice): (s': State)
    requires a < |s.pcs| && CanAcquire(s, choice)
    ensures MovesOnly(s, s', a) && KeepsPools(s, s') && !Locking(s'.pcs[a])
    ensures s'.polls == s.polls
  {
    match choice.context
    case Some(c) => Go(Borrow(s, c, Some(a)), a, Ending(c, key, pool, u))
    case None => Go(Note(s, LifeEnd, u, choice.time, false), a, Releasing(None, key, pool, u))
  }

  function FreeContext(s: State, context: Option<nat>): State
    requires context.Some? ==> context.value < |s.contexts|
  {
    if context.Some? then Borrow(s, context.value, None) else s
  }

  /** `release_track`, or the pool's own release when there is no context. */
  function Release(s: State, a: nat, context: Option<nat>, key: Key, pool: Option<nat>, u: nat): (s': State)
    requires a < |s.pcs| && u < |s.places| && (context.Some? ==> context.value < |s.contexts|)
    requires pool.Some? ==> pool.value < |s.pools|
    ensures MovesOnly(s, s', a) && KeepsPools(s, s') && !Locking(s'.pcs[a])
    ensures Within(s, s') && Alive(s'.pcs[a]) == None && Creating(s'.pcs[a]) == None
  {
    match (pool, context)
    case (None, _) => Go(FreeContext(Retire(s, u), context), a, Idle)
    case (Some(p), None) => Go(ReleaseTo(s, p, u), a, Idle)
    case (Some(p), Some(c)) => ReleaseCached(s, a, c, key, p, u)
  }

  /** Into the pool's slot if that has none, else to the pool, else by replacing a slot. */
  function ReleaseCached(s: State, a: nat, c: nat, key: Key, p: nat, u: nat): (s': State)
    requires a < |s.pcs| && u < |s.places| && c < |s.contexts| && p < |s.pools|
    ensures MovesOnly(s, s', a) && KeepsPools(s, s') && !Locking(s'.pcs[a])
    ensures Within(s, s') && Alive(s'.pcs[a]) == None && Creating(s'.pcs[a]) == None
  {
    var slots := s.contexts[c].slots;
    var k := FindPool(slots, p);
    if k == |slots| then Go(s, a, Evicting(c, p, key, Some(u), ForRelease))
    else if slots[k].value.local.None? then
      Go(Borrow(PutSlot(s, c, k, Some(slots[k].value.(local := Some(u)))).(places := s.places[u := Cached(c, k)]), c,
                None), a, Idle)
    else Go(Borrow(ReleaseTo(s, p, u), c, None), a, Idle)
  }

  /** Dropping a context releases its uuids, slot by slot; it is never borrowed again. */
  function DropSlot(s: State, a: nat, c: nat, k: nat): (s': State)
    requires a < |s.pcs| && c < |s.contexts|
    ensures MovesOnly(s, s', a) && KeepsPools(s, s') && !Locking(s'.pcs[a])
    ensures Within(s, s') && Alive(s'.pcs[a]) == None && Creating(s'.pcs[a]) == None
  {
    if k >= |s.contexts[c].slots| then Go(s, a, Idle)
    else
      var victim := s.contexts[c].slots[k];
      if victim.Some? && victim.value.local.Some? && victim.value.pool < |s.pools|
         && victim.value.local.value < |s.places| then
        Go(ReleaseTo(PutSlot(s, c, k, Some(victim.value.(local := None))), victim.value.pool, victim.value.local.value),
           a, Exiting(c, k + 1))
      else Go(s, a, Exiting(c, k + 1))
  }

  /**
   What the environment may do. The registry hands out span ids that are unique while live.
   `UseProcess` stands for the first packet of a sequence and for counter tracks. As it
   concerns nothing of the callback it is part of, it is a step of an idle actor.
   */
  predicate Enabled(s: State, l: Label) {
    && l.actor < |s.pcs|
    && var pc := s.pcs[l.actor];
       match l.action
       case NewContext => pc.Idle?
       case AllocateOther => pc.Idle?
       case UseProcess => pc.Idle?
       case NewSpan(id, _, _, _) => pc.Idle? && id !in s.live && forall b: nat :: b < |s.pcs| ==>
           !IsCreating(s.pcs[b], id)
       case Enter(id) => pc.Idle? && id in s.live && CanAcquire(s, l.choice)
       case ExitSpan(id) => pc.Idle? && id in s.live && CanAcquire(s, l.choice)
       case Close(id) => pc.Idle? && id in s.live
       case ExitThread(c) => pc.Idle? && c < |s.contexts| && s.contexts[c].borrower == None
       case Advance => Steps(s, pc, l.choice)
  }

  /** Actions that allocate the uuid of a track that is never recycled. */
  predicate Allocates(action: Action) {
    action.NewContext? || action.AllocateOther? || action.UseProcess?
  }

  predicate IsCreating(pc: Pc, id: nat) {
    Creating(pc).Some? && Creating(pc).value.0 == id
  }

  predicate Steps(s: State, pc: Pc, choice: Choice) {
    && (ContextOf(pc).Some? ==> ContextOf(pc).value < |s.contexts|)
    && (HandOf(pc).Some? ==> HandOf(pc).value < |s.places|)
    && match pc
       case Idle => false
       case Keyed(_, _, _) => CanAcquire(s, choice)
       case Closing(_, _, _) => CanAcquire(s, choice)
       case Entering(w) => w.key !in s.locks
       case Popping(_, p, _) => p < |s.pools|
       case Evicting(c, _, _, _, _) => s.contexts[c].next < |s.contexts[c].slots|
       case Installing(c, k, _, _, _, _) => k < |s.contexts[c].slots|
       case Releasing(_, _, pool, _) => pool.Some? ==> pool.value < |s.pools|
       case _ => true
  }

  function Apply(s: State, l: Label): State
    requires Enabled(s, l)
  {
    match l.action
    case NewContext =>
      var context := Context(seq(CACHE_SLOTS, i => None), 0, None);
      Allocate(s, Fixed, None).(contexts := s.contexts + [context])
    case AllocateOther => Allocate(s, Fixed, None)
    case UseProcess => WithProcess(s)
    case NewSpan(id, address, length, parent) => StartSpan(s, l.actor, id, address, length, parent)
    case Enter(id) => Poll(s, id, PollBegin, l.choice)
    case ExitSpan(id) => Poll(s, id, PollEnd, l.choice)
    case Close(id) => TakeSpan(s, l.actor, id)
    case ExitThread(c) => Go(Borrow(s, c, Some(l.actor)), l.actor, Exiting(c, 0))
    case Advance => Step(s, l.actor, s.pcs[l.actor], l.choice)
  }

  /** The steps that only move recycled tracks about. */
  predicate Inner(pc: Pc) {
    || pc.Scanning? || pc.LookingUp? || pc.Entering? || pc.Reserving? || pc.Publishing? || pc.Popping?
    || pc.Evicting? || pc.Installing? || pc.Releasing? || pc.Exiting?
  }

  function Step(s: State, a: nat, pc: Pc, choice: Choice): (s': State)
    requires a < |s.pcs| && Steps(s, pc, choice)
    ensures MovesOnly(s, s', a)
    ensures s'.polls == s.polls
  {
    match pc
    case Keyed(id, key, parent) => AcquireForSpan(s, a, id, key, parent, choice)
    case Scanning(w) => Scan(s, a, w)
    case LookingUp(w) => LookUp(s, a, w)
    case Entering(w) => EnterPool(s, a, w)
    case Reserving(w) => Reserve(s, a, w)
    case Publishing(w) => Publish(s, a, w)
    case Popping(w, p, cached) => Pop(s, a, w, p, cached)
    case Evicting(c, p, key, hand, purpose) => Evict(s, a, c, p, key, hand, purpose)
    case Installing(c, k, p, key, hand, purpose) => Install(s, a, c, k, p, key, hand, purpose)
    case Opening(w, pool, hand) => Open(s, a, w, pool, hand)
    case Beginning(w, pool, u) => Go(Note(s, LifeBegin, u, choice.time, true), a, Storing(w, pool, u))
    case Storing(w, pool, u) => Store(s, a, w, pool, u)
    case Closing(key, pool, u) => AcquireForClose(s, a, key, pool, u, choice)
    case Ending(c, key, pool, u) => Go(Note(s, LifeEnd, u, choice.time, true), a, Releasing(Some(c), key, pool, u))
    case Releasing(context, key, pool, u) => Release(s, a, context, key, pool, u)
    case Exiting(c, k) => DropSlot(s, a, c, k)
  }

  /** Only the steps inside a map entry touch the map of pools. */
  lemma StepKeepsPools(s: State, a: nat, pc: Pc, choice: Choice)
    requires a < |s.pcs| && Steps(s, pc, choice) && !pc.Entering? && !pc.Reserving? && !pc.Publishing?
    ensures var s' := Step(s, a, pc, choice);
            KeepsPools(s, s') && (Locking(s'.pcs[a]) ==> Locking(s.pcs[a]))
  {
  }

  lemma InnerStepsWithin(s: State, a: nat, pc: Pc, choice: Choice)
    requires a < |s.pcs| && Steps(s, pc, choice) && Inner(pc)
    ensures var s' := Step(s, a, pc, choice);
            Within(s, s') && (s' == s || (Alive(s'.pcs[a]) == None && Creating(s'.pcs[a]) == Creating(pc)))
  {
  }

  function Run(s: State, labels: seq<Label>): State
    decreases |labels|
  {
    if labels == [] || !Enabled(s, labels[0]) then s else Run(Apply(s, labels[0]), labels[1..])
  }
}
