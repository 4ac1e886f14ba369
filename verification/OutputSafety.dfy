/** No packet is lost, reordered or split, in every reachable state of the output protocol. */
module OutputSafety {
  import opened Prelude
  import opened Output

  // ------------------------------------------------------------ the invariant

  /** The heart: a buffer's packets, fated, queued and in hand, are all it produced, in order. */
  ghost predicate BufferOk(b: Buffer) {
    && b.claimed <= |b.queued|
    && b.queue == Concat(b.queued)
    && PacketsOf(b.fates) + b.queued[b.claimed..] + InHand(b) == b.produced
  }

  ghost predicate BuffersOk(s: State) {
    forall i :: 0 <= i < |s.buffers| ==> BufferOk(s.buffers[i])
  }

  /** A buffer's whole packets in the sink are its delivered packets. */
  ghost predicate SharesOk(s: State) {
    && (forall i: nat :: i < |s.buffers| ==> Share(s.shared.segments, i) == Delivered(s.buffers[i].fates))
    && (forall i: nat :: i >= |s.buffers| ==> Share(s.shared.segments, i) == [])
  }

  ghost predicate SinkOk(s: State) {
    s.shared.sink == Flatten(s.shared.segments) + Partial(s)
  }

  predicate HoldsConsumer(pc: Pc, i: nat) {
    pc.Draining? && pc.job.buffer == i && !pc.at.WantConsumer?
  }

  predicate HoldsWriter(pc: Pc) {
    || (pc.Draining? && !pc.at.WantConsumer? && !pc.at.WantWriter? && !pc.at.FreeingConsumer?)
    || pc.FlushWriting? || pc.FlushFreeing?
  }

  predicate HoldsError(pc: Pc) {
    pc.Recording? && !pc.recorder.WantError?
  }

  /** Each lock is held by exactly the actor whose program counter is inside it. */
  ghost predicate WriterOk(s: State) {
    && (forall a: nat :: a < |s.pcs| ==> (s.shared.writer == Some(a) <==> HoldsWriter(s.pcs[a])))
    && (s.shared.writer.Some? ==> s.shared.writer.value < |s.pcs|)
  }

  ghost predicate ErrorLockOk(s: State) {
    forall a: nat :: a < |s.pcs| ==> (s.shared.errorLock == Some(a) <==> HoldsError(s.pcs[a]))
  }

  ghost predicate FocusOk(s: State) {
    forall a: nat :: a < |s.pcs| && s.pcs[a].Draining? ==> s.pcs[a].job.buffer < |s.buffers|
  }

  ghost predicate HoldersOk(s: State) {
    && (forall a: nat, i: nat :: a < |s.pcs| && i < |s.buffers| ==>
          (s.buffers[i].holder == Some(a) <==> HoldsConsumer(s.pcs[a], i)))
    && (forall i: nat :: i < |s.buffers| && s.buffers[i].holder.Some? ==> s.buffers[i].holder.value < |s.pcs|)
  }

  /** The packet an actor has in hand, and the buffer it is meant for. */
  function Carried(pc: Pc): Option<(nat, Packet)> {
    match pc
    case Pushing(buffer, packet) => Some((buffer, packet))
    case Draining(job, at) =>
      if job.trailing.Some? && !at.FreeingWriter? && !at.FreeingConsumer? then
          Some((job.buffer, job.trailing.value)) else None
    case _ => None
  }

  /** A packet in flight is in its buffer's owner's hand, and nowhere else. */
  ghost predicate HandsOk(s: State) {
    && (forall a: nat :: a < |s.pcs| && Carried(s.pcs[a]).Some? ==>
          var (i, p) := Carried(s.pcs[a]).value;
          i < |s.buffers| && s.buffers[i].owner == a && s.buffers[i].inFlight == Some(p))
    && (forall i: nat :: i < |s.buffers| && s.buffers[i].inFlight.Some? ==>
          s.buffers[i].owner < |s.pcs| && Carried(s.pcs[s.buffers[i].owner]) == Some((i, s.buffers[i].inFlight.value)))
  }

  /** What a drain holding a buffer's consumer lock knows about its queue. */
  ghost predicate ChunkOk(b: Buffer, at: At) {
    match at
    case Checking(size, count) => b.claimed == 0 && ChunkIs(b, size, count)
    case WritingFirst(size, count) => b.claimed == 0 && ChunkIs(b, size, count)
    case WritingSecond(size, count, split) => b.claimed == 0 && ChunkIs(b, size, count) && split <= size
    case Committing(size, count, _) => b.claimed == count && ChunkIs(b, size, count)
    case _ => b.claimed == 0
  }

  ghost predicate ChunkIs(b: Buffer, size: nat, count: nat) {
    size <= |b.queue| && count <= |b.queued| && b.queue[..size] == Concat(b.queued[..count])
  }

  /** Only a drain holding the consumer lock has claims on a queue. */
  ghost predicate ChunksOk(s: State) {
    && (forall i: nat :: i < |s.buffers| && s.buffers[i].holder == None ==> s.buffers[i].claimed == 0)
    && (forall a: nat ::
          a < |s.pcs| && s.pcs[a].Draining? && s.pcs[a].job.buffer < |s.buffers| && !s.pcs[a].at.WantConsumer? ==>
          ChunkOk(s.buffers[s.pcs[a].job.buffer], s.pcs[a].at))
  }

  /** A drain with a trailing packet first takes the whole queue: the packet comes last. */
  predicate TakesAll(b: Buffer, at: At) {
    match at
    case Checking(_, count) => count == |b.queued|
    case WritingFirst(_, count) => count == |b.queued|
    case WritingSecond(_, count, _) => count == |b.queued|
    case Committing(_, count, _) => count == |b.queued|
    case CheckingTrailing(_) => b.queued == []
    case WritingTrailing => b.queued == []
    case _ => true
  }

  ghost predicate TrailingOk(s: State) {
    forall a: nat :: a < |s.pcs| && s.pcs[a].Draining? && s.pcs[a].job.buffer < |s.buffers|
                     && !s.pcs[a].at.WantConsumer? && Carried(s.pcs[a]).Some? ==>
                       TakesAll(s.buffers[s.pcs[a].job.buffer], s.pcs[a].at)
  }

  ghost predicate Locked(s: State) {
    WriterOk(s) && ErrorLockOk(s) && FocusOk(s) && HoldersOk(s)
  }

  ghost predicate Inv(s: State) {
    Locked(s) && BuffersOk(s) && HandsOk(s) && ChunksOk(s) && TrailingOk(s) && SharesOk(s) && SinkOk(s)
  }

  // ------------------------------------------------------------ locks

  predicate LockMove(lock: Option<nat>, actor: nat, held: bool, lock': Option<nat>, held': bool) {
    if held == held' then lock' == lock
    else if held' then lock == None && lock' == Some(actor)
    else lock' == None
  }

  predicate DrainCan(l: Local, split: nat, outcome: Outcome) {
    l.pc.Draining? && DrainEnabled(l.pc.job, l.pc.at, l.b, l.shared, split, outcome)
  }

  function Drained(actor: nat, l: Local, split: nat, outcome: Outcome): Local
    requires DrainCan(l, split, outcome)
  {
    Drain(actor, l.pc.job, l.pc.at, l.b, l.shared, split, outcome)
  }

  lemma DrainLocks(actor: nat, l: Local, split: nat, outcome: Outcome)
    requires DrainCan(l, split, outcome)
    ensures var l' := Drained(actor, l, split, outcome);
            && LockMove(l.shared.writer, actor, HoldsWriter(l.pc), l'.shared.writer, HoldsWriter(l'.pc))
            && LockMove(l.b.holder, actor, HoldsConsumer(l.pc, l.pc.job.buffer), l'.b.holder,
                        HoldsConsumer(l'.pc, l.pc.job.buffer))
            && l'.shared.errorLock == l.shared.errorLock && !HoldsError(l'.pc)
            && l'.b.owner == l.b.owner
            && (l'.pc.Draining? ==> l'.pc.job == l.pc.job)
  {
  }

  lemma AdvancedLocks(actor: nat, pc: Pc, shared: Shared, outcome: Outcome)
    requires Focus(pc).None? && !pc.Idle?
    requires pc.FlushWantWriter? ==> shared.writer == None
    requires pc.Recording? && pc.recorder.WantError? ==> shared.errorLock == None
    ensures var (pc', shared') := Advanced(actor, pc, shared, outcome);
            && LockMove(shared.writer, actor, HoldsWriter(pc), shared'.writer, HoldsWriter(pc'))
            && LockMove(shared.errorLock, actor, HoldsError(pc), shared'.errorLock, HoldsError(pc'))
            && (pc'.Draining? ==> pc'.at.WantConsumer?) && Carried(pc') == None
  {
  }

  lemma WriterKept(s: State, s': State, a: nat)
    requires WriterOk(s) && a < |s.pcs| == |s'.pcs| && s'.pcs == s.pcs[a := s'.pcs[a]]
    requires LockMove(s.shared.writer, a, HoldsWriter(s.pcs[a]), s'.shared.writer, HoldsWriter(s'.pcs[a]))
    ensures WriterOk(s')
  {
  }

  lemma ErrorLockKept(s: State, s': State, a: nat)
    requires ErrorLockOk(s) && a < |s.pcs| == |s'.pcs| && s'.pcs == s.pcs[a := s'.pcs[a]]
    requires LockMove(s.shared.errorLock, a, HoldsError(s.pcs[a]), s'.shared.errorLock, HoldsError(s'.pcs[a]))
    ensures ErrorLockOk(s')
  {
  }

  // ------------------------------------------------------------ one actor working on one buffer

  /** A buffer to which someone without its consumer lock did something. */
  ghost predicate Grown(b: Buffer, b': Buffer) {
    && b'.claimed == b.claimed && |b.queue| <= |b'.queue| && b'.queue[..|b.queue|] == b.queue
    && |b.queued| <= |b'.queued| && b'.queued[..|b.queued|] == b.queued
  }

  /** The step of `a` on buffer `i` leads from local state `l` to `l'`. */
  ghost predicate PutsOn(s: State, s': State, a: nat, i: nat, l: Local, l': Local) {
    && a < |s.pcs| && i < |s.buffers| && l == Local(s.pcs[a], s.buffers[i], s.shared) && s' == Put(s, a, i, l')
    && (l.pc.Draining? ==> l.pc.job.buffer == i) && (l'.pc.Draining? ==> l'.pc.job.buffer == i)
    && l'.b.owner == l.b.owner
  }

  ghost predicate HolderMove(a: nat, i: nat, l: Local, l': Local) {
    && LockMove(l.b.holder, a, HoldsConsumer(l.pc, i), l'.b.holder, HoldsConsumer(l'.pc, i))
    && (HoldsConsumer(l.pc, i) || HoldsConsumer(l'.pc, i) || Grown(l.b, l'.b))
  }

  lemma HoldersKept(s: State, s': State, a: nat, i: nat, l: Local, l': Local)
    requires HoldersOk(s) && FocusOk(s) && PutsOn(s, s', a, i, l, l') && HolderMove(a, i, l, l')
    ensures HoldersOk(s') && FocusOk(s')
  {
    forall c: nat, j: nat | c < |s.pcs| && j < |s.buffers|
      ensures s'.buffers[j].holder == Some(c) <==> HoldsConsumer(s'.pcs[c], j)
    {
      assert s.buffers[j].holder == Some(c) <==> HoldsConsumer(s.pcs[c], j);
      assert s.buffers[j].holder == Some(a) <==> HoldsConsumer(s.pcs[a], j);
    }
  }

  ghost predicate HandMove(a: nat, i: nat, l: Local, l': Local) {
    && (Carried(l.pc).Some? ==> Carried(l.pc).value.0 == i)
    && (Carried(l'.pc).Some? ==>
        Carried(l'.pc).value.0 == i && l.b.owner == a && l'.b.inFlight == Some(Carried(l'.pc).value.1))
    && (Carried(l'.pc).None? ==> l'.b.inFlight == if Carried(l.pc).Some? then None else l.b.inFlight)
  }

  lemma HandsKept(s: State, s': State, a: nat, i: nat, l: Local, l': Local)
    requires HandsOk(s) && PutsOn(s, s', a, i, l, l') && HandMove(a, i, l, l')
    ensures HandsOk(s')
  {
    forall j: nat | j < |s'.buffers| && s'.buffers[j].inFlight.Some?
      ensures s'.buffers[j].owner < |s'.pcs|
      ensures Carried(s'.pcs[s'.buffers[j].owner]) == Some((j, s'.buffers[j].inFlight.value))
    {
      if j != i || Carried(l'.pc).None? {
        assert s.buffers[j].inFlight.Some?;
      }
    }
  }

  ghost predicate ChunkMove(i: nat, l': Local) {
    && (HoldsConsumer(l'.pc, i) ==> ChunkOk(l'.b, l'.pc.at))
    && (l'.b.holder == None ==> l'.b.claimed == 0)
  }

  lemma GrownChunk(b: Buffer, b': Buffer, at: At)
    requires ChunkOk(b, at) && Grown(b, b')
    ensures ChunkOk(b', at)
  {
    if at.Checking? || at.WritingFirst? || at.WritingSecond? || at.Committing? {
      assert b'.queue[..at.size] == b.queue[..at.size];
      assert b'.queued[..at.count] == b.queued[..at.count];
    }
  }

  lemma ChunksKept(s: State, s': State, a: nat, i: nat, l: Local, l': Local)
    requires HoldersOk(s) && ChunksOk(s) && PutsOn(s, s', a, i, l, l') && HolderMove(a, i, l, l') && ChunkMove(i, l')
    ensures ChunksOk(s')
  {
    forall c: nat | c < |s'.pcs| && s'.pcs[c].Draining? && s'.pcs[c].job.buffer < |s'.buffers|
    && !s'.pcs[c].at.WantConsumer?
      ensures ChunkOk(s'.buffers[s'.pcs[c].job.buffer], s'.pcs[c].at)
    {
      if c == a {
        assert HoldsConsumer(l'.pc, i);
      } else if s'.pcs[c].job.buffer == i {
        assert HoldsConsumer(s.pcs[c], i) && s.buffers[i].holder == Some(c);
        assert s.buffers[i].holder == Some(a) <==> HoldsConsumer(s.pcs[a], i);
        GrownChunk(l.b, l'.b, s.pcs[c].at);
      }
    }
  }

  ghost predicate TakingMove(i: nat, l: Local, l': Local) {
    && (HoldsConsumer(l'.pc, i) && Carried(l'.pc).Some? ==> TakesAll(l'.b, l'.pc.at))
    && (HoldsConsumer(l.pc, i) || Carried(l.pc).Some? || l'.b.queued == l.b.queued)
  }

  /** Nobody pushes while a producer's overflowing packet is on its way. */
  lemma TrailingKept(s: State, s': State, a: nat, i: nat, l: Local, l': Local)
    requires HoldersOk(s) && HandsOk(s) && TrailingOk(s) && PutsOn(s, s', a, i, l, l') && TakingMove(i, l, l')
    requires Carried(l.pc).Some? ==> Carried(l.pc).value.0 == i
    ensures TrailingOk(s')
  {
    forall c: nat | c < |s'.pcs| && s'.pcs[c].Draining? && s'.pcs[c].job.buffer < |s'.buffers|
                    && !s'.pcs[c].at.WantConsumer? && Carried(s'.pcs[c]).Some?
      ensures TakesAll(s'.buffers[s'.pcs[c].job.buffer], s'.pcs[c].at)
    {
      if c == a {
        assert HoldsConsumer(l'.pc, i);
      } else if s'.pcs[c].job.buffer == i {
        assert HoldsConsumer(s.pcs[c], i) && s.buffers[i].holder == Some(c);
        assert s.buffers[i].holder == Some(a) <==> HoldsConsumer(s.pcs[a], i);
      }
    }
  }

  // ------------------------------------------------------------ the sink

  lemma {:induction false} ShareAppend(x: seq<Segment>, y: seq<Segment>, i: nat)
    ensures Share(x + y, i) == Share(x, i) + Share(y, i)
    decreases |y|
  {
    if y == [] {
      assert x + y == x;
    } else {
      var y' := y[..|y| - 1];
      assert (x + y)[..|x + y| - 1] == x + y';
      ShareAppend(x, y', i);
    }
  }

  lemma {:induction false} DeliveredAppend(x: seq<Fate>, y: seq<Fate>)
    ensures Delivered(x + y) == Delivered(x) + Delivered(y)
    decreases |y|
  {
    if y == [] {
      assert x + y == x;
    } else {
      var y' := y[..|y| - 1];
      assert (x + y)[..|x + y| - 1] == x + y';
      DeliveredAppend(x, y');
    }
  }

  lemma {:induction false} FlattenAppend(x: seq<Segment>, y: seq<Segment>)
    ensures Flatten(x + y) == Flatten(x) + Flatten(y)
    decreases |y|
  {
    if y == [] {
      assert x + y == x;
    } else {
      var y' := y[..|y| - 1];
      assert (x + y)[..|x + y| - 1] == x + y';
      FlattenAppend(x, y');
      assert Flatten(x + y) == Flatten(x + y') + Bytes(y[|y| - 1]) == Flatten(x) + (Flatten(y') + Bytes(y[|y| - 1]));
    }
  }

  lemma {:induction false} WholesOf(i: nat, packets: seq<Packet>)
    ensures Share(Wholes(i, packets), i) == packets
    ensures forall j: nat :: j != i ==> Share(Wholes(i, packets), j) == []
    ensures Flatten(Wholes(i, packets)) == Concat(packets)
    decreases |packets|
  {
    if packets != [] {
      var front, last := packets[..|packets| - 1], packets[|packets| - 1];
      assert Wholes(i, packets)[..|packets| - 1] == Wholes(i, front);
      WholesOf(i, front);
      assert packets == front + [last];
      ConcatPush(front, last);
    }
  }

  lemma {:induction false} DeliveredFates(packets: seq<Packet>, delivered: bool)
    ensures Delivered(Fates(packets, delivered)) == if delivered then packets else []
    ensures PacketsOf(Fates(packets, delivered)) == packets
    decreases |packets|
  {
    if packets != [] {
      var front, last := packets[..|packets| - 1], packets[|packets| - 1];
      assert Fates(packets, delivered)[..|packets| - 1] == Fates(front, delivered);
      DeliveredFates(front, delivered);
      assert packets == front + [last];
    }
  }

  /** A step adds segments of one buffer (or torn ones) and the fates they decide. */
  ghost predicate ShareMove(i: nat, l: Local, l': Local, segments: seq<Segment>, fates: seq<Fate>) {
    && l'.shared.segments == l.shared.segments + segments && l'.b.fates == l.b.fates + fates
    && Share(segments, i) == Delivered(fates) && (forall j: nat :: j != i ==> Share(segments, j) == [])
  }

  lemma SharesKept(s: State, s': State, a: nat, i: nat, l: Local, l': Local, segments: seq<Segment>, fates: seq<Fate>)
    requires SharesOk(s) && PutsOn(s, s', a, i, l, l') && ShareMove(i, l, l', segments, fates)
    ensures SharesOk(s')
  {
    DeliveredAppend(l.b.fates, fates);
    forall j: nat
      ensures Share(s'.shared.segments, j) == if j < |s'.buffers| then Delivered(s'.buffers[j].fates) else []
    {
      ShareAppend(s.shared.segments, segments, j);
    }
  }

  /** What a local state contributes to the sink between two slices. */
  function Between(l: Local): seq<byte> {
    if l.pc.Draining? && l.pc.at.WritingSecond? && l.pc.at.split <= |l.b.queue| then l.b.queue[..l.pc.at.split] else []
  }

  ghost predicate SinkMove(l: Local, l': Local) {
    if HoldsWriter(l.pc) || HoldsWriter(l'.pc) then
      l.shared.sink == Flatten(l.shared.segments) + Between(l) ==>
          l'.shared.sink == Flatten(l'.shared.segments) + Between(l')
    else l'.shared == l.shared && Grown(l.b, l'.b)
  }

  lemma SinkKept(s: State, s': State, a: nat, i: nat, l: Local, l': Local)
    requires WriterOk(s) && WriterOk(s') && HoldersOk(s) && ChunksOk(s) && FocusOk(s) && SinkOk(s)
    requires PutsOn(s, s', a, i, l, l') && SinkMove(l, l')
    requires LockMove(s.shared.writer, a, HoldsWriter(l.pc), s'.shared.writer, HoldsWriter(l'.pc))
    ensures SinkOk(s')
  {
    assert HoldsWriter(l.pc) ==> Partial(s) == Between(l);
    assert HoldsWriter(l'.pc) ==> Partial(s') == Between(l');
    if !HoldsWriter(l.pc) && !HoldsWriter(l'.pc) && s.shared.writer.Some? {
      var w := s.shared.writer.value;
      assert w != a && s'.pcs[w] == s.pcs[w];
      if s.pcs[w].Draining? {
        var j := s.pcs[w].job.buffer;
        assert ChunkOk(s.buffers[j], s.pcs[w].at);
        assert PartialOf(s'.pcs[w], s'.buffers) == PartialOf(s.pcs[w], s.buffers);
      }
    }
  }

  // ------------------------------------------------------------ the steps of a drain

  /** What the invariant says about one actor and the buffer it works on. */
  ghost predicate LocalOk(a: nat, i: nat, l: Local) {
    && BufferOk(l.b) && (l.b.holder == None ==> l.b.claimed == 0)
    && (l.pc.Draining? ==> l.pc.job.buffer == i)
    && (HoldsConsumer(l.pc, i) ==>
        l.b.holder.Some? && ChunkOk(l.b, l.pc.at) && (Carried(l.pc).Some? ==> TakesAll(l.b, l.pc.at)))
    && (Carried(l.pc).Some? ==>
        Carried(l.pc).value.0 == i && l.b.owner == a && l.b.inFlight == Some(Carried(l.pc).value.1))
  }

  /** Everything a step must do locally to keep the invariant, but for the locks. */
  ghost predicate LocalMove(a: nat, i: nat, l: Local, l': Local, segments: seq<Segment>, fates: seq<Fate>) {
    && BufferOk(l'.b) && HandMove(a, i, l, l') && ChunkMove(i, l') && TakingMove(i, l, l')
    && ShareMove(i, l, l', segments, fates) && SinkMove(l, l')
  }

  lemma NoSegments(l: Local, l': Local, i: nat)
    requires l'.shared.segments == l.shared.segments && l'.b.fates == l.b.fates
    ensures ShareMove(i, l, l', [], [])
  {
    assert l.shared.segments + [] == l.shared.segments && l.b.fates + [] == l.b.fates;
  }

  lemma QuietMoves(a: nat, i: nat, l: Local, split: nat, outcome: Outcome)
    requires DrainCan(l, split, outcome) && LocalOk(a, i, l)
    requires l.pc.at.WantConsumer? || l.pc.at.WantWriter? || l.pc.at.Reading? || l.pc.at.FreeingWriter?
             || l.pc.at.FreeingConsumer?
    ensures LocalMove(a, i, l, Drained(a, l, split, outcome), [], [])
  {
    var l' := Drained(a, l, split, outcome);
    NoSegments(l, l', i);
    assert l.b.queue[..|l.b.queue|] == l.b.queue && l.b.queued[..|l.b.queued|] == l.b.queued;
    EmptyQueue(l.b);
    assert l.pc.at.FreeingConsumer? ==> Carried(l'.pc) == None;
  }

  lemma EmptyQueue(b: Buffer)
    requires b.queue == Concat(b.queued)
    ensures b.queue == [] ==> b.queued == []
  {
    if b.queued != [] {
      assert |b.queue| >= |b.queued[0]| > 0;
    }
  }

  lemma SettledBuffer(b: Buffer, count: nat, delivered: bool)
    requires BufferOk(b) && b.claimed == 0 && count <= |b.queued|
    ensures BufferOk(Settle(b, count, delivered))
    ensures Settle(b, count, delivered).fates == b.fates + Fates(b.queued[..count], delivered)
    ensures Delivered(Fates(b.queued[..count], delivered)) == if delivered then b.queued[..count] else []
  {
    var b' := Settle(b, count, delivered);
    DeliveredFates(b.queued[..count], delivered);
    assert PacketsOf(b'.fates) == PacketsOf(b.fates) + b.queued[..count];
    assert b.queued == b.queued[..count] + b.queued[count..];
    assert PacketsOf(b'.fates) + b'.queued[count..] == PacketsOf(b.fates) + b.queued;
  }

  lemma CheckingMoves(a: nat, i: nat, l: Local, split: nat, outcome: Outcome) returns (fates: seq<Fate>)
    requires DrainCan(l, split, outcome) && LocalOk(a, i, l) && l.pc.at.Checking?
    ensures LocalMove(a, i, l, Drained(a, l, split, outcome), [], fates)
  {
    var l' := Drained(a, l, split, outcome);
    assert l.shared.segments + [] == l.shared.segments && l.b.fates + [] == l.b.fates;
    if l.shared.hasError {
      SettledBuffer(l.b, l.pc.at.count, false);
      fates := Fates(l.b.queued[..l.pc.at.count], false);
    } else {
      NoSegments(l, l', i);
      fates := [];
    }
  }

  lemma TornSegment(bytes: seq<byte>)
    ensures forall j: nat :: Share([Torn(bytes)], j) == []
    ensures Flatten([Torn(bytes)]) == bytes
  {
    assert [Torn(bytes)][..0] == [];
  }

  /** Writing completes the bytes already there to whole segments. */
  lemma SinkMoves(l: Local, l': Local, bytes: seq<byte>, segments: seq<Segment>)
    requires HoldsWriter(l.pc)
    requires l'.shared.sink == l.shared.sink + bytes && l'.shared.segments == l.shared.segments + segments
    requires Between(l) + bytes == Flatten(segments) + Between(l')
    ensures SinkMove(l, l')
  {
    FlattenAppend(l.shared.segments, segments);
    Reassociated(Flatten(l.shared.segments), Between(l), bytes, Flatten(segments), Between(l'));
  }

  lemma Reassociated(flat: seq<byte>, a: seq<byte>, b: seq<byte>, c: seq<byte>, d: seq<byte>)
    requires a + b == c + d
    ensures flat + a + b == flat + c + d
  {
    assert flat + a + b == flat + (a + b);
    assert flat + c + d == flat + (c + d);
  }

  /** A written or torn chunk is settled at once, and taken off the queue by the next step. */
  lemma SettlingMoves(a: nat, i: nat, l: Local, l': Local, delivered: bool, failed: Option<Error>)
    requires LocalOk(a, i, l) && HoldsConsumer(l.pc, i) && (l.pc.at.WritingFirst? || l.pc.at.WritingSecond?)
    requires l.pc.at.count <= |l.b.queued| && l'.b == Settle(l.b, l.pc.at.count, delivered)
    requires l'.pc == Draining(l.pc.job, Committing(l.pc.at.size, l.pc.at.count, failed))
    ensures HandMove(a, i, l, l') && ChunkMove(i, l') && TakingMove(i, l, l')
  {
  }

  lemma TearMoves(a: nat, i: nat, l: Local, from: nat, upTo: nat, e: Error)
    requires LocalOk(a, i, l) && HoldsConsumer(l.pc, i) && (l.pc.at.WritingFirst? || l.pc.at.WritingSecond?)
    requires from == |Between(l)| && from <= upTo <= |l.b.queue| && l.b.queue[..from] == Between(l)
    ensures LocalMove(a, i, l, Tear(l.pc.job, l.pc.at.size, l.pc.at.count, l.b, l.shared, from, upTo, e),
                      [Torn(l.b.queue[..upTo])], Fates(l.b.queued[..l.pc.at.count], false))
  {
    var count := l.pc.at.count;
    var l' := Tear(l.pc.job, l.pc.at.size, count, l.b, l.shared, from, upTo, e);
    SettledBuffer(l.b, count, false);
    SettlingMoves(a, i, l, l', false, Some(e));
    TornSegment(l.b.queue[..upTo]);
    TearSink(l, l', from, upTo);
  }

  lemma TearSink(l: Local, l': Local, from: nat, upTo: nat)
    requires HoldsWriter(l.pc) && from == |Between(l)| && from <= upTo <= |l.b.queue| && l.b.queue[..from] == Between(l)
    requires l'.shared.sink == l.shared.sink + l.b.queue[from..upTo] && Between(l') == []
    requires l'.shared.segments == l.shared.segments + [Torn(l.b.queue[..upTo])]
    ensures SinkMove(l, l')
  {
    TornSegment(l.b.queue[..upTo]);
    WrittenSink(l, l', from, upTo, [Torn(l.b.queue[..upTo])]);
  }

  /** The rest of a chunk reaches the sink as the bytes of these segments. */
  lemma WrittenSink(l: Local, l': Local, from: nat, upTo: nat, segments: seq<Segment>)
    requires HoldsWriter(l.pc) && from == |Between(l)| && from <= upTo <= |l.b.queue| && l.b.queue[..from] == Between(l)
    requires l'.shared.sink == l.shared.sink + l.b.queue[from..upTo] && Between(l') == []
    requires l'.shared.segments == l.shared.segments + segments && Flatten(segments) == l.b.queue[..upTo]
    ensures SinkMove(l, l')
  {
    SplitPrefix(l.b.queue, from, upTo);
    assert Flatten(segments) + Between(l') == l.b.queue[..upTo];
    SinkMoves(l, l', l.b.queue[from..upTo], segments);
  }

  lemma SplitPrefix(queue: seq<byte>, from: nat, upTo: nat)
    requires from <= upTo <= |queue|
    ensures queue[..from] + queue[from..upTo] == queue[..upTo]
  {
  }

  lemma FirstMoves(a: nat, i: nat, l: Local, split: nat, outcome: Outcome)
    returns (segments: seq<Segment>, fates: seq<Fate>)
    requires DrainCan(l, split, outcome) && LocalOk(a, i, l) && l.pc.at.WritingFirst?
    ensures LocalMove(a, i, l, Drained(a, l, split, outcome), segments, fates)
  {
    var l' := Drained(a, l, split, outcome);
    if outcome.Success? {
      segments, fates := [], [];
      assert l.shared.segments + [] == l.shared.segments;
      NoSegments(l, l', i);
    } else {
      segments, fates := [Torn(l.b.queue[..outcome.written])], Fates(l.b.queued[..l.pc.at.count], false);
      TearMoves(a, i, l, 0, outcome.written, outcome.error);
    }
  }

  lemma CompleteMoves(a: nat, i: nat, l: Local)
    requires LocalOk(a, i, l) && HoldsConsumer(l.pc, i) && l.pc.at.WritingSecond?
    ensures var packets := l.b.queued[..l.pc.at.count];
            LocalMove(a, i, l, Complete(l.pc.job, l.pc.at.size, l.pc.at.count, l.b, l.shared, l.pc.at.split),
                      Wholes(i, packets), Fates(packets, true))
  {
    var (split, size, count) := (l.pc.at.split, l.pc.at.size, l.pc.at.count);
    var packets := l.b.queued[..count];
    var l' := Complete(l.pc.job, size, count, l.b, l.shared, split);
    SettledBuffer(l.b, count, true);
    SettlingMoves(a, i, l, l', true, None);
    WholesOf(i, packets);
    WrittenSink(l, l', split, size, Wholes(i, packets));
  }

  lemma SecondMoves(a: nat, i: nat, l: Local, split: nat, outcome: Outcome)
    returns (segments: seq<Segment>, fates: seq<Fate>)
    requires DrainCan(l, split, outcome) && LocalOk(a, i, l) && l.pc.at.WritingSecond?
    ensures LocalMove(a, i, l, Drained(a, l, split, outcome), segments, fates)
  {
    if outcome.Success? {
      segments, fates := Wholes(i, l.b.queued[..l.pc.at.count]), Fates(l.b.queued[..l.pc.at.count], true);
      CompleteMoves(a, i, l);
    } else {
      var upTo := l.pc.at.split + outcome.written;
      segments, fates := [Torn(l.b.queue[..upTo])], Fates(l.b.queued[..l.pc.at.count], false);
      TearMoves(a, i, l, l.pc.at.split, upTo, outcome.error);
    }
  }

  lemma CommittingMoves(a: nat, i: nat, l: Local, split: nat, outcome: Outcome)
    requires DrainCan(l, split, outcome) && LocalOk(a, i, l) && l.pc.at.Committing?
    ensures LocalMove(a, i, l, Drained(a, l, split, outcome), [], [])
  {
    NoSegments(l, Drained(a, l, split, outcome), i);
    var (size, count) := (l.pc.at.size, l.pc.at.count);
    assert l.b.queued == l.b.queued[..count] + l.b.queued[count..];
    ConcatAppend(l.b.queued[..count], l.b.queued[count..]);
    assert l.b.queue == l.b.queue[..size] + l.b.queue[size..];
    assert |l.b.queue[..size]| == |Concat(l.b.queued[..count])|;
    assert l.b.queue[size..] == Concat(l.b.queued[count..]);
  }

  lemma HandSettles(b: Buffer, delivered: bool)
    requires BufferOk(b) && b.claimed == 0 && b.inFlight.Some? && b.queued == []
    ensures BufferOk(SettleTrailing(b, delivered))
    ensures Delivered([Fate(b.inFlight.value, delivered)]) == if delivered then [b.inFlight.value] else []
  {
    var fate := Fate(b.inFlight.value, delivered);
    assert [fate][..0] == [];
    assert PacketsOf(b.fates + [fate]) == PacketsOf(b.fates) + [fate.packet];
  }

  lemma CheckingTrailingMoves(a: nat, i: nat, l: Local, split: nat, outcome: Outcome) returns (fates: seq<Fate>)
    requires DrainCan(l, split, outcome) && LocalOk(a, i, l) && l.pc.at.CheckingTrailing?
    ensures LocalMove(a, i, l, Drained(a, l, split, outcome), [], fates)
  {
    var l' := Drained(a, l, split, outcome);
    assert l.shared.segments + [] == l.shared.segments;
    if l.pc.job.trailing.Some? && (l.pc.at.failure.Some? || l.shared.hasError) {
      fates := [Fate(l.pc.job.trailing.value, false)];
      HandSettles(l.b, false);
    } else {
      fates := [];
      NoSegments(l, l', i);
    }
  }

  lemma WholeSegment(i: nat, packet: Packet)
    ensures Share([Whole(i, packet)], i) == [packet]
    ensures forall j: nat :: j != i ==> Share([Whole(i, packet)], j) == []
    ensures Flatten([Whole(i, packet)]) == packet
  {
    assert [Whole(i, packet)][..0] == [];
  }

  lemma WritingTrailingMoves(a: nat, i: nat, l: Local, split: nat, outcome: Outcome)
    returns (segments: seq<Segment>, fates: seq<Fate>)
    requires DrainCan(l, split, outcome) && LocalOk(a, i, l) && l.pc.at.WritingTrailing?
    ensures LocalMove(a, i, l, Drained(a, l, split, outcome), segments, fates)
  {
    var l' := Drained(a, l, split, outcome);
    var packet := l.pc.job.trailing.value;
    var bytes := if outcome.Success? then packet else packet[..outcome.written];
    fates := [Fate(packet, outcome.Success?)];
    segments := if outcome.Success? then [Whole(i, packet)] else [Torn(bytes)];
    HandSettles(l.b, outcome.Success?);
    WholeSegment(i, packet);
    TornSegment(bytes);
    assert SinkMove(l, l') by {
      SinkMoves(l, l', bytes, segments);
    }
  }

  lemma DrainMoves(a: nat, i: nat, l: Local, split: nat, outcome: Outcome)
    returns (segments: seq<Segment>, fates: seq<Fate>)
    requires DrainCan(l, split, outcome) && LocalOk(a, i, l)
    ensures LocalMove(a, i, l, Drained(a, l, split, outcome), segments, fates)
  {
    segments, fates := [], [];
    match l.pc.at
    case Checking(_, _) => fates := CheckingMoves(a, i, l, split, outcome);
    case WritingFirst(_, _) => segments, fates := FirstMoves(a, i, l, split, outcome);
    case WritingSecond(_, _, _) => segments, fates := SecondMoves(a, i, l, split, outcome);
    case Committing(_, _, _) => CommittingMoves(a, i, l, split, outcome);
    case CheckingTrailing(_) => fates := CheckingTrailingMoves(a, i, l, split, outcome);
    case WritingTrailing => segments, fates := WritingTrailingMoves(a, i, l, split, outcome);
    case _ => QuietMoves(a, i, l, split, outcome);
  }

  lemma PushMoves(a: nat, i: nat, l: Local, capacity: nat)
    requires l.pc.Pushing? && LocalOk(a, i, l)
    ensures var l' := Push(capacity, l.pc.buffer, l.pc.packet, l.b, l.shared);
            LocalMove(a, i, l, l', [], []) && HolderMove(a, i, l, l') && l'.b.owner == l.b.owner
  {
    var l' := Push(capacity, l.pc.buffer, l.pc.packet, l.b, l.shared);
    NoSegments(l, l', i);
    ConcatPush(l.b.queued, l.pc.packet);
    assert l.b.queue[..|l.b.queue|] == l.b.queue && l.b.queued[..|l.b.queued|] == l.b.queued;
    assert (l.b.queued + [l.pc.packet])[l.b.claimed..] == l.b.queued[l.b.claimed..] + [l.pc.packet];
  }

  // ------------------------------------------------------------ every step keeps the invariant

  lemma LocalHolds(s: State, a: nat)
    requires Inv(s) && a < |s.pcs| && Focus(s.pcs[a]).Some?
    ensures Focus(s.pcs[a]).value < |s.buffers|
    ensures LocalOk(a, Focus(s.pcs[a]).value, Local(s.pcs[a], s.buffers[Focus(s.pcs[a]).value], s.shared))
  {
    var pc := s.pcs[a];
    if pc.Pushing? {
      assert Carried(pc).Some?;
    }
    var i := Focus(pc).value;
    assert BufferOk(s.buffers[i]);
    assert s.buffers[i].holder == Some(a) <==> HoldsConsumer(pc, i);
  }

  ghost predicate LocksMove(s: State, s': State, a: nat, i: nat, l: Local, l': Local) {
    && LockMove(s.shared.writer, a, HoldsWriter(l.pc), s'.shared.writer, HoldsWriter(l'.pc))
    && LockMove(s.shared.errorLock, a, HoldsError(l.pc), s'.shared.errorLock, HoldsError(l'.pc))
    && HolderMove(a, i, l, l')
  }

  lemma PutKeeps(s: State, s': State, a: nat, i: nat, l: Local, l': Local, segments: seq<Segment>, fates: seq<Fate>)
    requires Inv(s) && PutsOn(s, s', a, i, l, l') && LocksMove(s, s', a, i, l, l')
    requires LocalMove(a, i, l, l', segments, fates)
    ensures Inv(s')
  {
    WriterKept(s, s', a);
    ErrorLockKept(s, s', a);
    HoldersKept(s, s', a, i, l, l');
    HandsKept(s, s', a, i, l, l');
    ChunksKept(s, s', a, i, l, l');
    TrailingKept(s, s', a, i, l, l');
    SharesKept(s, s', a, i, l, l', segments, fates);
    SinkKept(s, s', a, i, l, l');
  }

  lemma DrainKeeps(s: State, a: nat, split: nat, outcome: Outcome)
    requires Inv(s) && Enabled(s, Label(a, Advance(split, outcome))) && s.pcs[a].Draining?
    ensures Inv(Apply(s, Label(a, Advance(split, outcome))))
  {
    LocalHolds(s, a);
    var i := s.pcs[a].job.buffer;
    var l := Local(s.pcs[a], s.buffers[i], s.shared);
    var l' := Drained(a, l, split, outcome);
    DrainLocks(a, l, split, outcome);
    DrainUnlocked(a, i, l, split, outcome);
    var segments, fates := DrainMoves(a, i, l, split, outcome);
    PutKeeps(s, Put(s, a, i, l'), a, i, l, l', segments, fates);
  }

  lemma DrainUnlocked(a: nat, i: nat, l: Local, split: nat, outcome: Outcome)
    requires DrainCan(l, split, outcome) && LocalOk(a, i, l)
    ensures var l' := Drained(a, l, split, outcome);
            HoldsConsumer(l.pc, i) || HoldsConsumer(l'.pc, i)
  {
  }

  lemma PushKeeps(s: State, a: nat, split: nat, outcome: Outcome)
    requires Inv(s) && Enabled(s, Label(a, Advance(split, outcome))) && s.pcs[a].Pushing?
    ensures Inv(Apply(s, Label(a, Advance(split, outcome))))
  {
    LocalHolds(s, a);
    var i := s.pcs[a].buffer;
    var l := Local(s.pcs[a], s.buffers[i], s.shared);
    var l' := Push(s.capacity, i, s.pcs[a].packet, l.b, s.shared);
    PushMoves(a, i, l, s.capacity);
    PutKeeps(s, Put(s, a, i, l'), a, i, l, l', [], []);
  }

  lemma ProduceKeeps(s: State, a: nat, i: nat, packet: Packet)
    requires Inv(s) && Enabled(s, Label(a, Produce(i, packet)))
    ensures Inv(Apply(s, Label(a, Produce(i, packet))))
  {
    var b := s.buffers[i];
    var l := Local(s.pcs[a], b, s.shared);
    var l' := Local(Pushing(i, packet), b.(inFlight := Some(packet), produced := b.produced + [packet]), s.shared);
    assert BufferOk(b) && b.inFlight == None;
    assert s.buffers[i].holder == Some(a) <==> HoldsConsumer(s.pcs[a], i);
    assert b.queue[..|b.queue|] == b.queue && b.queued[..|b.queued|] == b.queued;
    NoSegments(l, l', i);
    PutKeeps(s, Put(s, a, i, l'), a, i, l, l', [], []);
  }

  lemma ExitKeeps(s: State, a: nat, i: nat)
    requires Inv(s) && Enabled(s, Label(a, Exit(i)))
    ensures Inv(Apply(s, Label(a, Exit(i))))
  {
    var b := s.buffers[i];
    var l := Local(s.pcs[a], b, s.shared);
    var l' := Local(Draining(Job(i, None, s.shared.hasError, Solo), WantConsumer), b, s.shared);
    assert BufferOk(b) && b.inFlight == None;
    assert b.queue[..|b.queue|] == b.queue && b.queued[..|b.queued|] == b.queued;
    NoSegments(l, l', i);
    PutKeeps(s, Put(s, a, i, l'), a, i, l, l', [], []);
  }

  lemma RegisterKeeps(s: State, a: nat)
    requires Inv(s) && Enabled(s, Label(a, Register))
    ensures Inv(Apply(s, Label(a, Register)))
  {
    assert BufferOk(NewBuffer(a));
    RegisterHolders(s, a);
    RegisterHands(s, a);
    RegisterShares(s, a);
  }

  lemma RegisterHands(s: State, a: nat)
    requires HandsOk(s) && ChunksOk(s) && TrailingOk(s) && FocusOk(s) && Enabled(s, Label(a, Register))
    ensures var s' := Apply(s, Label(a, Register));
            HandsOk(s') && ChunksOk(s') && TrailingOk(s')
  {
    assert forall c: nat :: c < |s.pcs| && Carried(s.pcs[c]).Some? ==> Carried(s.pcs[c]).value.0 < |s.buffers|;
  }

  lemma RegisterShares(s: State, a: nat)
    requires SharesOk(s) && SinkOk(s) && FocusOk(s) && Enabled(s, Label(a, Register))
    ensures var s' := Apply(s, Label(a, Register));
            SharesOk(s') && SinkOk(s')
  {
    assert Delivered(NewBuffer(a).fates) == [];
    assert Partial(Apply(s, Label(a, Register))) == Partial(s);
  }

  lemma RegisterHolders(s: State, a: nat)
    requires HoldersOk(s) && FocusOk(s) && Enabled(s, Label(a, Register))
    ensures HoldersOk(Apply(s, Label(a, Register))) && FocusOk(Apply(s, Label(a, Register)))
  {
    var s' := Apply(s, Label(a, Register));
    forall c: nat, i: nat | c < |s'.pcs| && i < |s'.buffers|
      ensures s'.buffers[i].holder == Some(c) <==> HoldsConsumer(s'.pcs[c], i)
    {
      if i < |s.buffers| {
        assert s.buffers[i].holder == Some(c) <==> HoldsConsumer(s.pcs[c], i);
      }
    }
  }

  /** Steps that touch no buffer: one actor's own, and the locks and error. */
  lemma AloneKeeps(s: State, s': State, a: nat)
    requires Inv(s) && a < |s.pcs| == |s'.pcs| && s' == s.(pcs := s.pcs[a := s'.pcs[a]], shared := s'.shared)
    requires Focus(s.pcs[a]) == None && Carried(s'.pcs[a]) == None
    requires s'.pcs[a].Draining? ==> s'.pcs[a].at.WantConsumer? && s'.pcs[a].job.buffer < |s.buffers|
    requires LockMove(s.shared.writer, a, HoldsWriter(s.pcs[a]), s'.shared.writer, HoldsWriter(s'.pcs[a]))
    requires LockMove(s.shared.errorLock, a, HoldsError(s.pcs[a]), s'.shared.errorLock, HoldsError(s'.pcs[a]))
    requires s'.shared.sink == s.shared.sink && s'.shared.segments == s.shared.segments
    ensures Inv(s')
  {
    WriterKept(s, s', a);
    ErrorLockKept(s, s', a);
    AloneHolders(s, s', a);
    assert Partial(s') == Partial(s);
  }

  lemma AloneHolders(s: State, s': State, a: nat)
    requires HoldersOk(s) && a < |s.pcs| == |s'.pcs| && s' == s.(pcs := s.pcs[a := s'.pcs[a]], shared := s'.shared)
    requires !s.pcs[a].Draining? && (s'.pcs[a].Draining? ==> s'.pcs[a].at.WantConsumer?)
    ensures HoldersOk(s')
  {
    forall c: nat, i: nat | c < |s'.pcs| && i < |s'.buffers|
      ensures s'.buffers[i].holder == Some(c) <==> HoldsConsumer(s'.pcs[c], i)
    {
      assert s.buffers[i].holder == Some(c) <==> HoldsConsumer(s.pcs[c], i);
    }
  }

  // ------------------------------------------------------------ flushes in progress

  function FlushIn(next: Next): Option<Flush> {
    if next.Solo? then None else Some(next.flush)
  }

  /** The flush an actor is in the middle of, whatever it is doing for it. */
  function FlushOf(pc: Pc): Option<Flush> {
    match pc
    case Idle => None
    case Pushing(_, _) => None
    case Draining(job, _) => FlushIn(job.next)
    case Recording(_, _, next) => FlushIn(next)
    case FlushNext(flush) => Some(flush)
    case FlushWantWriter(flush) => Some(flush)
    case FlushWriting(flush) => Some(flush)
    case FlushFreeing(flush, _) => Some(flush)
    case FlushChecking(flush) => Some(flush)
    case FlushReporting(flush) => Some(flush)
    case Returned(flush, _) => Some(flush)
  }

  ghost predicate SnapshotsOk(s: State) {
    forall a: nat :: a < |s.pcs| && FlushOf(s.pcs[a]).Some? ==> |FlushOf(s.pcs[a]).value.targets| <= |s.buffers|
  }

  lemma DrainFlush(a: nat, l: Local, split: nat, outcome: Outcome)
    requires DrainCan(l, split, outcome)
    ensures FlushOf(Drained(a, l, split, outcome).pc) == FlushOf(l.pc)
  {
  }

  lemma AdvancedFlush(actor: nat, pc: Pc, shared: Shared, outcome: Outcome)
    requires Focus(pc).None? && !pc.Idle?
    ensures var pc' := Advanced(actor, pc, shared, outcome).0;
            FlushOf(pc').Some? ==> FlushOf(pc).Some? && FlushOf(pc').value.targets == FlushOf(pc).value.targets
  {
  }

  lemma SnapshotsKept(s: State, l: Label)
    requires SnapshotsOk(s) && Enabled(s, l)
    ensures SnapshotsOk(Apply(s, l))
  {
    if l.action.Advance? {
      var pc := s.pcs[l.actor];
      if pc.Draining? {
        DrainFlush(l.actor, Local(pc, s.buffers[pc.job.buffer], s.shared), l.action.split, l.action.outcome);
      } else if Focus(pc).None? {
        AdvancedFlush(l.actor, pc, s.shared, l.action.outcome);
      }
    }
  }

  // ------------------------------------------------------------ all reachable states

  ghost predicate Safe(s: State) {
    Inv(s) && SnapshotsOk(s)
  }

  lemma FlushStepKeeps(s: State, a: nat, split: nat, outcome: Outcome)
    requires Safe(s) && Enabled(s, Label(a, Advance(split, outcome))) && Focus(s.pcs[a]).None?
    ensures Inv(Apply(s, Label(a, Advance(split, outcome))))
  {
    var s' := Apply(s, Label(a, Advance(split, outcome)));
    AdvancedLocks(a, s.pcs[a], s.shared, outcome);
    AdvancedQuietly(a, s.pcs[a], s.shared, outcome);
    AloneKeeps(s, s', a);
  }

  lemma AdvancedQuietly(a: nat, pc: Pc, shared: Shared, outcome: Outcome)
    requires Focus(pc).None? && !pc.Idle?
    ensures var (pc', shared') := Advanced(a, pc, shared, outcome);
            && shared'.sink == shared.sink && shared'.segments == shared.segments
            && (pc'.Draining? ==> FlushOf(pc).Some? && pc'.job.buffer < |FlushOf(pc).value.targets|)
  {
  }

  lemma StepKeeps(s: State, l: Label)
    requires Safe(s) && Enabled(s, l)
    ensures Safe(Apply(s, l))
  {
    SnapshotsKept(s, l);
    match l.action
    case Register => RegisterKeeps(s, l.actor);
    case Produce(i, packet) => ProduceKeeps(s, l.actor, i, packet);
    case Exit(i) => ExitKeeps(s, l.actor, i);
    case BeginFlush => AloneKeeps(s, Apply(s, l), l.actor);
    case Advance(split, outcome) =>
      if s.pcs[l.actor].Draining? {
        DrainKeeps(s, l.actor, split, outcome);
      } else if s.pcs[l.actor].Pushing? {
        PushKeeps(s, l.actor, split, outcome);
      } else {
        FlushStepKeeps(s, l.actor, split, outcome);
      }
  }

  lemma InitialIsSafe(capacity: nat, actors: nat)
    ensures Safe(Initial(capacity, actors))
  {
  }

  lemma {:induction false} RunIsSafe(s: State, labels: seq<Label>)
    requires Safe(s)
    ensures Safe(Run(s, labels))
    decreases |labels|
  {
    if labels != [] && Enabled(s, labels[0]) {
      StepKeeps(s, labels[0]);
      RunIsSafe(Apply(s, labels[0]), labels[1..]);
    }
  }
}
