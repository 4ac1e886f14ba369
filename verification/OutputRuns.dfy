/**
 What whole operations guarantee, from the label that starts them to their end: a packet
 pushed, a thread's exit, a flush; and where a recorded error comes from.
 */
module OutputRuns {
  import opened Prelude
  import opened Output
  import opened OutputSafety
  import opened OutputErrors
  import opened OutputFlush

  /** Every label takes effect, and the actor is in the middle of something before each. */
  ghost predicate Underway(s: State, labels: seq<Label>, a: nat)
    decreases |labels|
  {
    labels == [] ||
    (a < |s.pcs| && !s.pcs[a].Idle? && Enabled(s, labels[0]) && Underway(Apply(s, labels[0]), labels[1..], a))
  }

  lemma AllStepsHold(s: State, l: Label)
    requires Safe(s) && ErrorInv(s) && ProgressOk(s) && Enabled(s, l)
    ensures Safe(Apply(s, l)) && ErrorInv(Apply(s, l)) && ProgressOk(Apply(s, l))
  {
    StepKeeps(s, l);
    ProgressKept(s, l);
    assert [l][1..] == [];
    RunKeepsErrors(s, [l]);
    assert Run(s, [l]) == Run(Apply(s, l), []);
  }

  // ------------------------------------------------------------ what is produced

  /** The packets that the labels of a run ask buffer `i`'s thread to emit, in order. */
  function Asked(s: State, labels: seq<Label>, i: nat): seq<Packet>
    decreases |labels|
  {
    if labels == [] || !Enabled(s, labels[0]) then []
    else
      var rest := Asked(Apply(s, labels[0]), labels[1..], i);
      if labels[0].action.Produce? && labels[0].action.buffer == i then [labels[0].action.packet] + rest else rest
  }

  /** What buffer `i` was given; nothing if it does not exist yet. */
  function ProducedIn(buffers: seq<Buffer>, i: nat): seq<Packet> {
    if i < |buffers| then buffers[i].produced else []
  }

  lemma StepProduces(s: State, l: Label, i: nat)
    requires Enabled(s, l)
    ensures var s' := Apply(s, l);
            && |s.buffers| <= |s'.buffers|
            && ProducedIn(s'.buffers, i)
            == ProducedIn(s.buffers, i)
             + if l.action.Produce? && l.action.buffer == i then [l.action.packet] else []
    ensures forall j: nat :: j < |s.buffers| ==> Apply(s, l).buffers[j].owner == s.buffers[j].owner
    ensures if l.action.Register?
            then |Apply(s, l).buffers| == |s.buffers| + 1 && Apply(s, l).buffers[|s.buffers|].owner == l.actor
            else |Apply(s, l).buffers| == |s.buffers|
  {
    if Drains(s, l) {
      DrainStep(s, l);
      DrainKeepsProduced(l.actor, Here(s, l), l.action.split, l.action.outcome);
    }
  }

  lemma DrainKeepsProduced(a: nat, l: Local, split: nat, outcome: Outcome)
    requires DrainCan(l, split, outcome)
    ensures var b' := Drained(a, l, split, outcome).b;
            b'.produced == l.b.produced && b'.owner == l.b.owner
  {
  }

  /** Over any run, a buffer has been given exactly what its thread was asked to emit. */
  lemma {:induction false} ProducedIsAsked(s: State, labels: seq<Label>, i: nat)
    ensures ProducedIn(Run(s, labels).buffers, i) == ProducedIn(s.buffers, i) + Asked(s, labels, i)
    decreases |labels|
  {
    if labels != [] && Enabled(s, labels[0]) {
      StepProduces(s, labels[0], i);
      ProducedIsAsked(Apply(s, labels[0]), labels[1..], i);
    }
  }

  /**
   A thread that is doing nothing has no packet in its hand: every packet it was asked to
   emit has its fate or is in its queue, in order.
   */
  lemma IdleThreadsHandOver(s: State, capacity: nat, actors: nat, labels: seq<Label>, i: nat)
    requires Reachable(s, capacity, actors, labels) && i < |s.buffers|
    requires s.buffers[i].owner < |s.pcs| && s.pcs[s.buffers[i].owner].Idle?
    ensures s.buffers[i].inFlight == None && s.buffers[i].claimed <= |s.buffers[i].queued|
    ensures PacketsOf(s.buffers[i].fates) + s.buffers[i].queued[s.buffers[i].claimed..]
         == Asked(Initial(capacity, actors), labels, i)
  {
    ReachableHolds(s, capacity, actors, labels);
    ProducedIsAsked(Initial(capacity, actors), labels, i);
    var b := s.buffers[i];
    assert BufferOk(b) && b.inFlight == None;
    assert PacketsOf(b.fates) + b.queued[b.claimed..] + [] == PacketsOf(b.fates) + b.queued[b.claimed..];
  }

  // ------------------------------------------------------------ pushing

  /** A packet that fits goes to the back of its queue; one that does not is drained after the queue. */
  lemma PushIsExact(s: State, a: nat, buffer: nat, packet: Packet, split: nat, outcome: Outcome)
    requires a < |s.pcs| && s.pcs[a] == Pushing(buffer, packet) && Enabled(s, Label(a, Advance(split, outcome)))
    ensures var (b, s') := (s.buffers[buffer], Apply(s, Label(a, Advance(split, outcome))));
            var b' := s'.buffers[buffer];
            && s'.shared == s.shared && b'.fates == b.fates
            && (|b.queue| + |packet| <= s.capacity ==>
                  s'.pcs[a] == Idle && b'.queue == b.queue + packet && b'.queued == b.queued + [packet])
            && (|b.queue| + |packet| > s.capacity ==>
                  && b' == b && s'.pcs[a].Draining? && s'.pcs[a].at.WantConsumer?
                  && s'.pcs[a].job.buffer == buffer && s'.pcs[a].job.trailing == Some(packet))
  {
  }

  ghost predicate Bounded(s: State) {
    forall i: nat :: i < |s.buffers| ==> |s.buffers[i].queue| <= s.capacity
  }

  lemma DrainShrinks(a: nat, l: Local, split: nat, outcome: Outcome)
    requires DrainCan(l, split, outcome)
    ensures |Drained(a, l, split, outcome).b.queue| <= |l.b.queue|
  {
  }

  lemma StepKeepsBounded(s: State, l: Label)
    requires Bounded(s) && Enabled(s, l)
    ensures Bounded(Apply(s, l)) && Apply(s, l).capacity == s.capacity
  {
    if Drains(s, l) {
      DrainStep(s, l);
      DrainShrinks(l.actor, Here(s, l), l.action.split, l.action.outcome);
    }
  }

  /** No queue ever holds more than the ring buffer has room for. */
  lemma {:induction false} QueuesAreBounded(s: State, labels: seq<Label>)
    requires Bounded(s)
    ensures Bounded(Run(s, labels)) && Run(s, labels).capacity == s.capacity
    decreases |labels|
  {
    if labels != [] && Enabled(s, labels[0]) {
      StepKeepsBounded(s, labels[0]);
      QueuesAreBounded(Apply(s, labels[0]), labels[1..]);
    }
  }

  // ------------------------------------------------------------ exit

  /** Actor `a` is draining buffer `i`, its own, for good; `asked` is all the buffer was ever given. */
  ghost predicate Exits(s: State, a: nat, i: nat, asked: seq<Packet>) {
    && i < |s.buffers| && a < |s.pcs| && s.buffers[i].owner == a
    && s.buffers[i].produced == asked && |asked| <= Handed(s.buffers[i])
    && ExitPc(s.buffers[i], s.pcs[a], i, |asked|)
  }

  predicate ExitPc(b: Buffer, pc: Pc, i: nat, target: nat) {
    if pc.Draining? then
      pc.job.buffer == i && pc.job.trailing == None && pc.job.next == Solo && WillSettle(b, pc.at, target)
    else (pc.Idle? || (pc.Recording? && pc.next == Solo)) && target <= |b.fates|
  }

  lemma ExitBegins(s: State, a: nat, i: nat)
    requires Safe(s) && Enabled(s, Label(a, Exit(i)))
    ensures Exits(Apply(s, Label(a, Exit(i))), a, i, s.buffers[i].produced)
  {
    var b := s.buffers[i];
    assert BufferOk(b) && b.inFlight == None;
    assert |PacketsOf(b.fates) + b.queued[b.claimed..] + []| == |b.fates| + |b.queued| - b.claimed;
  }

  lemma ExitDrains(a: nat, l: Local, i: nat, target: nat, split: nat, outcome: Outcome)
    requires DrainCan(l, split, outcome) && LocalOk(a, i, l)
    requires ExitPc(l.b, l.pc, i, target) && target <= Handed(l.b)
    ensures var l' := Drained(a, l, split, outcome); ExitPc(l'.b, l'.pc, i, target)
  {
    DrainSettles(a, i, l, split, outcome, target);
  }

  lemma ExitAdvances(s: State, l: Label, i: nat, asked: seq<Packet>)
    requires Safe(s) && Exits(s, l.actor, i, asked) && Enabled(s, l) && !s.pcs[l.actor].Idle?
    ensures Exits(Apply(s, l), l.actor, i, asked)
  {
    StepGrows(s, l);
    StepProduces(s, l, i);
    if s.pcs[l.actor].Draining? {
      DrainStep(s, l);
      LocalHolds(s, l.actor);
      ExitDrains(l.actor, Here(s, l), i, |asked|, l.action.split, l.action.outcome);
      PutPc(s, l.actor, i, There(s, l));
    } else {
      RecordingEnds(s, l, i, |asked|);
    }
  }

  lemma PutPc(s: State, a: nat, i: nat, l: Local)
    requires a < |s.pcs| && i < |s.buffers|
    ensures Put(s, a, i, l).pcs[a] == l.pc && Put(s, a, i, l).buffers[i] == l.b && |Put(s, a, i, l).pcs| == |s.pcs|
  {
  }

  lemma RecordingEnds(s: State, l: Label, i: nat, target: nat)
    requires Enabled(s, l) && i < |s.buffers| && s.pcs[l.actor].Recording?
    requires ExitPc(s.buffers[i], s.pcs[l.actor], i, target)
    ensures var s' := Apply(s, l);
            |s'.pcs| == |s.pcs| && s'.buffers == s.buffers && ExitPc(s'.buffers[i], s'.pcs[l.actor], i, target)
  {
  }

  /** Nobody else gives the buffer packets, and the more is settled the better. */
  lemma OthersLetExit(s: State, l: Label, a: nat, i: nat, asked: seq<Packet>)
    requires Safe(s) && Exits(s, a, i, asked) && Enabled(s, l) && l.actor != a
    ensures Exits(Apply(s, l), a, i, asked)
  {
    StepGrows(s, l);
    StepProduces(s, l, i);
    assert Apply(s, l).pcs[a] == s.pcs[a];
  }

  lemma {:induction false} ExitRuns(s: State, labels: seq<Label>, a: nat, i: nat, asked: seq<Packet>)
    requires Safe(s) && Exits(s, a, i, asked) && Underway(s, labels, a)
    ensures Safe(Run(s, labels)) && Exits(Run(s, labels), a, i, asked)
    decreases |labels|
  {
    if labels != [] {
      if labels[0].actor == a {
        ExitAdvances(s, labels[0], i, asked);
      } else {
        OthersLetExit(s, labels[0], a, i, asked);
      }
      StepKeeps(s, labels[0]);
      ExitRuns(Apply(s, labels[0]), labels[1..], a, i, asked);
    }
  }

  /**
   When a thread has exited, every packet it ever emitted has its fate, in order, and none
   is left behind in its queue. If nothing has failed, all of them are in the sink.
   */
  lemma ExitReturns(s: State, capacity: nat, actors: nat, labels: seq<Label>, a: nat, i: nat, more: seq<Label>)
    requires Reachable(s, capacity, actors, labels) && Enabled(s, Label(a, Exit(i)))
    requires var s1 := Apply(s, Label(a, Exit(i)));
             Underway(s1, more, a) && a < |Run(s1, more).pcs| && Run(s1, more).pcs[a].Idle?
    ensures var s' := Run(Apply(s, Label(a, Exit(i))), more);
            && i < |s'.buffers| && s.buffers[i].produced == Asked(Initial(capacity, actors), labels, i)
            && PacketsOf(s'.buffers[i].fates) == s.buffers[i].produced == s'.buffers[i].produced
            && s'.buffers[i].claimed == |s'.buffers[i].queued|
            && (!s'.shared.failed ==> Share(s'.shared.segments, i) == s.buffers[i].produced)
  {
    ReachableHolds(s, capacity, actors, labels);
    ProducedIsAsked(Initial(capacity, actors), labels, i);
    var exit := Label(a, Exit(i));
    var s1 := Apply(s, exit);
    var s' := Run(s1, more);
    var asked := s.buffers[i].produced;
    ExitBegins(s, a, i);
    AllStepsHold(s, exit);
    ExitRuns(s1, more, a, i, asked);
    RunKeepsErrors(s1, more);
    var b := s'.buffers[i];
    AllSettled(b);
    if !s'.shared.failed {
      SharePrefix(s', i);
      assert b.produced[..|b.produced|] == b.produced;
    }
  }

  lemma AllSettled(b: Buffer)
    requires BufferOk(b) && |b.produced| <= |b.fates|
    ensures PacketsOf(b.fates) == b.produced && b.claimed == |b.queued| && b.inFlight == None
  {
    var rest := b.queued[b.claimed..] + InHand(b);
    assert PacketsOf(b.fates) + rest == b.produced;
    assert |rest| == 0;
    assert PacketsOf(b.fates) + [] == PacketsOf(b.fates);
  }

  // ------------------------------------------------------------ flush

  /** The flush in progress set out to settle these many packets of each buffer. */
  predicate Flushes(pc: Pc, targets: seq<nat>, begun: bool) {
    FlushOf(pc).Some? && FlushOf(pc).value.targets == targets && FlushOf(pc).value.begun == begun
  }

  lemma AdvancedKeepsFlush(actor: nat, pc: Pc, shared: Shared, outcome: Outcome)
    requires Focus(pc).None? && FlushOf(pc).Some? && !pc.Returned?
    ensures var pc' := Advanced(actor, pc, shared, outcome).0;
            Flushes(pc', FlushOf(pc).value.targets, FlushOf(pc).value.begun)
  {
  }

  lemma FlushAdvances(s: State, l: Label, targets: seq<nat>, begun: bool)
    requires Enabled(s, l) && Flushes(s.pcs[l.actor], targets, begun) && l.action.Advance?
    ensures Apply(s, l).pcs[l.actor].Idle? || Flushes(Apply(s, l).pcs[l.actor], targets, begun)
  {
    if Drains(s, l) {
      DrainStep(s, l);
      DrainFlush(l.actor, Here(s, l), l.action.split, l.action.outcome);
    } else if !s.pcs[l.actor].Returned? {
      AdvancedKeepsFlush(l.actor, s.pcs[l.actor], s.shared, l.action.outcome);
    }
  }

  lemma {:induction false} FlushRuns(s: State, labels: seq<Label>, a: nat, targets: seq<nat>, begun: bool)
    requires a < |s.pcs| && (s.pcs[a].Idle? || Flushes(s.pcs[a], targets, begun)) && Underway(s, labels, a)
    ensures a < |Run(s, labels).pcs|
    ensures Run(s, labels).pcs[a].Idle? || Flushes(Run(s, labels).pcs[a], targets, begun)
    decreases |labels|
  {
    if labels != [] {
      var s' := Apply(s, labels[0]);
      assert |s'.pcs| == |s.pcs|;
      if labels[0].actor == a {
        FlushAdvances(s, labels[0], targets, begun);
      } else {
        assert s'.pcs[a] == s.pcs[a];
      }
      FlushRuns(s', labels[1..], a, targets, begun);
    }
  }

  /** The packets a buffer has had when none of them is still in its producer's hand. */
  function Given(b: Buffer): nat {
    if b.inFlight.Some? && |b.produced| > 0 then |b.produced| - 1 else |b.produced|
  }

  lemma GivenIsHanded(b: Buffer)
    requires BufferOk(b)
    ensures Given(b) == Handed(b)
  {
    assert |PacketsOf(b.fates) + b.queued[b.claimed..] + InHand(b)| == |b.fates| + |b.queued| - b.claimed + |InHand(b)|;
  }

  /** The sink has been flushed since the packets that were to be settled reached it. */
  ghost predicate Synced(shared: Shared, targets: seq<nat>) {
    && shared.flushed <= |shared.segments|
    && forall i: nat :: i < |targets| ==> targets[i] <= |Share(shared.segments[..shared.flushed], i)|
  }

  /** A flush past its flush of the sink. */
  predicate PastSync(pc: Pc) {
    || pc.FlushFreeing? || pc.FlushChecking? || pc.FlushReporting? || pc.Returned?
    || (pc.Recording? && pc.next.Conclude?)
  }

  ghost predicate SyncOk(s: State) {
    && s.shared.flushed <= |s.shared.segments|
    && forall a: nat :: a < |s.pcs| && PastSync(s.pcs[a]) && FlushOf(s.pcs[a]).Some? && !s.shared.failed ==>
         Synced(s.shared, FlushOf(s.pcs[a]).value.targets)
  }

  /** Segments are only added, and the mark only moves forward. */
  predicate Onward(shared: Shared, shared': Shared) {
    && |shared.segments| <= |shared'.segments| && shared'.segments[..|shared.segments|] == shared.segments
    && shared.flushed <= shared'.flushed && (shared.failed ==> shared'.failed)
    && (shared'.flushed == shared.flushed || shared'.flushed == |shared'.segments|)
  }

  lemma SyncedStays(shared: Shared, shared': Shared, targets: seq<nat>)
    requires Synced(shared, targets) && Onward(shared, shared')
    ensures Synced(shared', targets)
  {
    var (x, y) := (shared.segments[..shared.flushed], shared'.segments[..shared'.flushed]);
    assert x == shared'.segments[..|shared.segments|][..shared.flushed];
    assert y == x + shared'.segments[shared.flushed..shared'.flushed];
    forall i: nat | i < |targets|
      ensures targets[i] <= |Share(y, i)|
    {
      ShareAppend(x, shared'.segments[shared.flushed..shared'.flushed], i);
    }
  }

  lemma DrainGoesOn(a: nat, l: Local, split: nat, outcome: Outcome)
    requires DrainCan(l, split, outcome) && l.shared.flushed <= |l.shared.segments|
    ensures Onward(l.shared, Drained(a, l, split, outcome).shared)
    ensures !l.pc.job.next.Conclude? ==> !PastSync(Drained(a, l, split, outcome).pc)
  {
  }

  lemma AdvancedGoesOn(actor: nat, pc: Pc, shared: Shared, outcome: Outcome)
    requires Focus(pc).None? && shared.flushed <= |shared.segments|
    ensures Onward(shared, Advanced(actor, pc, shared, outcome).1)
  {
  }

  lemma StepGoesOn(s: State, l: Label)
    requires Enabled(s, l) && s.shared.flushed <= |s.shared.segments|
    ensures Onward(s.shared, Apply(s, l).shared)
  {
    if Drains(s, l) {
      DrainStep(s, l);
      DrainGoesOn(l.actor, Here(s, l), l.action.split, l.action.outcome);
    } else if Alone(s, l) {
      AdvancedGoesOn(l.actor, s.pcs[l.actor], s.shared, l.action.outcome);
    }
  }

  /** Where a flush stands after one of its own steps outside a drain. */
  lemma AdvancedSyncs(actor: nat, pc: Pc, shared: Shared, outcome: Outcome)
    requires Focus(pc).None? && !pc.Idle?
    ensures var (pc', shared') := Advanced(actor, pc, shared, outcome);
            PastSync(pc') && FlushOf(pc').Some? && !shared'.failed ==>
              || (PastSync(pc) && Flushes(pc, FlushOf(pc').value.targets, FlushOf(pc').value.begun))
              || (pc.FlushWriting? && pc.flush == FlushOf(pc').value && shared'.flushed == |shared.segments|
                  && shared'.segments == shared.segments)
  {
  }

  /** When a flush comes to flush the sink, what it set out to settle is there. */
  lemma TargetsAreThere(s: State, a: nat)
    requires Safe(s) && ErrorInv(s) && ProgressOk(s) && a < |s.pcs| && s.pcs[a].FlushWriting? && !s.shared.failed
    ensures Synced(s.shared.(flushed := |s.shared.segments|), s.pcs[a].flush.targets)
  {
    var targets := s.pcs[a].flush.targets;
    assert FlushProgresses(s.buffers, s.pcs[a]);
    assert s.shared.segments[..|s.shared.segments|] == s.shared.segments;
    forall i: nat | i < |targets|
      ensures targets[i] <= |Share(s.shared.segments, i)|
    {
      SharePrefix(s, i);
    }
  }

  lemma OwnSync(s: State, l: Label)
    requires Safe(s) && ErrorInv(s) && ProgressOk(s) && SyncOk(s) && Enabled(s, l)
    ensures var (pc', shared') := (Apply(s, l).pcs[l.actor], Apply(s, l).shared);
            PastSync(pc') && FlushOf(pc').Some? && !shared'.failed ==> Synced(shared', FlushOf(pc').value.targets)
  {
    var a, s' := l.actor, Apply(s, l);
    StepGoesOn(s, l);
    if Drains(s, l) {
      DrainStep(s, l);
      DrainGoesOn(a, Here(s, l), l.action.split, l.action.outcome);
      DrainFlush(a, Here(s, l), l.action.split, l.action.outcome);
      assert FlushProgresses(s.buffers, s.pcs[a]);
    } else if Alone(s, l) {
      AdvancedSyncs(a, s.pcs[a], s.shared, l.action.outcome);
      if PastSync(s'.pcs[a]) && FlushOf(s'.pcs[a]).Some? && !s'.shared.failed {
        if s.pcs[a].FlushWriting? {
          TargetsAreThere(s, a);
        } else {
          SyncedStays(s.shared, s'.shared, FlushOf(s.pcs[a]).value.targets);
        }
      }
    }
  }

  lemma SyncKept(s: State, l: Label)
    requires Safe(s) && ErrorInv(s) && ProgressOk(s) && SyncOk(s) && Enabled(s, l)
    ensures SyncOk(Apply(s, l))
  {
    var s' := Apply(s, l);
    StepGoesOn(s, l);
    OwnSync(s, l);
    forall b: nat | b < |s'.pcs| && PastSync(s'.pcs[b]) && FlushOf(s'.pcs[b]).Some? && !s'.shared.failed
      ensures Synced(s'.shared, FlushOf(s'.pcs[b]).value.targets)
    {
      if b != l.actor {
        assert s'.pcs[b] == s.pcs[b];
        SyncedStays(s.shared, s'.shared, FlushOf(s.pcs[b]).value.targets);
      }
    }
  }

  lemma {:induction false} RunSyncs(s: State, labels: seq<Label>)
    requires Safe(s) && ErrorInv(s) && ProgressOk(s) && SyncOk(s)
    ensures SyncOk(Run(s, labels))
    decreases |labels|
  {
    if labels != [] && Enabled(s, labels[0]) {
      SyncKept(s, labels[0]);
      AllStepsHold(s, labels[0]);
      RunSyncs(Apply(s, labels[0]), labels[1..]);
    }
  }

  lemma ReachableSyncs(s: State, capacity: nat, actors: nat, labels: seq<Label>)
    requires Reachable(s, capacity, actors, labels)
    ensures SyncOk(s)
  {
    ReachableHolds(Initial(capacity, actors), capacity, actors, []);
    RunSyncs(Initial(capacity, actors), labels);
  }

  /**
   A flush from its start to its return: every packet handed over before it began has its
   fate; it reports an error if the flag was set when it began; and if nothing has failed,
   all those packets were in the sink when the flush itself flushed it.
   */
  lemma FlushSettles(s: State, capacity: nat, actors: nat, labels: seq<Label>, a: nat, more: seq<Label>)
    requires Reachable(s, capacity, actors, labels) && Enabled(s, Label(a, BeginFlush))
    requires var s1 := Apply(s, Label(a, BeginFlush));
             Underway(s1, more, a) && a < |Run(s1, more).pcs| && Run(s1, more).pcs[a].Returned?
    ensures var s' := Run(Apply(s, Label(a, BeginFlush)), more);
            && |s.buffers| <= |s'.buffers| && s'.shared.flushed <= |s'.shared.segments|
            && (forall i: nat :: i < |s.buffers| ==>
                  && Given(s.buffers[i]) <= |s'.buffers[i].fates|
                  && (!s'.shared.failed ==>
                        Given(s.buffers[i]) <= |Share(s'.shared.segments[..s'.shared.flushed], i)|))
            && (s.shared.hasError ==> s'.pcs[a].result.Some?)
            && (s'.pcs[a].result.Some? ==> s'.pcs[a].result == s'.shared.error)
            && (!s'.shared.failed ==> s'.pcs[a].result == None)
  {
    ReachableHolds(s, capacity, actors, labels);
    ReachableSyncs(s, capacity, actors, labels);
    var begin := Label(a, BeginFlush);
    var s1 := Apply(s, begin);
    var s' := Run(s1, more);
    AllStepsHold(s, begin);
    SyncKept(s, begin);
    assert Flushes(s1.pcs[a], Targets(s.buffers), s.shared.hasError);
    FlushRuns(s1, more, a, Targets(s.buffers), s.shared.hasError);
    RunAllHolds(s1, more);
    assert FlushProgresses(s'.buffers, s'.pcs[a]);
    forall i: nat | i < |s.buffers|
      ensures Given(s.buffers[i]) == s'.pcs[a].flush.targets[i]
    {
      assert BufferOk(s.buffers[i]);
      GivenIsHanded(s.buffers[i]);
    }
  }

  lemma RunAllHolds(s: State, labels: seq<Label>)
    requires Safe(s) && ErrorInv(s) && ProgressOk(s) && SyncOk(s)
    ensures var s' := Run(s, labels); Safe(s') && ErrorInv(s') && ProgressOk(s') && SyncOk(s')
  {
    RunIsSafe(s, labels);
    RunKeepsErrors(s, labels);
    RunProgresses(s, labels);
    RunSyncs(s, labels);
  }

  // ------------------------------------------------------------ where an error comes from

  /** An actor comes to hold a failure only by a write or flush that fails with it, and holds on to it. */
  lemma FailuresAreTheirOwn(s: State, l: Label, b: nat, e: Error)
    requires Enabled(s, l) && b < |s.pcs| && FailureOf(Apply(s, l).pcs[b]) == Some(e)
    ensures FailureOf(s.pcs[b]) == Some(e) || FailsWith(l, b, e)
  {
    if Drains(s, l) {
      DrainStep(s, l);
      DrainFailure(l.actor, Here(s, l), l.action.split, l.action.outcome);
    } else if Alone(s, l) {
      AdvancedFailure(l.actor, s.pcs[l.actor], s.shared, l.action.outcome);
    }
  }

  /** The environment makes the actor's write fail with this error. */
  predicate FailsWith(l: Label, b: nat, e: Error) {
    l.actor == b && l.action.Advance? && l.action.outcome.Failure? && l.action.outcome.error == e
  }

  lemma DrainFailure(a: nat, l: Local, split: nat, outcome: Outcome)
    requires DrainCan(l, split, outcome)
    ensures var failure := FailureOf(Drained(a, l, split, outcome).pc);
            failure.Some? ==> failure == FailureOf(l.pc) || (outcome.Failure? && failure == Some(outcome.error))
  {
  }

  lemma AdvancedFailure(actor: nat, pc: Pc, shared: Shared, outcome: Outcome)
    requires Focus(pc).None? && !pc.Idle?
    ensures var (pc', shared') := Advanced(actor, pc, shared, outcome);
            && (FailureOf(pc').Some? ==>
                  FailureOf(pc') == FailureOf(pc) || (outcome.Failure? && FailureOf(pc') == Some(outcome.error)))
            && (shared'.error == shared.error || (shared.error == None && shared'.error == FailureOf(pc)))
  {
  }

  /** Every error held or recorded is one that a write or flush of the run failed with. */
  ghost predicate ErrorsHappened(s: State, labels: seq<Label>) {
    && (forall b: nat :: b < |s.pcs| && FailureOf(s.pcs[b]).Some? ==> Happened(labels, FailureOf(s.pcs[b]).value))
    && (s.shared.error.Some? ==> Happened(labels, s.shared.error.value))
  }

  ghost predicate Happened(labels: seq<Label>, e: Error) {
    exists k: nat, b: nat :: k < |labels| && FailsWith(labels[k], b, e)
  }

  lemma HappenedLater(labels: seq<Label>, l: Label, e: Error)
    requires Happened(labels, e) || FailsWith(l, l.actor, e)
    ensures Happened(labels + [l], e)
  {
    if Happened(labels, e) {
      var k: nat, b: nat :| k < |labels| && FailsWith(labels[k], b, e);
      assert (labels + [l])[k] == labels[k];
    } else {
      assert FailsWith((labels + [l])[|labels|], l.actor, e);
    }
  }

  lemma ErrorStep(s: State, l: Label, past: seq<Label>)
    requires Enabled(s, l) && ErrorsHappened(s, past)
    ensures ErrorsHappened(Apply(s, l), past + [l])
  {
    var s' := Apply(s, l);
    forall b: nat | b < |s'.pcs| && FailureOf(s'.pcs[b]).Some?
      ensures Happened(past + [l], FailureOf(s'.pcs[b]).value)
    {
      FailuresAreTheirOwn(s, l, b, FailureOf(s'.pcs[b]).value);
      HappenedLater(past, l, FailureOf(s'.pcs[b]).value);
    }
    if s'.shared.error.Some? {
      RecordedFrom(s, l);
      HappenedLater(past, l, s'.shared.error.value);
    }
  }

  lemma RecordedFrom(s: State, l: Label)
    requires Enabled(s, l)
    ensures Apply(s, l).shared.error == s.shared.error
            || (s.shared.error == None && Apply(s, l).shared.error == FailureOf(s.pcs[l.actor]))
  {
    if Drains(s, l) {
      DrainStep(s, l);
      DrainErrors(l.actor, Here(s, l), l.action.split, l.action.outcome);
    } else if Alone(s, l) {
      AdvancedFailure(l.actor, s.pcs[l.actor], s.shared, l.action.outcome);
    }
  }

  lemma {:induction false} RunErrors(s: State, labels: seq<Label>, past: seq<Label>)
    requires ErrorsHappened(s, past)
    ensures exists taken: nat :: taken <= |labels| && ErrorsHappened(Run(s, labels), past + labels[..taken])
    decreases |labels|
  {
    if labels == [] || !Enabled(s, labels[0]) {
      assert past + labels[..0] == past;
    } else {
      ErrorStep(s, labels[0], past);
      RunErrors(Apply(s, labels[0]), labels[1..], past + [labels[0]]);
      var taken: nat :| taken <= |labels[1..]|
                        && ErrorsHappened(Run(s, labels), past + [labels[0]] + labels[1..][..taken]);
      assert past + [labels[0]] + labels[1..][..taken] == past + labels[..taken + 1];
    }
  }

  /** The recorded error is one that a write or flush of this run really failed with. */
  lemma RecordedErrorHappened(s: State, capacity: nat, actors: nat, labels: seq<Label>)
    requires Reachable(s, capacity, actors, labels) && s.shared.error.Some?
    ensures exists k: nat, b: nat :: k < |labels| && FailsWith(labels[k], b, s.shared.error.value)
  {
    RunErrors(Initial(capacity, actors), labels, []);
    var taken: nat :| taken <= |labels| && ErrorsHappened(s, [] + labels[..taken]);
    assert [] + labels[..taken] == labels[..taken];
    var k: nat, b: nat :| k < taken && FailsWith(labels[..taken][k], b, s.shared.error.value);
    assert labels[..taken][k] == labels[k];
  }
}
