/** What a flush guarantees when it returns, and the main results of the output protocol. */
module OutputFlush {
  import opened Prelude
  import opened Output
  import opened OutputSafety
  import opened OutputErrors

  // ------------------------------------------------------------ progress

  predicate Grew(b: Buffer, b': Buffer) {
    Handed(b) <= Handed(b') && |b.fates| <= |b'.fates|
  }

  /** A drain on behalf of a flush will settle (or has settled) this many packets. */
  predicate WillSettle(b: Buffer, at: At, target: nat) {
    match at
    case WantConsumer => true
    case WantWriter => true
    case Reading => true
    case Checking(_, count) => target <= |b.fates| + count
    case WritingFirst(_, count) => target <= |b.fates| + count
    case WritingSecond(_, count, _) => target <= |b.fates| + count
    case _ => target <= |b.fates|
  }

  /** How many of its buffers a flush is done with. */
  function DoneWith(pc: Pc, flush: Flush): int {
    if pc.Draining? then flush.next - 1 else flush.next
  }

  /** A flush past its drains. */
  predicate PastDrains(pc: Pc) {
    || pc.FlushWantWriter? || pc.FlushWriting? || pc.FlushFreeing? || pc.FlushChecking? || pc.FlushReporting?
    || pc.Returned?
    || (pc.Recording? && pc.next.Conclude?)
  }

  ghost predicate TargetsMet(buffers: seq<Buffer>, targets: seq<nat>, done: int)
    requires done <= |targets| <= |buffers|
  {
    && (forall i: nat :: i < |targets| ==> targets[i] <= Handed(buffers[i]))
    && (forall i: nat :: i < done ==> targets[i] <= |buffers[i].fates|)
  }

  ghost predicate FlushProgresses(buffers: seq<Buffer>, pc: Pc) {
    FlushOf(pc).Some? ==>
      var flush := FlushOf(pc).value;
      && flush.next <= |flush.targets| <= |buffers|
      && TargetsMet(buffers, flush.targets, DoneWith(pc, flush))
      && (PastDrains(pc) ==> flush.next == |flush.targets|)
      && (pc.Draining? ==> pc.job.next.Continue? && flush.next == pc.job.buffer + 1
                           && WillSettle(buffers[pc.job.buffer], pc.at, flush.targets[pc.job.buffer]))
  }

  ghost predicate ProgressOk(s: State) {
    forall a: nat :: a < |s.pcs| ==> FlushProgresses(s.buffers, s.pcs[a])
  }

  lemma DrainGrows(a: nat, i: nat, l: Local, split: nat, outcome: Outcome)
    requires DrainCan(l, split, outcome) && LocalOk(a, i, l)
    ensures Grew(l.b, Drained(a, l, split, outcome).b)
  {
    EmptyQueue(l.b);
  }

  lemma DrainSettles(a: nat, i: nat, l: Local, split: nat, outcome: Outcome, target: nat)
    requires DrainCan(l, split, outcome) && LocalOk(a, i, l)
    requires target <= Handed(l.b) && WillSettle(l.b, l.pc.at, target)
    ensures var l' := Drained(a, l, split, outcome);
            if l'.pc.Draining? then WillSettle(l'.b, l'.pc.at, target) else target <= |l'.b.fates|
  {
    EmptyQueue(l.b);
  }

  /** Progress only depends on what buffers have handed over and settled. */
  lemma ProgressGrows(buffers: seq<Buffer>, buffers': seq<Buffer>, pc: Pc)
    requires FlushProgresses(buffers, pc)
    requires |buffers| <= |buffers'| && forall i: nat :: i < |buffers| ==> Grew(buffers[i], buffers'[i])
    ensures FlushProgresses(buffers', pc)
  {
  }

  lemma StepGrows(s: State, l: Label)
    requires Safe(s) && Enabled(s, l)
    ensures var s' := Apply(s, l);
            |s.buffers| <= |s'.buffers| && forall i: nat :: i < |s.buffers| ==> Grew(s.buffers[i], s'.buffers[i])
  {
    if Drains(s, l) {
      DrainStep(s, l);
      LocalHolds(s, l.actor);
      DrainGrows(l.actor, s.pcs[l.actor].job.buffer, Here(s, l), l.action.split, l.action.outcome);
    } else {
      OtherGrows(s, l);
    }
  }

  lemma OtherGrows(s: State, l: Label)
    requires Safe(s) && Enabled(s, l) && !Drains(s, l)
    ensures var s' := Apply(s, l);
            |s.buffers| <= |s'.buffers| && forall i: nat :: i < |s.buffers| ==> Grew(s.buffers[i], s'.buffers[i])
  {
    match l.action
    case Produce(buffer, packet) => assert BufferOk(s.buffers[buffer]);
    case Advance(split, outcome) =>
      if s.pcs[l.actor].Pushing? {
        assert BufferOk(s.buffers[s.pcs[l.actor].buffer]);
      }
    case _ =>
  }

  lemma OwnDrainProgresses(s: State, l: Label)
    requires Safe(s) && ProgressOk(s) && Drains(s, l)
    ensures FlushProgresses(Apply(s, l).buffers, Apply(s, l).pcs[l.actor])
  {
    DrainStep(s, l);
    StepGrows(s, l);
    LocalHolds(s, l.actor);
    var pc := s.pcs[l.actor];
    var s' := Apply(s, l);
    ProgressGrows(s.buffers, s'.buffers, pc);
    DrainFlush(l.actor, Here(s, l), l.action.split, l.action.outcome);
    DrainLocks(l.actor, Here(s, l), l.action.split, l.action.outcome);
    if FlushOf(pc).Some? {
      var target := FlushOf(pc).value.targets[pc.job.buffer];
      DrainSettles(l.actor, pc.job.buffer, Here(s, l), l.action.split, l.action.outcome, target);
      DrainEnds(l.actor, Here(s, l), l.action.split, l.action.outcome);
    }
  }

  lemma DrainEnds(a: nat, l: Local, split: nat, outcome: Outcome)
    requires DrainCan(l, split, outcome) && l.pc.job.next.Continue?
    ensures var pc' := Drained(a, l, split, outcome).pc;
            pc'.Draining? || (!PastDrains(pc') && FlushOf(pc') == FlushOf(l.pc))
  {
  }

  lemma AdvancedProgresses(buffers: seq<Buffer>, a: nat, pc: Pc, shared: Shared, outcome: Outcome)
    requires Focus(pc).None? && !pc.Idle? && FlushProgresses(buffers, pc)
    ensures FlushProgresses(buffers, Advanced(a, pc, shared, outcome).0)
  {
  }

  lemma ProgressKept(s: State, l: Label)
    requires Safe(s) && ProgressOk(s) && Enabled(s, l)
    ensures ProgressOk(Apply(s, l))
  {
    var s' := Apply(s, l);
    StepGrows(s, l);
    forall a: nat | a < |s'.pcs|
      ensures FlushProgresses(s'.buffers, s'.pcs[a])
    {
      ProgressGrows(s.buffers, s'.buffers, s.pcs[a]);
      if a == l.actor {
        if Drains(s, l) {
          OwnDrainProgresses(s, l);
        } else if Alone(s, l) {
          AdvancedProgresses(s.buffers, a, s.pcs[a], s.shared, l.action.outcome);
        }
      }
    }
  }

  lemma {:induction false} RunProgresses(s: State, labels: seq<Label>)
    requires Safe(s) && ProgressOk(s)
    ensures ProgressOk(Run(s, labels))
    decreases |labels|
  {
    if labels != [] && Enabled(s, labels[0]) {
      ProgressKept(s, labels[0]);
      StepKeeps(s, labels[0]);
      RunProgresses(Apply(s, labels[0]), labels[1..]);
    }
  }

  // ------------------------------------------------------------ main results

  ghost predicate Reachable(s: State, capacity: nat, actors: nat, labels: seq<Label>) {
    s == Run(Initial(capacity, actors), labels)
  }

  lemma ReachableHolds(s: State, capacity: nat, actors: nat, labels: seq<Label>)
    requires Reachable(s, capacity, actors, labels)
    ensures Safe(s) && ErrorInv(s) && ProgressOk(s)
  {
    InitialIsSafe(capacity, actors);
    RunIsSafe(Initial(capacity, actors), labels);
    RunKeepsErrors(Initial(capacity, actors), labels);
    RunProgresses(Initial(capacity, actors), labels);
  }

  lemma {:induction false} AllDeliveredIsExact(fates: seq<Fate>)
    ensures |Delivered(fates)| <= |fates|
    ensures AllDelivered(fates) <==> Delivered(fates) == PacketsOf(fates)
    ensures AllDelivered(fates) <==> |Delivered(fates)| == |fates|
    decreases |fates|
  {
    if fates != [] {
      var front, last := fates[..|fates| - 1], fates[|fates| - 1];
      AllDeliveredIsExact(front);
      assert PacketsOf(fates) == PacketsOf(front) + [last.packet];
      assert AllDelivered(fates) <==> AllDelivered(front) && last.delivered;
    }
  }

  function PacketsIn(segments: seq<Segment>): seq<Packet>
    requires AllWhole(segments)
  {
    seq(|segments|, k requires 0 <= k < |segments| => segments[k].packet)
  }

  lemma {:induction false} WholeIsConcat(segments: seq<Segment>)
    requires AllWhole(segments)
    ensures Flatten(segments) == Concat(PacketsIn(segments))
    decreases |segments|
  {
    if segments != [] {
      var front, last := segments[..|segments| - 1], segments[|segments| - 1];
      WholeIsConcat(front);
      assert PacketsIn(segments) == PacketsIn(front) + [last.packet];
      ConcatPush(PacketsIn(front), last.packet);
    }
  }

  /**
   In every reachable state: what a thread's packets have become, those in its queue
   and the one in its hand are exactly what it produced, in order; the sink is whole
   packets and torn writes. Without a failed write nothing is torn or dropped, so each
   thread's share of the sink is an unbroken prefix of what it produced.
   */
  lemma LosslessOrderedUnsplit(s: State, capacity: nat, actors: nat, labels: seq<Label>)
    requires Reachable(s, capacity, actors, labels)
    ensures s.shared.sink == Flatten(s.shared.segments) + Partial(s)
    ensures s.shared.writer == None ==> Partial(s) == []
    ensures !s.shared.failed ==>
        AllWhole(s.shared.segments) && Flatten(s.shared.segments) == Concat(PacketsIn(s.shared.segments))
    ensures forall i: nat :: i < |s.buffers| ==>
              var b := s.buffers[i];
              && b.claimed <= |b.queued| && PacketsOf(b.fates) + b.queued[b.claimed..] + InHand(b) == b.produced
              && b.queue == Concat(b.queued) && (b.holder == None ==> b.claimed == 0)
              && Share(s.shared.segments, i) == Delivered(b.fates)
              && (Share(s.shared.segments, i) + b.queued[b.claimed..] + InHand(b) == b.produced
                  <==> AllDelivered(b.fates))
              && (!s.shared.failed ==> AllDelivered(b.fates))
  {
    ReachableHolds(s, capacity, actors, labels);
    if !s.shared.failed {
      WholeIsConcat(s.shared.segments);
    }
    forall i: nat | i < |s.buffers|
      ensures var b := s.buffers[i];
              && BufferOk(b)
              && (Share(s.shared.segments, i) + b.queued[b.claimed..] + InHand(b) == b.produced
                  <==> AllDelivered(b.fates))
    {
      var b := s.buffers[i];
      AllDeliveredIsExact(b.fates);
      assert |PacketsOf(b.fates) + b.queued[b.claimed..] + InHand(b)|
          == |b.fates| + |b.queued[b.claimed..] + InHand(b)|;
    }
  }

  /** Something has failed exactly if the flag shows it or an actor is about to record it. */
  lemma FailureIsVisible(s: State, capacity: nat, actors: nat, labels: seq<Label>)
    requires Reachable(s, capacity, actors, labels)
    ensures !s.shared.failed
       <==> !s.shared.hasError && forall a: nat :: a < |s.pcs| ==> FailureOf(s.pcs[a]) == None
  {
    ReachableHolds(s, capacity, actors, labels);
  }

  /** From any reachable state on: the first recorded error stays, and the flag stays. */
  lemma ErrorsAreSticky(s: State, capacity: nat, actors: nat, labels: seq<Label>, more: seq<Label>)
    requires Reachable(s, capacity, actors, labels)
    ensures s.shared.error.Some? ==> Run(s, more).shared.error == s.shared.error
    ensures s.shared.hasError ==> Run(s, more).shared.hasError && s.shared.error.Some?
  {
    ReachableHolds(s, capacity, actors, labels);
    RunKeepsErrors(s, more);
  }

  /** A drain that began after the flag was set never writes a byte. */
  lemma BegunDrainsWriteNothing(s: State, capacity: nat, actors: nat, labels: seq<Label>, l: Label)
    requires Reachable(s, capacity, actors, labels) && Enabled(s, l)
    ensures Apply(s, l).shared.sink != s.shared.sink ==> Drains(s, l) && !s.pcs[l.actor].job.begun
    ensures !(l.action.Advance? && s.pcs[l.actor].Draining?) && Apply(s, l).pcs[l.actor].Draining? ==>
              (Apply(s, l).pcs[l.actor].job.begun <==> s.shared.hasError)
  {
    ReachableHolds(s, capacity, actors, labels);
    QuietKept(s, l);
    if Alone(s, l) {
      AdvancedQuietly(l.actor, s.pcs[l.actor], s.shared, l.action.outcome);
      AdvancedStarts(l.actor, s.pcs[l.actor], s.shared, l.action.outcome);
    }
  }

  lemma AdvancedStarts(a: nat, pc: Pc, shared: Shared, outcome: Outcome)
    requires Focus(pc).None? && !pc.Idle?
    ensures var pc' := Advanced(a, pc, shared, outcome).0;
            pc'.Draining? ==> pc'.job.begun == shared.hasError
  {
  }

  lemma {:induction false} DeliveredAll(fates: seq<Fate>)
    requires AllDelivered(fates)
    ensures Delivered(fates) == PacketsOf(fates)
  {
    AllDeliveredIsExact(fates);
  }

  /**
   A flush that returns has settled every packet handed over before it began. It reports
   the first recorded error, and always does if the flag was set when it began. If at its
   return no failure is flagged or being recorded, all those packets are in the sink.
   */
  lemma FlushReturns(s: State, capacity: nat, actors: nat, labels: seq<Label>, a: nat)
    requires Reachable(s, capacity, actors, labels) && a < |s.pcs| && s.pcs[a].Returned?
    ensures var (flush, result) := (s.pcs[a].flush, s.pcs[a].result);
            && |flush.targets| <= |s.buffers|
            && (forall i: nat :: i < |flush.targets| ==> flush.targets[i] <= |s.buffers[i].fates|)
            && (result.Some? ==> result == s.shared.error)
            && (flush.begun ==> result.Some?)
            && (!s.shared.failed ==> result == None)
            && (!s.shared.failed ==>
                  (forall i: nat :: i < |flush.targets| ==>
                     && flush.targets[i] <= |Share(s.shared.segments, i)| <= |s.buffers[i].produced|
                     && Share(s.shared.segments, i) == s.buffers[i].produced[..|Share(s.shared.segments, i)|]))
  {
    ReachableHolds(s, capacity, actors, labels);
    var flush := s.pcs[a].flush;
    assert FlushProgresses(s.buffers, s.pcs[a]);
    if !s.shared.failed {
      forall i: nat | i < |flush.targets|
        ensures flush.targets[i] <= |Share(s.shared.segments, i)| <= |s.buffers[i].produced|
        ensures Share(s.shared.segments, i) == s.buffers[i].produced[..|Share(s.shared.segments, i)|]
      {
        SharePrefix(s, i);
      }
    }
  }

  /** One of the packets a flush set out to settle did not reach the sink. */
  ghost predicate MissesTarget(s: State, flush: Flush) {
    exists i: nat, k: nat :: i < |flush.targets| && i < |s.buffers| && k < flush.targets[i] && Lost(s.buffers[i], k)
  }

  /** The buffer's k-th packet was not delivered. */
  predicate Lost(b: Buffer, k: nat) {
    k >= |b.fates| || !b.fates[k].delivered
  }

  /** Some other actor stands between a failed write and its setting of the flag. */
  ghost predicate FailureInHand(s: State, a: nat) {
    exists b: nat :: b < |s.pcs| && b != a && FailureOf(s.pcs[b]).Some?
  }

  /**
   The moment a flush reads the flag, and finds it unset, it succeeds. If a packet it set
   out to settle is not in the sink, some other actor holds a failure it has not flagged
   yet; if none does, every such packet is in the sink, in order.
   */
  lemma FlushSucceeds(s: State, capacity: nat, actors: nat, labels: seq<Label>, a: nat, split: nat, outcome: Outcome)
    requires Reachable(s, capacity, actors, labels) && a < |s.pcs| && s.pcs[a].FlushChecking? && !s.shared.hasError
    ensures Apply(s, Label(a, Advance(split, outcome))).pcs[a] == Returned(s.pcs[a].flush, None)
    ensures MissesTarget(s, s.pcs[a].flush) ==> FailureInHand(s, a)
    ensures !FailureInHand(s, a) ==>
              forall i: nat :: i < |s.pcs[a].flush.targets| ==>
                && i < |s.buffers|
                && s.pcs[a].flush.targets[i] <= |Share(s.shared.segments, i)| <= |s.buffers[i].produced|
                && Share(s.shared.segments, i) == s.buffers[i].produced[..|Share(s.shared.segments, i)|]
  {
    ReachableHolds(s, capacity, actors, labels);
    var flush := s.pcs[a].flush;
    assert FlushProgresses(s.buffers, s.pcs[a]);
    if !FailureInHand(s, a) {
      assert FailureOf(s.pcs[a]) == None;
      assert !s.shared.failed;
      forall i: nat | i < |flush.targets|
        ensures flush.targets[i] <= |Share(s.shared.segments, i)| <= |s.buffers[i].produced|
        ensures Share(s.shared.segments, i) == s.buffers[i].produced[..|Share(s.shared.segments, i)|]
      {
        SharePrefix(s, i);
      }
    }
  }

  /** Without a failure a thread's share of the sink is the first of what it produced. */
  lemma SharePrefix(s: State, i: nat)
    requires Safe(s) && FaultlessOk(s) && !s.shared.failed && i < |s.buffers|
    ensures |Share(s.shared.segments, i)| == |s.buffers[i].fates| <= |s.buffers[i].produced|
    ensures Share(s.shared.segments, i) == s.buffers[i].produced[..|Share(s.shared.segments, i)|]
  {
    var b := s.buffers[i];
    assert BufferOk(b);
    DeliveredAll(b.fates);
    assert Share(s.shared.segments, i) + (b.queued[b.claimed..] + InHand(b)) == b.produced;
  }

  // ------------------------------------------------------------ the window before an error is recorded

  lemma RunStep(s: State, l: Label, s': State, rest: seq<Label>)
    requires Enabled(s, l) && Apply(s, l) == s'
    ensures Run(s, [l] + rest) == Run(s', rest)
  {
    assert ([l] + rest)[1..] == rest;
  }

  const GO: Action := Advance(1, Success)
  const CLEAN: Shared := Shared(None, None, [], None, false, [], false, 0)
  const BROKEN: Shared := Shared(None, None, [], None, false, [Torn([])], true, 0)

  /** One packet is produced and queued, and its thread begins to exit. */
  function QueueOne(rest: seq<Label>): seq<Label> {
    [Label(0, Register)] + ([Label(0, Produce(0, [7]))] + ([Label(0, GO)] + ([Label(0, Exit(0))] + rest)))
  }

  const QUEUED: Buffer := Buffer(0, [7], None, [[7]], 0, None, [[7]], [])
  const EXIT: Job := Job(0, None, false, Solo)

  lemma QueueOneRuns(rest: seq<Label>)
    ensures Run(Initial(1, 2), QueueOne(rest))
            == Run(State(1, [QUEUED], [Draining(EXIT, WantConsumer), Idle], CLEAN), rest)
  {
    var s1 := State(1, [NewBuffer(0)], [Idle, Idle], CLEAN);
    var s2 := State(1, [NewBuffer(0).(inFlight := Some([7]), produced := [[7]])], [Pushing(0, [7]), Idle], CLEAN);
    var s3 := State(1, [QUEUED], [Idle, Idle], CLEAN);
    var s4 := State(1, [QUEUED], [Draining(EXIT, WantConsumer), Idle], CLEAN);
    var rest3 := [Label(0, Exit(0))] + rest;
    var rest2 := [Label(0, GO)] + rest3;
    var rest1 := [Label(0, Produce(0, [7]))] + rest2;
    var none: seq<Packet> := [];
    assert none + [[7]] == [[7]] && NewBuffer(0).queue + [7] == [7];
    assert Apply(s1, Label(0, Produce(0, [7]))).buffers == s2.buffers;
    assert Apply(s2, Label(0, GO)).buffers == s3.buffers;
    RunStep(Initial(1, 2), Label(0, Register), s1, rest1);
    RunStep(s1, Label(0, Produce(0, [7])), s2, rest2);
    RunStep(s2, Label(0, GO), s3, rest3);
    RunStep(s3, Label(0, Exit(0)), s4, rest);
  }

  /** The exiting thread's drain reaches its write, which fails. */
  function FailWrite(rest: seq<Label>): seq<Label> {
    [Label(0, GO)]
        + ([Label(0, GO)] + ([Label(0, GO)] + ([Label(0, GO)] + ([Label(0, Advance(1, Failure(9, 0)))] + rest))))
  }

  const DISCARDED: Buffer := Buffer(0, [7], Some(0), [[7]], 1, None, [[7]], [Fate([7], false)])

  lemma FailWriteRuns(rest: seq<Label>)
    ensures Run(State(1, [QUEUED], [Draining(EXIT, WantConsumer), Idle], CLEAN), FailWrite(rest))
         == Run(State(1, [DISCARDED], [Draining(EXIT, Committing(1, 1, Some(9))), Idle], BROKEN.(writer := Some(0))),
                rest)
  {
    var b := QUEUED.(holder := Some(0));
    var locked := CLEAN.(writer := Some(0));
    var s0 := State(1, [QUEUED], [Draining(EXIT, WantConsumer), Idle], CLEAN);
    var s1 := State(1, [b], [Draining(EXIT, WantWriter), Idle], CLEAN);
    var s2 := State(1, [b], [Draining(EXIT, Reading), Idle], locked);
    var s3 := State(1, [b], [Draining(EXIT, Checking(1, 1)), Idle], locked);
    var s4 := State(1, [b], [Draining(EXIT, WritingFirst(1, 1)), Idle], locked);
    var s5 := State(1, [DISCARDED], [Draining(EXIT, Committing(1, 1, Some(9))), Idle], BROKEN.(writer := Some(0)));
    var rest4 := [Label(0, Advance(1, Failure(9, 0)))] + rest;
    var rest3 := [Label(0, GO)] + rest4;
    var rest2 := [Label(0, GO)] + rest3;
    var rest1 := [Label(0, GO)] + rest2;
    RunStep(s0, Label(0, GO), s1, rest1);
    RunStep(s1, Label(0, GO), s2, rest2);
    RunStep(s2, Label(0, GO), s3, rest3);
    RunStep(s3, Label(0, GO), s4, rest4);
    TornNothing(b);
    RunStep(s4, Label(0, Advance(1, Failure(9, 0))), s5, rest);
  }

  lemma TornNothing(b: Buffer)
    requires b == QUEUED.(holder := Some(0))
    ensures Tear(EXIT, 1, 1, b, CLEAN.(writer := Some(0)), 0, 0, 9)
         == Local(Draining(EXIT, Committing(1, 1, Some(9))), DISCARDED, BROKEN.(writer := Some(0)))
  {
    assert b.queue[0..0] == [] && b.queue[..0] == [] && b.queued[..1] == [[7]];
    assert Fates([[7]], false) == [Fate([7], false)];
  }

  /** It frees both locks, and has yet to record the error. */
  function FreeLocks(rest: seq<Label>): seq<Label> {
    [Label(0, GO)] + ([Label(0, GO)] + ([Label(0, GO)] + ([Label(0, GO)] + rest)))
  }

  const LOST: Buffer := Buffer(0, [], None, [], 0, None, [[7]], [Fate([7], false)])
  const WINDOW: State := State(1, [LOST], [Recording(9, WantError, Solo), Idle], BROKEN)

  lemma FreeLocksRuns(rest: seq<Label>)
    ensures Run(State(1, [DISCARDED], [Draining(EXIT, Committing(1, 1, Some(9))), Idle], BROKEN.(writer := Some(0))),
                FreeLocks(rest))
         == Run(WINDOW, rest)
  {
    var b := LOST.(holder := Some(0));
    var locked := BROKEN.(writer := Some(0));
    var s0 := State(1, [DISCARDED], [Draining(EXIT, Committing(1, 1, Some(9))), Idle], locked);
    var s1 := State(1, [b], [Draining(EXIT, CheckingTrailing(Some(9))), Idle], locked);
    var s2 := State(1, [b], [Draining(EXIT, FreeingWriter(Some(9))), Idle], locked);
    var s3 := State(1, [b], [Draining(EXIT, FreeingConsumer(Some(9))), Idle], BROKEN);
    var rest3 := [Label(0, GO)] + rest;
    var rest2 := [Label(0, GO)] + rest3;
    var rest1 := [Label(0, GO)] + rest2;
    assert DISCARDED.queue[1..] == [] && DISCARDED.queued[1..] == [];
    assert Apply(s0, Label(0, GO)).buffers == s1.buffers;
    RunStep(s0, Label(0, GO), s1, rest1);
    RunStep(s1, Label(0, GO), s2, rest2);
    RunStep(s2, Label(0, GO), s3, rest3);
    RunStep(s3, Label(0, GO), WINDOW, rest);
  }

  /** Meanwhile another thread flushes: it finds the queue empty. */
  function FlushLooks(rest: seq<Label>): seq<Label> {
    [Label(1, BeginFlush)] + ([Label(1, GO)] + ([Label(1, GO)] + ([Label(1, GO)] + ([Label(1, GO)] + rest))))
  }

  const FLUSH: Flush := Flush(0, [1], false)
  const DRAINED: Flush := Flush(1, [1], false)
  const LOOK: Job := Job(0, None, false, Continue(DRAINED))

  /** The flush has flushed the sink, too. */
  const SYNCED: Shared := BROKEN.(flushed := 1)

  /** A state in which the exiting thread has yet to record its error. */
  function Meanwhile(b: Buffer, flusher: Pc, writer: Option<nat>): State {
    State(1, [b], [Recording(9, WantError, Solo), flusher], BROKEN.(writer := writer))
  }

  lemma FlushLooksRuns(rest: seq<Label>)
    ensures Run(WINDOW, FlushLooks(rest))
         == Run(Meanwhile(LOST.(holder := Some(1)), Draining(LOOK, CheckingTrailing(None)), Some(1)), rest)
  {
    var b := LOST.(holder := Some(1));
    assert Targets([LOST]) == [1];
    var s1 := Meanwhile(LOST, FlushNext(FLUSH), None);
    var s2 := Meanwhile(LOST, Draining(LOOK, WantConsumer), None);
    var s3 := Meanwhile(b, Draining(LOOK, WantWriter), None);
    var s4 := Meanwhile(b, Draining(LOOK, Reading), Some(1));
    var s5 := Meanwhile(b, Draining(LOOK, CheckingTrailing(None)), Some(1));
    var rest4 := [Label(1, GO)] + rest;
    var rest3 := [Label(1, GO)] + rest4;
    var rest2 := [Label(1, GO)] + rest3;
    var rest1 := [Label(1, GO)] + rest2;
    RunStep(WINDOW, Label(1, BeginFlush), s1, rest1);
    RunStep(s1, Label(1, GO), s2, rest2);
    RunStep(s2, Label(1, GO), s3, rest3);
    RunStep(s3, Label(1, GO), s4, rest4);
    RunStep(s4, Label(1, GO), s5, rest);
  }

  function FlushLeaves(rest: seq<Label>): seq<Label> {
    [Label(1, GO)] + ([Label(1, GO)] + ([Label(1, GO)] + rest))
  }

  lemma FlushLeavesRuns(rest: seq<Label>)
    ensures Run(Meanwhile(LOST.(holder := Some(1)), Draining(LOOK, CheckingTrailing(None)), Some(1)), FlushLeaves(rest))
         == Run(Meanwhile(LOST, FlushNext(DRAINED), None), rest)
  {
    var b := LOST.(holder := Some(1));
    var s0 := Meanwhile(b, Draining(LOOK, CheckingTrailing(None)), Some(1));
    var s1 := Meanwhile(b, Draining(LOOK, FreeingWriter(None)), Some(1));
    var s2 := Meanwhile(b, Draining(LOOK, FreeingConsumer(None)), None);
    var s3 := Meanwhile(LOST, FlushNext(DRAINED), None);
    var rest2 := [Label(1, GO)] + rest;
    var rest1 := [Label(1, GO)] + rest2;
    RunStep(s0, Label(1, GO), s1, rest1);
    RunStep(s1, Label(1, GO), s2, rest2);
    RunStep(s2, Label(1, GO), s3, rest);
  }

  function FlushEnds(rest: seq<Label>): seq<Label> {
    [Label(1, GO)] + ([Label(1, GO)] + ([Label(1, GO)] + ([Label(1, GO)] + ([Label(1, GO)] + rest))))
  }

  lemma FlushEndsRuns(rest: seq<Label>)
    ensures Run(Meanwhile(LOST, FlushNext(DRAINED), None), FlushEnds(rest))
            == Run(Meanwhile(LOST, Returned(DRAINED, None), None).(shared := SYNCED), rest)
  {
    var s0 := Meanwhile(LOST, FlushNext(DRAINED), None);
    var s1 := Meanwhile(LOST, FlushWantWriter(DRAINED), None);
    var s2 := Meanwhile(LOST, FlushWriting(DRAINED), Some(1));
    var s3 := Meanwhile(LOST, FlushFreeing(DRAINED, None), Some(1)).(shared := SYNCED.(writer := Some(1)));
    var s4 := Meanwhile(LOST, FlushChecking(DRAINED), None).(shared := SYNCED);
    var s5 := Meanwhile(LOST, Returned(DRAINED, None), None).(shared := SYNCED);
    var rest4 := [Label(1, GO)] + rest;
    var rest3 := [Label(1, GO)] + rest4;
    var rest2 := [Label(1, GO)] + rest3;
    var rest1 := [Label(1, GO)] + rest2;
    RunStep(s0, Label(1, GO), s1, rest1);
    RunStep(s1, Label(1, GO), s2, rest2);
    RunStep(s2, Label(1, GO), s3, rest3);
    RunStep(s3, Label(1, GO), s4, rest4);
    RunStep(s4, Label(1, GO), s5, rest);
  }

  /**
   The error is recorded after the locks are released. In between, a flush on another
   thread succeeds although a packet handed over before it began is lost. By
   `FlushSucceeds` this window is the only way.
   */
  lemma FlushCanMissAFailure() returns (labels: seq<Label>)
    ensures Run(Initial(1, 2), labels) == Meanwhile(LOST, Returned(DRAINED, None), None).(shared := SYNCED)
    ensures LOST.produced == [[7]] && DRAINED.targets == [1] && SYNCED.sink == []
  {
    var looks := FlushLooks(FlushLeaves(FlushEnds([])));
    labels := QueueOne(FailWrite(FreeLocks(looks)));
    QueueOneRuns(FailWrite(FreeLocks(looks)));
    FailWriteRuns(FreeLocks(looks));
    FreeLocksRuns(looks);
    FlushLooksRuns(FlushLeaves(FlushEnds([])));
    FlushLeavesRuns(FlushEnds([]));
    FlushEndsRuns([]);
  }
}
