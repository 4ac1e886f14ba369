/**
 From callbacks to file and back: whatever order the drains wrote the threads' packets
 in, a reader that parses the file, sorts packets by sequence id and replays each
 sequence recovers what every thread's callbacks said.
 */
module EndToEnd {
  import opened Prelude
  import opened Wire
  import opened Interning
  import opened Events
  import opened InternedData
  import opened PacketFormats
  import opened Packets
  import opened Sequences
  import opened SequenceWriters
  import Output
  import OutputSafety
  import OutputErrors
  import OutputFlush

  /** A thread's sequence and all the packets its callbacks asked for. */
  datatype Thread = Thread(p: Params, es: seq<Emission>)

  ghost predicate ThreadOk(t: Thread) {
    Coherent(FRESH) && Ordered(false, t.es) && PacketsFit(EmitAll(t.p, FRESH, t.es).1)
  }

  ghost predicate ThreadsOk(threads: seq<Thread>) {
    && (forall t :: t in threads ==> ThreadOk(t))
    && (forall i: nat, j: nat :: i < j < |threads| ==> threads[i].p.sequenceId != threads[j].p.sequenceId)
  }

  ghost function FieldsOf(t: Thread): seq<seq<Field>>
    requires ThreadOk(t)
  {
    EmitAll(t.p, FRESH, t.es).1
  }

  // ------------------------------------------------------------ the file as packets

  /** Each whole packet of the sink is its thread's next, in the thread's own order. */
  ghost predicate Carries(segments: seq<Output.Segment>, threads: seq<Thread>)
    requires ThreadsOk(threads)
  {
    && (forall k :: 0 <= k < |segments| ==> segments[k].Whole? && segments[k].buffer < |threads|)
    && (forall i: nat :: i < |threads| ==>
          IsPrefix(Output.Share(segments, i), Framings(FieldsOf(threads[i]))))
  }

  predicate IsPrefix(part: seq<seq<byte>>, whole: seq<seq<byte>>) {
    |part| <= |whole| && forall k :: 0 <= k < |part| ==> part[k] == whole[k]
  }

  lemma ShareFront(segments: seq<Output.Segment>, i: nat)
    requires segments != [] && segments[|segments| - 1].Whole?
    ensures var last := segments[|segments| - 1];
            var front := Output.Share(segments[..|segments| - 1], i);
            Output.Share(segments, i) == if last.buffer == i then front + [last.packet] else front
  {
  }

  lemma FrontShares(segments: seq<Output.Segment>, whole: seq<seq<byte>>, i: nat)
    requires segments != [] && segments[|segments| - 1].Whole? && IsPrefix(Output.Share(segments, i), whole)
    ensures IsPrefix(Output.Share(segments[..|segments| - 1], i), whole)
    ensures segments[|segments| - 1].buffer == i ==>
              var m := |Output.Share(segments[..|segments| - 1], i)|;
              m < |whole| && segments[|segments| - 1].packet == whole[m]
  {
    ShareFront(segments, i);
    var front := Output.Share(segments[..|segments| - 1], i);
    assert forall k :: 0 <= k < |front| ==> Output.Share(segments, i)[k] == front[k];
    if segments[|segments| - 1].buffer == i {
      assert Output.Share(segments, i)[|front|] == segments[|segments| - 1].packet;
    }
  }

  lemma CarriesFront(segments: seq<Output.Segment>, threads: seq<Thread>)
    requires ThreadsOk(threads) && Carries(segments, threads) && segments != []
    ensures Carries(segments[..|segments| - 1], threads)
    ensures var (last, front) := (segments[|segments| - 1], segments[..|segments| - 1]);
            && last.Whole? && last.buffer < |threads|
            && var m := |Output.Share(front, last.buffer)|;
               m < |FieldsOf(threads[last.buffer])|
               && last.packet == EncodeField(Message(PACKET, FieldsOf(threads[last.buffer])[m]))
  {
    FrontCarries(segments, threads);
    var last := segments[|segments| - 1];
    FrontShares(segments, Framings(FieldsOf(threads[last.buffer])), last.buffer);
  }

  lemma FrontCarries(segments: seq<Output.Segment>, threads: seq<Thread>)
    requires ThreadsOk(threads) && Carries(segments, threads) && segments != []
    ensures Carries(segments[..|segments| - 1], threads)
  {
    forall i: nat | i < |threads|
      ensures IsPrefix(Output.Share(segments[..|segments| - 1], i), Framings(FieldsOf(threads[i])))
    {
      FrontShares(segments, Framings(FieldsOf(threads[i])), i);
    }
  }

  /** The file's packets as fields of one `Trace` message. */
  ghost function TraceOf(segments: seq<Output.Segment>, threads: seq<Thread>): (trace: seq<Field>)
    requires ThreadsOk(threads) && Carries(segments, threads)
    ensures |trace| == |segments|
    decreases |segments|
  {
    if segments == [] then []
    else
      CarriesFront(segments, threads);
      var (last, front) := (segments[|segments| - 1], segments[..|segments| - 1]);
      TraceOf(front, threads) + [Message(PACKET, FieldsOf(threads[last.buffer])[|Output.Share(front, last.buffer)|])]
  }

  lemma {:induction false} SinkIsTrace(segments: seq<Output.Segment>, threads: seq<Thread>)
    requires ThreadsOk(threads) && Carries(segments, threads)
    ensures Output.Flatten(segments) == EncodeAll(TraceOf(segments, threads))
    ensures FitsAll(TraceOf(segments, threads))
    decreases |segments|
  {
    if segments != [] {
      CarriesFront(segments, threads);
      var (last, front) := (segments[|segments| - 1], segments[..|segments| - 1]);
      var fields := FieldsOf(threads[last.buffer])[|Output.Share(front, last.buffer)|];
      SinkIsTrace(front, threads);
      EncodeAllAppend(TraceOf(front, threads), [Message(PACKET, fields)]);
      EncodeAllOne(Message(PACKET, fields));
      FitsAllAppend(TraceOf(front, threads), [Message(PACKET, fields)]);
      assert threads[last.buffer] in threads;
      assert Fits(Message(PACKET, fields));
      OneFits(Message(PACKET, fields));
    }
  }

  lemma OneFits(f: Field)
    requires Fits(f)
    ensures FitsAll([f])
  {
    assert [f][1..] == [];
  }

  // ------------------------------------------------------------ sorting by sequence

  /** The sequence a packet's payload names. */
  function SequenceOf(payload: seq<byte>): Option<nat> {
    match Parse(payload)
    case None => None
    case Some(fields) => FindVarint(fields, TRUSTED_PACKET_SEQUENCE_ID)
  }

  /** The payloads of one sequence, in file order. */
  function Sorted(packets: seq<WireField>, sequence: nat): seq<seq<byte>> {
    if packets == [] then []
    else
      var others, last := Sorted(packets[..|packets| - 1], sequence), packets[|packets| - 1];
      if IsBytes(last, PACKET) && SequenceOf(last.bytes) == Some(sequence) then others + [last.bytes] else others
  }

  lemma EmissionNamesSequence(p: Params, st: State, e: Emission)
    requires Coherent(st) && (e.Initial? || st.started) && FitsAll(Emit(p, st, e).1)
    ensures SequenceOf(EncodeAll(Emit(p, st, e).1)) == Some(p.sequenceId)
  {
    var fields := Emit(p, st, e).1;
    ParseRoundTrip(fields);
    match e
    case Initial(raw, opening) =>
      var snapshot := SnapshotField(SaturatingSub(raw, p.anchor), opening);
      assert FlatAll(fields)[..6] == FlatAll(FirstHeader(p, opening));
      FirstHeaderFound(FlatAll(fields), p, opening, EncodeAll(snapshot.body));
    case Ordinary(raw, body) =>
      var (ts, field) := LowerBody(st.tables, body);
      LaterShapeHolds(p, st, raw, body);
      LaterHeaderFound(FlatAll(fields), p, SaturatingSub(raw, st.last), Flat(field),
                       if NothingPending(ts) then None else Some(EncodeAll(PendingFields(ts))));
  }

  lemma {:induction false} RunNamesSequence(p: Params, st: State, es: seq<Emission>, k: nat)
    requires Coherent(st) && Ordered(st.started, es) && PacketsFit(EmitAll(p, st, es).1) && k < |es|
    ensures SequenceOf(EncodeAll(EmitAll(p, st, es).1[k])) == Some(p.sequenceId)
    decreases |es|
  {
    OrderedTail(st.started, es);
    var (st', fields) := Emit(p, st, es[0]);
    var all, others := EmitAll(p, st, es).1, EmitAll(p, st', es[1..]).1;
    assert all == [fields] + others;
    assert fields in all && forall f :: f in others ==> f in all;
    assert Fits(Message(PACKET, fields));
    if k == 0 {
      EmissionNamesSequence(p, st, es[0]);
    } else {
      RunNamesSequence(p, st', es[1..], k - 1);
    }
  }

  /** Sorting by sequence id gives each thread its own packets back, in order. */
  lemma {:induction false} SortedIsShare(segments: seq<Output.Segment>, threads: seq<Thread>, i: nat)
    requires ThreadsOk(threads) && Carries(segments, threads) && i < |threads|
    ensures var k := |Output.Share(segments, i)|;
            && k <= |FieldsOf(threads[i])|
            && Sorted(FlatAll(TraceOf(segments, threads)), threads[i].p.sequenceId)
                == Payloads(FieldsOf(threads[i])[..k])
    decreases |segments|
  {
    if segments != [] {
      CarriesFront(segments, threads);
      var (last, front) := (segments[|segments| - 1], segments[..|segments| - 1]);
      var m := |Output.Share(front, last.buffer)|;
      SortedIsShare(front, threads, i);
      ShareFront(segments, i);
      LastNamed(threads, last.buffer, m);
      SortedStep(TraceOf(front, threads), FieldsOf(threads[last.buffer])[m], threads[last.buffer].p.sequenceId,
                 threads[i].p.sequenceId);
      SequencesDiffer(threads, last.buffer, i);
      if last.buffer == i {
        PrefixPush(FieldsOf(threads[i]), m);
      }
    }
  }

  lemma LastNamed(threads: seq<Thread>, i: nat, m: nat)
    requires ThreadsOk(threads) && i < |threads| && m < |FieldsOf(threads[i])|
    ensures SequenceOf(EncodeAll(FieldsOf(threads[i])[m])) == Some(threads[i].p.sequenceId)
  {
    assert threads[i] in threads;
    RunNamesSequence(threads[i].p, FRESH, threads[i].es, m);
  }

  lemma SequencesDiffer(threads: seq<Thread>, i: nat, j: nat)
    requires ThreadsOk(threads) && i < |threads| && j < |threads|
    ensures threads[i].p.sequenceId == threads[j].p.sequenceId <==> i == j
  {
  }

  lemma PrefixPush(packets: seq<seq<Field>>, m: nat)
    requires m < |packets|
    ensures Payloads(packets[..m + 1]) == Payloads(packets[..m]) + [EncodeAll(packets[m])]
  {
    assert packets[..m + 1] == packets[..m] + [packets[m]];
    PayloadsPush(packets[..m], packets[m]);
  }

  /** One more packet belongs to the sequence it names. */
  lemma SortedStep(trace: seq<Field>, fields: seq<Field>, named: nat, sequence: nat)
    requires SequenceOf(EncodeAll(fields)) == Some(named)
    ensures Sorted(FlatAll(trace + [Message(PACKET, fields)]), sequence)
         == Sorted(FlatAll(trace), sequence) + if named == sequence then [EncodeAll(fields)] else []
  {
    FlatAllAppend(trace, [Message(PACKET, fields)]);
    var ws := FlatAll(trace + [Message(PACKET, fields)]);
    assert ws[..|ws| - 1] == FlatAll(trace);
    assert ws[|ws| - 1] == Flat(Message(PACKET, fields));
    assert Sorted(FlatAll(trace), sequence) + [] == Sorted(FlatAll(trace), sequence);
  }

  lemma {:induction false} PayloadsPush(packets: seq<seq<Field>>, fields: seq<Field>)
    ensures Payloads(packets + [fields]) == Payloads(packets) + [EncodeAll(fields)]
    decreases |packets|
  {
    if packets == [] {
      assert (packets + [fields])[1..] == [];
    } else {
      assert (packets + [fields])[1..] == packets[1..] + [fields];
      PayloadsPush(packets[1..], fields);
    }
  }

  // ------------------------------------------------------------ replaying a prefix

  lemma {:induction false} EmitPrefix(p: Params, st: State, es: seq<Emission>, k: nat)
    requires Coherent(st) && Ordered(st.started, es) && k <= |es|
    ensures Ordered(st.started, es[..k])
    ensures EmitAll(p, st, es[..k]).1 == EmitAll(p, st, es).1[..k]
    decreases |es|
  {
    if k > 0 {
      OrderedTail(st.started, es);
      var st' := Emit(p, st, es[0]).0;
      EmitPrefix(p, st', es[1..], k - 1);
      assert es[..k][1..] == es[1..][..k - 1] && es[..k][0] == es[0];
    }
  }

  lemma AllExtendSelf(ts: Tables)
    ensures AllExtend(ts, ts)
  {
  }

  lemma ThreadReplays(t: Thread, k: nat) returns (reader: Reader, final: Tables)
    requires ThreadOk(t) && k <= |t.es|
    ensures Ordered(false, t.es[..k]) && EmissionsKnown(final, t.es[..k])
    ensures final == EmitAll(t.p, FRESH, t.es[..k]).0.tables
    ensures Replay(NEW_READER, Payloads(FieldsOf(t)[..k]))
         == Some((reader, SeenAll(t.p, final, Times(t.p, FRESH, t.es[..k]), t.es[..k])))
  {
    EmitPrefix(t.p, FRESH, t.es, k);
    var fields := EmitAll(t.p, FRESH, t.es[..k]).1;
    assert AllFit(fields) by {
      forall f | f in fields
        ensures FitsAll(f)
      {
        assert f in FieldsOf(t);
        assert Fits(Message(PACKET, f));
      }
    }
    final := EmitAll(t.p, FRESH, t.es[..k]).0.tables;
    AllExtendSelf(final);
    reader := RunReplays(t.p, NEW_READER, FRESH, t.es[..k], final);
  }

  // ------------------------------------------------------------ the whole layer

  /** Each thread has produced the first packets of its run, in order. */
  ghost predicate Produces(s: Output.State, threads: seq<Thread>)
    requires ThreadsOk(threads)
  {
    |s.buffers| == |threads| && forall i: nat :: i < |threads| ==>
        IsPrefix(s.buffers[i].produced, Framings(FieldsOf(threads[i])))
  }

  /**
   In any reachable state of the output protocol without a failed write and with the sink
   at rest: the file parses; and for every thread, sorting its packets by sequence id and
   replaying them with one stateful reader yields exactly what the first of the thread's
   emissions meant, as many as have left its queue.
   */
  lemma FileReplays(s: Output.State, capacity: nat, actors: nat, labels: seq<Output.Label>,
                    threads: seq<Thread>, i: nat)
    returns (reader: Reader, final: Tables, k: nat)
    requires OutputFlush.Reachable(s, capacity, actors, labels) && !s.shared.failed && s.shared.writer == None
    requires ThreadsOk(threads) && Produces(s, threads) && i < |threads|
    ensures Parse(s.shared.sink).Some?
    ensures k == |s.buffers[i].fates| <= |threads[i].es| && Ordered(false, threads[i].es[..k])
    ensures EmissionsKnown(final, threads[i].es[..k])
    ensures final == EmitAll(threads[i].p, FRESH, threads[i].es[..k]).0.tables
    ensures Replay(NEW_READER, Sorted(Parse(s.shared.sink).value, threads[i].p.sequenceId))
         == Some((reader,
                  SeenAll(threads[i].p, final, Times(threads[i].p, FRESH, threads[i].es[..k]), threads[i].es[..k])))
  {
    OutputFlush.LosslessOrderedUnsplit(s, capacity, actors, labels);
    OutputFlush.ReachableHolds(s, capacity, actors, labels);
    CarriesAll(s, threads);
    SinkIsTrace(s.shared.segments, threads);
    assert s.shared.sink == EncodeAll(TraceOf(s.shared.segments, threads));
    ParseRoundTrip(TraceOf(s.shared.segments, threads));
    SortedIsShare(s.shared.segments, threads, i);
    k := |Output.Share(s.shared.segments, i)|;
    OutputFlush.AllDeliveredIsExact(s.buffers[i].fates);
    assert threads[i] in threads;
    reader, final := ThreadReplays(threads[i], k);
  }

  lemma CarriesAll(s: Output.State, threads: seq<Thread>)
    requires ThreadsOk(threads) && Produces(s, threads)
    requires OutputErrors.AllWhole(s.shared.segments) && OutputSafety.Inv(s)
    requires forall i: nat :: i < |s.buffers| ==> OutputErrors.AllDelivered(s.buffers[i].fates)
    ensures Carries(s.shared.segments, threads)
  {
    forall i: nat | i < |threads|
      ensures IsPrefix(Output.Share(s.shared.segments, i), Framings(FieldsOf(threads[i])))
    {
      var b := s.buffers[i];
      assert OutputSafety.BufferOk(b);
      OutputFlush.DeliveredAll(b.fates);
      assert Output.Share(s.shared.segments, i) == Output.PacketsOf(b.fates);
      assert forall k :: 0 <= k < |b.fates| ==> b.produced[k] == Output.PacketsOf(b.fates)[k];
      assert IsPrefix(b.produced, Framings(FieldsOf(threads[i])));
    }
    OwnersInRange(s, |threads|);
  }

  /** Only registered buffers have segments. */
  lemma OwnersInRange(s: Output.State, n: nat)
    requires OutputSafety.Inv(s) && n == |s.buffers| && OutputErrors.AllWhole(s.shared.segments)
    ensures forall k :: 0 <= k < |s.shared.segments| ==> s.shared.segments[k].buffer < n
  {
    forall k | 0 <= k < |s.shared.segments|
      ensures s.shared.segments[k].buffer < n
    {
      SharedSegment(s.shared.segments, k);
    }
  }

  lemma {:induction false} SharedSegment(segments: seq<Output.Segment>, k: nat)
    requires k < |segments| && segments[k].Whole?
    ensures Output.Share(segments, segments[k].buffer) != []
    decreases |segments|
  {
    if k < |segments| - 1 {
      SharedSegment(segments[..|segments| - 1], k);
    }
  }
}
