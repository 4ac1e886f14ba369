/**
 The output protocol as a state machine. Producers push whole packets into bounded
 queues; overflow, thread exit and flush drain the queues into one sink under a consumer
 lock and then the writer lock. A label chooses the actor and whatever the environment
 decides: the packet produced, where the ring buffer wraps, whether a write fails.
 */
module Output {
  import opened Prelude

  type Packet = p: seq<byte> | p != [] witness [0]

  /** An `std::io::Error`, as an uninterpreted value. */
  type Error = nat

  /** What became of a packet after it left its producer and its queue. */
  datatype Fate = Fate(packet: Packet, delivered: bool)

  /**
   A thread's queue. `queue`, `owner` and `holder` (of the consumer lock) are real; the
   rest is history: the packets still in the queue, how many of them already have their
   fate, the packet in its producer's hand, all packets ever produced, and their fates.
   */
  datatype Buffer = Buffer(
    owner: nat, queue: seq<byte>, holder: Option<nat>,
    queued: seq<Packet>, claimed: nat, inFlight: Option<Packet>, produced: seq<Packet>, fates: seq<Fate>)

  /** The sink's history: whole packets, and the torn output of failed writes. */
  datatype Segment = Whole(buffer: nat, packet: Packet) | Torn(bytes: seq<byte>)

  /**
   A flush in progress: the buffers it snapshot, how many it has drained, whether the
   error flag was set when it began, and how many packets each buffer had queued or
   settled by then.
   */
  datatype Flush = Flush(next: nat, targets: seq<nat>, begun: bool)

  /** What an actor does when its drain, or its error, is dealt with. */
  datatype Next = Solo | Continue(flush: Flush) | Conclude(flush: Flush)

  /** A drain of `buffer` followed by `trailing`; `begun` says the error flag was set when it began. */
  datatype Job = Job(buffer: nat, trailing: Option<Packet>, begun: bool, next: Next)

  /** `size` bytes, `count` packets, were available when the drain looked. */
  datatype At =
    | WantConsumer
    | WantWriter
    | Reading
    | Checking(size: nat, count: nat)
    | WritingFirst(size: nat, count: nat)
    | WritingSecond(size: nat, count: nat, split: nat)
    | Committing(size: nat, count: nat, failure: Option<Error>)
    | CheckingTrailing(failure: Option<Error>)
    | WritingTrailing
    | FreeingWriter(failure: Option<Error>)
    | FreeingConsumer(failure: Option<Error>)

  datatype Recorder = WantError | Setting | Flagging | FreeingError

  datatype Pc =
    | Idle
    | Pushing(buffer: nat, packet: Packet)
    | Draining(job: Job, at: At)
    | Recording(error: Error, recorder: Recorder, next: Next)
    | FlushNext(flush: Flush)
    | FlushWantWriter(flush: Flush)
    | FlushWriting(flush: Flush)
    | FlushFreeing(flush: Flush, failure: Option<Error>)
    | FlushChecking(flush: Flush)
    | FlushReporting(flush: Flush)
    | Returned(flush: Flush, result: Option<Error>)

  /**
   What all actors share. `segments`, `failed` (some write or flush failed) and `flushed`
   (how many segments the sink had when it was last flushed) are history.
   */
  datatype Shared = Shared(
    writer: Option<nat>, errorLock: Option<nat>,
    sink: seq<byte>, error: Option<Error>, hasError: bool,
    segments: seq<Segment>, failed: bool, flushed: nat)

  datatype State = State(capacity: nat, buffers: seq<Buffer>, pcs: seq<Pc>, shared: Shared)

  /** A write either succeeds or writes a strict prefix and fails. */
  datatype Outcome = Success | Failure(error: Error, written: nat)

  /** `Advance` takes an actor's next step; the others start something. */
  datatype Action =
    | Register
    | Produce(buffer: nat, packet: Packet)
    | Exit(buffer: nat)
    | BeginFlush
    | Advance(split: nat, outcome: Outcome)

  datatype Label = Label(actor: nat, action: Action)

  // ------------------------------------------------------------ steps

  function NewBuffer(owner: nat): Buffer {
    Buffer(owner, [], None, [], 0, None, [], [])
  }

  function Initial(capacity: nat, actors: nat): State {
    State(capacity, [], seq(actors, i requires 0 <= i < actors => Idle),
          Shared(None, None, [], None, false, [], false, 0))
  }

  function Fates(packets: seq<Packet>, delivered: bool): seq<Fate> {
    seq(|packets|, i requires 0 <= i < |packets| => Fate(packets[i], delivered))
  }

  function Wholes(buffer: nat, packets: seq<Packet>): seq<Segment> {
    seq(|packets|, i requires 0 <= i < |packets| => Whole(buffer, packets[i]))
  }

  /** The first packets of a queue have their fate; they stay queued until committed. */
  function Settle(b: Buffer, count: nat, delivered: bool): Buffer
    requires count <= |b.queued|
  {
    b.(claimed := count, fates := b.fates + Fates(b.queued[..count], delivered))
  }

  /** The packet in the producer's hand has its fate. */
  function SettleTrailing(b: Buffer, delivered: bool): Buffer {
    if b.inFlight.None? then b
    else b.(inFlight := None, fates := b.fates + [Fate(b.inFlight.value, delivered)])
  }

  function Written(shared: Shared, bytes: seq<byte>, segments: seq<Segment>): Shared {
    shared.(sink := shared.sink + bytes, segments := shared.segments + segments)
  }

  /** How many packets a buffer has had, less the one still in its producer's hand. */
  function Handed(b: Buffer): nat {
    if b.claimed <= |b.queued| then |b.fates| + |b.queued| - b.claimed else 0
  }

  function Targets(buffers: seq<Buffer>): seq<nat> {
    seq(|buffers|, i requires 0 <= i < |buffers| => Handed(buffers[i]))
  }

  function Resumed(next: Next): Pc {
    match next
    case Solo => Idle
    case Continue(flush) => FlushNext(flush)
    case Conclude(flush) => FlushChecking(flush)
  }

  function Finished(failure: Option<Error>, next: Next): Pc {
    if failure.Some? then Recording(failure.value, WantError, next) else Resumed(next)
  }

  /** An actor, the buffer it works on and the shared state: all that most steps touch. */
  datatype Local = Local(pc: Pc, b: Buffer, shared: Shared)

  /** A packet is queued whole or, if it does not fit, becomes the trailing part of a drain. */
  function Push(capacity: nat, buffer: nat, packet: Packet, b: Buffer, shared: Shared): Local {
    if |b.queue| + |packet| <= capacity then
      Local(Idle, b.(queue := b.queue + packet, queued := b.queued + [packet], inFlight := None), shared)
    else
      Local(Draining(Job(buffer, Some(packet), shared.hasError, Solo), WantConsumer), b, shared)
  }

  predicate DrainEnabled(job: Job, at: At, b: Buffer, shared: Shared, split: nat, outcome: Outcome) {
    match at
    case WantConsumer => b.holder == None
    case WantWriter => shared.writer == None
    case Checking(_, count) => count <= |b.queued|
    case WritingFirst(size, count) =>
      0 < split <= size <= |b.queue| && count <= |b.queued| && (outcome.Failure? ==> outcome.written < split)
    case WritingSecond(size, count, at) =>
      at <= size <= |b.queue| && count <= |b.queued| && (outcome.Failure? ==> outcome.written < size - at)
    case Committing(size, count, _) => size <= |b.queue| && count <= |b.queued|
    case WritingTrailing => job.trailing.Some? && (outcome.Failure? ==> outcome.written < |job.trailing.value|)
    case _ => true
  }

  /** The next step of a drain by `actor`. */
  function Drain(actor: nat, job: Job, at: At, b: Buffer, shared: Shared, split: nat, outcome: Outcome): Local
    requires DrainEnabled(job, at, b, shared, split, outcome)
  {
    match at
    case WantConsumer => Local(Draining(job, WantWriter), b.(holder := Some(actor)), shared)
    case WantWriter => Local(Draining(job, Reading), b, shared.(writer := Some(actor)))
    case Reading =>
      Local(Draining(job, if b.queue == [] then CheckingTrailing(None) else Checking(|b.queue|, |b.queued|)), b, shared)
    case Checking(size, count) =>
      if shared.hasError then Local(Draining(job, Committing(size, count, None)), Settle(b, count, false), shared)
      else Local(Draining(job, WritingFirst(size, count)), b, shared)
    case WritingFirst(size, count) =>
      (match outcome
       case Success => Local(Draining(job, WritingSecond(size, count, split)), b, Written(shared, b.queue[..split], []))
       case Failure(e, written) => Tear(job, size, count, b, shared, 0, written, e))
    case WritingSecond(size, count, at) =>
      (match outcome
       case Success => Complete(job, size, count, b, shared, at)
       case Failure(e, written) => Tear(job, size, count, b, shared, at, at + written, e))
    case Committing(size, count, failure) =>
      Local(Draining(job, CheckingTrailing(failure)),
            b.(queue := b.queue[size..], queued := b.queued[count..], claimed := 0), shared)
    case CheckingTrailing(failure) =>
      if job.trailing.None? then Local(Draining(job, FreeingWriter(failure)), b, shared)
      else if failure.None? && !shared.hasError then Local(Draining(job, WritingTrailing), b, shared)
      else Local(Draining(job, FreeingWriter(failure)), SettleTrailing(b, false), shared)
    case WritingTrailing => WriteTrailing(job, b, shared, outcome)
    case FreeingWriter(failure) => Local(Draining(job, FreeingConsumer(failure)), b, shared.(writer := None))
    case FreeingConsumer(failure) => Local(Finished(failure, job.next), b.(holder := None), shared)
  }

  /** The second slice is written: all of the chunk's packets are in the sink. */
  function Complete(job: Job, size: nat, count: nat, b: Buffer, shared: Shared, from: nat): Local
    requires from <= size <= |b.queue| && count <= |b.queued|
  {
    Local(Draining(job, Committing(size, count, None)), Settle(b, count, true),
          Written(shared, b.queue[from..size], Wholes(job.buffer, b.queued[..count])))
  }

  /** A failed write of a queue's bytes: `[from..upTo]` is written, and the whole chunk is lost. */
  function Tear(job: Job, size: nat, count: nat, b: Buffer, shared: Shared, from: nat, upTo: nat, e: Error): Local
    requires from <= upTo <= |b.queue| && count <= |b.queued|
  {
    Local(Draining(job, Committing(size, count, Some(e))), Settle(b, count, false),
          Written(shared, b.queue[from..upTo], [Torn(b.queue[..upTo])]).(failed := true))
  }

  function WriteTrailing(job: Job, b: Buffer, shared: Shared, outcome: Outcome): Local
    requires job.trailing.Some? && (outcome.Failure? ==> outcome.written < |job.trailing.value|)
  {
    match outcome
    case Success =>
      Local(Draining(job, FreeingWriter(None)), SettleTrailing(b, true),
            Written(shared, job.trailing.value, [Whole(job.buffer, job.trailing.value)]))
    case Failure(e, written) =>
      var torn := job.trailing.value[..written];
      Local(Draining(job, FreeingWriter(Some(e))), SettleTrailing(b, false),
            Written(shared, torn, [Torn(torn)]).(failed := true))
  }

  function Record(actor: nat, e: Error, recorder: Recorder, next: Next, shared: Shared): (Pc, Shared) {
    match recorder
    case WantError => (Recording(e, Setting, next), shared.(errorLock := Some(actor)))
    case Setting =>
        (Recording(e, Flagging, next), shared.(error := if shared.error.None? then Some(e) else shared.error))
    case Flagging => (Recording(e, FreeingError, next), shared.(hasError := true))
    case FreeingError => (Resumed(next), shared.(errorLock := None))
  }

  /** The error reported when the flag is set but none was recorded. */
  const UNRECORDED: Error := 0

  function Reported(error: Option<Error>): Error {
    if error.Some? then error.value else UNRECORDED
  }

  /** A flush's steps between and after its drains. */
  function Advanced(actor: nat, pc: Pc, shared: Shared, outcome: Outcome): (Pc, Shared) {
    match pc
    case FlushNext(flush) =>
      (if flush.next < |flush.targets| then
         Draining(Job(flush.next, None, shared.hasError, Continue(flush.(next := flush.next + 1))), WantConsumer)
       else FlushWantWriter(flush), shared)
    case FlushWantWriter(flush) => (FlushWriting(flush), shared.(writer := Some(actor)))
    case FlushWriting(flush) =>
      (match outcome
       case Success => (FlushFreeing(flush, None), shared.(flushed := |shared.segments|))
       case Failure(e, _) => (FlushFreeing(flush, Some(e)), shared.(failed := true)))
    case FlushFreeing(flush, failure) => (Finished(failure, Conclude(flush)), shared.(writer := None))
    case FlushChecking(flush) => (if shared.hasError then FlushReporting(flush) else Returned(flush, None), shared)
    case FlushReporting(flush) => (Returned(flush, Some(Reported(shared.error))), shared)
    case Returned(_, _) => (Idle, shared)
    case Recording(e, recorder, next) => Record(actor, e, recorder, next, shared)
    case _ => (pc, shared)
  }

  /** The buffer an actor is working on. */
  function Focus(pc: Pc): Option<nat> {
    match pc
    case Pushing(buffer, _) => Some(buffer)
    case Draining(job, _) => Some(job.buffer)
    case _ => None
  }

  function Working(s: State, pc: Pc, b: Buffer, split: nat, outcome: Outcome, actor: nat): Local
    requires pc.Draining? ==> DrainEnabled(pc.job, pc.at, b, s.shared, split, outcome)
  {
    match pc
    case Pushing(buffer, packet) => Push(s.capacity, buffer, packet, b, s.shared)
    case Draining(job, at) => Drain(actor, job, at, b, s.shared, split, outcome)
    case _ => Local(pc, b, s.shared)
  }

  predicate Enabled(s: State, l: Label) {
    && l.actor < |s.pcs|
    && var pc := s.pcs[l.actor];
       match l.action
       case Register => pc.Idle?
       case Produce(buffer, _) => pc.Idle? && buffer < |s.buffers| && s.buffers[buffer].owner == l.actor
       case Exit(buffer) => pc.Idle? && buffer < |s.buffers| && s.buffers[buffer].owner == l.actor
       case BeginFlush => pc.Idle?
       case Advance(split, outcome) =>
         && !pc.Idle?
         && (Focus(pc).Some? ==> Focus(pc).value < |s.buffers|)
         && (pc.Draining? ==> DrainEnabled(pc.job, pc.at, s.buffers[pc.job.buffer], s.shared, split, outcome))
         && (pc.Recording? && pc.recorder.WantError? ==> s.shared.errorLock == None)
         && (pc.FlushReporting? ==> s.shared.errorLock == None)
         && (pc.FlushWantWriter? ==> s.shared.writer == None)
  }

  function Apply(s: State, l: Label): State
    requires Enabled(s, l)
  {
    var pc := s.pcs[l.actor];
    match l.action
    case Register => s.(buffers := s.buffers + [NewBuffer(l.actor)])
    case Produce(buffer, packet) =>
      var b := s.buffers[buffer];
      Put(s, l.actor, buffer,
          Local(Pushing(buffer, packet), b.(inFlight := Some(packet), produced := b.produced + [packet]), s.shared))
    case Exit(buffer) =>
      Put(s, l.actor, buffer,
          Local(Draining(Job(buffer, None, s.shared.hasError, Solo), WantConsumer), s.buffers[buffer], s.shared))
    case BeginFlush =>
      s.(pcs := s.pcs[l.actor := FlushNext(Flush(0, Targets(s.buffers), s.shared.hasError))])
    case Advance(split, outcome) =>
      if Focus(pc).Some? then
        Put(s, l.actor, Focus(pc).value, Working(s, pc, s.buffers[Focus(pc).value], split, outcome, l.actor))
      else
        var (pc', shared') := Advanced(l.actor, pc, s.shared, outcome);
        s.(pcs := s.pcs[l.actor := pc'], shared := shared')
  }

  function Put(s: State, actor: nat, buffer: nat, local: Local): State
    requires actor < |s.pcs| && buffer < |s.buffers|
  {
    s.(pcs := s.pcs[actor := local.pc], buffers := s.buffers[buffer := local.b], shared := local.shared)
  }

  /** The states reached by a run; a run stops at a label that is not enabled. */
  function Run(s: State, labels: seq<Label>): State
    decreases |labels|
  {
    if labels == [] || !Enabled(s, labels[0]) then s else Run(Apply(s, labels[0]), labels[1..])
  }

  // ------------------------------------------------------------ observations

  function Bytes(segment: Segment): seq<byte> {
    match segment
    case Whole(_, packet) => packet
    case Torn(bytes) => bytes
  }

  function Flatten(segments: seq<Segment>): seq<byte> {
    if segments == [] then [] else Flatten(segments[..|segments| - 1]) + Bytes(segments[|segments| - 1])
  }

  /** A buffer's packets in the sink, in sink order. */
  function Share(segments: seq<Segment>, buffer: nat): seq<Packet> {
    if segments == [] then []
    else
      var others := Share(segments[..|segments| - 1], buffer);
      var last := segments[|segments| - 1];
      if last.Whole? && last.buffer == buffer then others + [last.packet] else others
  }

  function PacketsOf(fates: seq<Fate>): seq<Packet> {
    seq(|fates|, i requires 0 <= i < |fates| => fates[i].packet)
  }

  function Delivered(fates: seq<Fate>): seq<Packet> {
    if fates == [] then []
    else
      var others := Delivered(fates[..|fates| - 1]);
      var last := fates[|fates| - 1];
      if last.delivered then others + [last.packet] else others
  }

  function InHand(b: Buffer): seq<Packet> {
    if b.inFlight.Some? then [b.inFlight.value] else []
  }

  /** What an actor between its two slices has put in the sink. */
  function PartialOf(pc: Pc, buffers: seq<Buffer>): seq<byte> {
    if pc.Draining? && pc.at.WritingSecond? && pc.job.buffer < |buffers|
       && pc.at.split <= |buffers[pc.job.buffer].queue|
    then buffers[pc.job.buffer].queue[..pc.at.split]
    else []
  }

  /** Bytes in the sink that belong to a chunk still being written. */
  function Partial(s: State): seq<byte> {
    if s.shared.writer.Some? && s.shared.writer.value < |s.pcs| then
        PartialOf(s.pcs[s.shared.writer.value], s.buffers) else []
  }
}
