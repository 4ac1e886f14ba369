/**
 The parts of a packet that hold no interned strings - track descriptors, the clock
 snapshot and the sequence's defaults - as written and as read back.
 */
module PacketFormats {
  import opened Prelude
  import opened Wire
  import opened Events

  // `Trace` and `TracePacket` field numbers.
  const PACKET: FieldId := 1
  const CLOCK_SNAPSHOT: FieldId := 6
  const TIMESTAMP: FieldId := 8
  const TRUSTED_PACKET_SEQUENCE_ID: FieldId := 10
  const TRACK_EVENT: FieldId := 11
  const INTERNED_DATA: FieldId := 12
  const SEQUENCE_FLAGS: FieldId := 13
  const TIMESTAMP_CLOCK_ID: FieldId := 58
  const TRACE_PACKET_DEFAULTS: FieldId := 59
  const TRACK_DESCRIPTOR: FieldId := 60
  const FIRST_PACKET_ON_SEQUENCE: FieldId := 87

  const SEQ_INCREMENTAL_STATE_CLEARED: u64 := 1
  const SEQ_NEEDS_INCREMENTAL_STATE: u64 := 2

  // `TracePacketDefaults`, `TrackEventDefaults` and `ClockSnapshot` field numbers.
  const DEFAULT_TIMESTAMP_CLOCK_ID: FieldId := 58
  const TRACK_EVENT_DEFAULTS: FieldId := 11
  const DEFAULT_TRACK_UUID: FieldId := 11
  const CLOCKS: FieldId := 1
  const PRIMARY_TRACE_CLOCK: FieldId := 2
  const CLOCK_ID: FieldId := 1
  const CLOCK_TIMESTAMP: FieldId := 2
  const CLOCK_IS_INCREMENTAL: FieldId := 3
  const CUSTOM_CLOCK_ID: u64 := 64

  // `TrackDescriptor` and `ProcessDescriptor`/`ThreadDescriptor` field numbers.
  const UUID: FieldId := 1
  const TRACK_NAME: FieldId := 2
  const PROCESS: FieldId := 3
  const THREAD: FieldId := 4
  const PARENT_UUID: FieldId := 5
  const COUNTER: FieldId := 8
  const PID: FieldId := 1
  const CMDLINE: FieldId := 2
  const PROCESS_NAME: FieldId := 6
  const TID: FieldId := 2
  const THREAD_NAME: FieldId := 5

  datatype Clock = Clock(id: u64, time: u64)

  /** What one packet carries besides its header and interned data. */
  datatype Body =
    | Event(items: seq<Item>)
    | SpanTrack(uuid: u64, name: Text, parent: u64)
    | CounterTrack(uuid: u64, name: Text, parent: u64)
    | ProcessTrack(uuid: u64, pid: u64, arguments: seq<Text>, name: Text)
    | ThreadTrack(uuid: u64, pid: u64, tid: u64, name: Text)

  /** What never changes about a sequence. */
  datatype Params = Params(sequenceId: u32, threadTrack: u64, anchor: u64)

  /** What the environment supplies for a sequence's first packet. */
  datatype Opening = Opening(timestamp: u64, clockId: u64, primaryClock: u64, otherClocks: seq<Clock>)

  // ------------------------------------------------------------ writing

  function Arguments(arguments: seq<Text>): seq<Field> {
    seq(|arguments|, i requires 0 <= i < |arguments| => StringField(CMDLINE, arguments[i]))
  }

  function BodyField(body: Body): Field
    requires !body.Event?
  {
    match body
    case SpanTrack(uuid, name, parent) =>
      Message(TRACK_DESCRIPTOR, [WideField(UUID, uuid), StringField(TRACK_NAME, name), WideField(PARENT_UUID, parent)])
    case CounterTrack(uuid, name, parent) =>
      Message(TRACK_DESCRIPTOR, [WideField(UUID, uuid), StringField(TRACK_NAME, name), WideField(PARENT_UUID, parent),
                                 Message(COUNTER, [])])
    case ProcessTrack(uuid, pid, arguments, name) =>
      Message(TRACK_DESCRIPTOR, [WideField(UUID, uuid),
                                 Message(PROCESS, [VarintField(PID, pid)] + Arguments(arguments)
                                         + [StringField(PROCESS_NAME, name)])])
    case ThreadTrack(uuid, pid, tid, name) =>
      Message(TRACK_DESCRIPTOR, [WideField(UUID, uuid),
                                 Message(THREAD, [VarintField(PID, pid), VarintField(TID, tid),
                                                  StringField(THREAD_NAME, name)])])
  }

  function ClockField(clock: Clock): Field {
    var fields := [VarintField(CLOCK_ID, clock.id), VarintField(CLOCK_TIMESTAMP, clock.time)];
    Message(CLOCKS, if clock.id == CUSTOM_CLOCK_ID then fields + [VarintField(CLOCK_IS_INCREMENTAL, 1)] else fields)
  }

  function ClockFields(clocks: seq<Clock>): seq<Field> {
    seq(|clocks|, i requires 0 <= i < |clocks| => ClockField(clocks[i]))
  }

  function SnapshotField(relative: u64, opening: Opening): Field {
    Message(CLOCK_SNAPSHOT,
            [VarintField(PRIMARY_TRACE_CLOCK, opening.primaryClock), ClockField(Clock(CUSTOM_CLOCK_ID, relative))]
            + ClockFields(opening.otherClocks))
  }

  function DefaultsField(p: Params): Field {
    Message(TRACE_PACKET_DEFAULTS,
            [VarintField(DEFAULT_TIMESTAMP_CLOCK_ID, CUSTOM_CLOCK_ID),
             Message(TRACK_EVENT_DEFAULTS, [WideField(DEFAULT_TRACK_UUID, p.threadTrack)])])
  }

  // ------------------------------------------------------------ reading

  /** The payloads of all fields with this number, in order. */
  function FindAll(fields: seq<WireField>, id: nat): seq<seq<byte>> {
    if fields == [] then []
    else if IsBytes(fields[0], id) then [fields[0].bytes] + FindAll(fields[1..], id)
    else FindAll(fields[1..], id)
  }

  lemma {:induction false} FindAllAppend(a: seq<WireField>, b: seq<WireField>, id: nat)
    ensures FindAll(a + b, id) == FindAll(a, id) + FindAll(b, id)
  {
    if a == [] {
      assert a + b == b;
    } else {
      assert (a + b)[1..] == a[1..] + b;
      FindAllAppend(a[1..], b, id);
    }
  }

  lemma FindAllOne(field: WireField, id: nat)
    ensures FindAll([field], id) == if IsBytes(field, id) then [field.bytes] else []
  {
    assert [field][1..] == [];
  }

  datatype ProcessReading = ProcessReading(pid: nat, arguments: seq<seq<byte>>, name: seq<byte>)

  datatype ThreadReading = ThreadReading(pid: nat, tid: nat, name: seq<byte>)

  /** A track as described: a span's or counter's has a name and a parent, the others an owner. */
  datatype TrackReading = TrackReading(
    uuid: nat, name: Option<seq<byte>>, parent: Option<nat>, isCounter: bool,
    process: Option<ProcessReading>, thread: Option<ThreadReading>)

  function ReadProcess(bytes: seq<byte>): Option<ProcessReading> {
    match Parse(bytes)
    case None => None
    case Some(fields) =>
      match (FindVarint(fields, PID), FindBytes(fields, PROCESS_NAME))
      case (Some(pid), Some(name)) => Some(ProcessReading(pid, FindAll(fields, CMDLINE), name))
      case _ => None
  }

  function ReadThread(bytes: seq<byte>): Option<ThreadReading> {
    match Parse(bytes)
    case None => None
    case Some(fields) =>
      match (FindVarint(fields, PID), FindVarint(fields, TID), FindBytes(fields, THREAD_NAME))
      case (Some(pid), Some(tid), Some(name)) => Some(ThreadReading(pid, tid, name))
      case _ => None
  }

  function ReadTrackDescriptor(bytes: seq<byte>): Option<TrackReading> {
    match Parse(bytes)
    case None => None
    case Some(fields) =>
      var process, thread := FindBytes(fields, PROCESS), FindBytes(fields, THREAD);
      match FindVarint(fields, UUID)
      case None => None
      case Some(uuid) =>
        Some(TrackReading(uuid, FindBytes(fields, TRACK_NAME), FindVarint(fields, PARENT_UUID),
                          FindBytes(fields, COUNTER).Some?,
                          if process.Some? then ReadProcess(process.value) else None,
                          if thread.Some? then ReadThread(thread.value) else None))
  }

  datatype ClockReading = ClockReading(id: nat, time: nat, incremental: bool)

  /** The clocks of a snapshot, and which of them the trace is drawn against. */
  datatype SnapshotReading = SnapshotReading(primary: nat, clocks: seq<ClockReading>)

  function ReadClockEntry(bytes: seq<byte>): Option<ClockReading> {
    match Parse(bytes)
    case None => None
    case Some(fields) =>
      match (FindVarint(fields, CLOCK_ID), FindVarint(fields, CLOCK_TIMESTAMP))
      case (Some(id), Some(time)) =>
        Some(ClockReading(id, time, FindVarint(fields, CLOCK_IS_INCREMENTAL) == Some(1)))
      case _ => None
  }

  function ReadClockEntries(entries: seq<seq<byte>>): Option<seq<ClockReading>> {
    if entries == [] then Some([])
    else
      match (ReadClockEntry(entries[0]), ReadClockEntries(entries[1..]))
      case (Some(clock), Some(others)) => Some([clock] + others)
      case _ => None
  }

  function ReadSnapshot(bytes: seq<byte>): Option<SnapshotReading> {
    match Parse(bytes)
    case None => None
    case Some(fields) =>
      match (FindVarint(fields, PRIMARY_TRACE_CLOCK), ReadClockEntries(FindAll(fields, CLOCKS)))
      case (Some(primary), Some(clocks)) => Some(SnapshotReading(primary, clocks))
      case _ => None
  }

  /** The value at which a snapshot sets the sequence's own, incremental clock. */
  function CustomClock(clocks: seq<ClockReading>): Option<nat> {
    if clocks == [] then None
    else if clocks[0].id == CUSTOM_CLOCK_ID && clocks[0].incremental then Some(clocks[0].time)
    else CustomClock(clocks[1..])
  }

  /** What a sequence's packets mean where they say nothing: their clock, and their events' track. */
  datatype Defaults = Defaults(clockId: nat, track: nat)

  function ReadDefaults(bytes: seq<byte>): Option<Defaults> {
    match Parse(bytes)
    case None => None
    case Some(fields) =>
      match (FindVarint(fields, DEFAULT_TIMESTAMP_CLOCK_ID), FindBytes(fields, TRACK_EVENT_DEFAULTS))
      case (Some(clockId), Some(inner)) =>
        (match Parse(inner)
         case None => None
         case Some(event) =>
           match FindVarint(event, DEFAULT_TRACK_UUID)
           case None => None
           case Some(track) => Some(Defaults(clockId, track)))
      case _ => None
  }

  // ------------------------------------------------------------ what must be seen

  /** The description a reader must recover. */
  function Described(body: Body): TrackReading
    requires !body.Event?
  {
    match body
    case SpanTrack(uuid, name, parent) => TrackReading(uuid, Some(name), Some(parent), false, None, None)
    case CounterTrack(uuid, name, parent) => TrackReading(uuid, Some(name), Some(parent), true, None, None)
    case ProcessTrack(uuid, pid, arguments, name) =>
      TrackReading(uuid, None, None, false, Some(ProcessReading(pid, Plain(arguments), name)), None)
    case ThreadTrack(uuid, pid, tid, name) =>
      TrackReading(uuid, None, None, false, None, Some(ThreadReading(pid, tid, name)))
  }

  function Plain(texts: seq<Text>): seq<seq<byte>> {
    seq(|texts|, i requires 0 <= i < |texts| => texts[i])
  }

  /** The clocks a first packet must show: its own incremental one, then the others. */
  function Snapped(relative: nat, opening: Opening): SnapshotReading {
    SnapshotReading(opening.primaryClock, [ClockReading(CUSTOM_CLOCK_ID, relative, true)] + Others(opening.otherClocks))
  }

  function Others(clocks: seq<Clock>): seq<ClockReading> {
    seq(|clocks|, i requires 0 <= i < |clocks| =>
      ClockReading(clocks[i].id, clocks[i].time, clocks[i].id == CUSTOM_CLOCK_ID))
  }

  // ------------------------------------------------------------ round trips

  lemma {:induction false} ArgumentsRead(arguments: seq<Text>)
    ensures FindAll(FlatAll(Arguments(arguments)), CMDLINE) == Plain(arguments)
    decreases |arguments|
  {
    if arguments != [] {
      ArgumentsRead(arguments[1..]);
      assert Arguments(arguments)[1..] == Arguments(arguments[1..]);
      assert Plain(arguments) == [arguments[0]] + Plain(arguments[1..]);
    }
  }

  lemma ProcessReads(pid: u64, arguments: seq<Text>, name: Text)
    requires FitsAll([VarintField(PID, pid)] + Arguments(arguments) + [StringField(PROCESS_NAME, name)])
    ensures ReadProcess(EncodeAll([VarintField(PID, pid)] + Arguments(arguments) + [StringField(PROCESS_NAME, name)]))
         == Some(ProcessReading(pid, Plain(arguments), name))
  {
    var fields := [VarintField(PID, pid)] + Arguments(arguments) + [StringField(PROCESS_NAME, name)];
    ParseRoundTrip(fields);
    var ws := FlatAll(fields);
    FindVarintAt(ws, PID, 0);
    FindBytesAt(ws, PROCESS_NAME, |arguments| + 1);
    FlatAllAppend([VarintField(PID, pid)] + Arguments(arguments), [StringField(PROCESS_NAME, name)]);
    FlatAllAppend([VarintField(PID, pid)], Arguments(arguments));
    ProcessArguments(pid, arguments, name);
  }

  lemma ProcessArguments(pid: u64, arguments: seq<Text>, name: Text)
    ensures FindAll(FlatAll([VarintField(PID, pid)]) + FlatAll(Arguments(arguments))
                    + FlatAll([StringField(PROCESS_NAME, name)]), CMDLINE) == Plain(arguments)
  {
    var first, last := FlatAll([VarintField(PID, pid)]), FlatAll([StringField(PROCESS_NAME, name)]);
    assert first == [VarintWire(PID, pid)] && last == [BytesWire(PROCESS_NAME, name)];
    FindAllAppend(first + FlatAll(Arguments(arguments)), last, CMDLINE);
    FindAllAppend(first, FlatAll(Arguments(arguments)), CMDLINE);
    FindAllOne(first[0], CMDLINE);
    FindAllOne(last[0], CMDLINE);
    ArgumentsRead(arguments);
    assert [] + Plain(arguments) + [] == Plain(arguments);
  }

  lemma ThreadReads(pid: u64, tid: u64, name: Text)
    requires FitsAll([VarintField(PID, pid), VarintField(TID, tid), StringField(THREAD_NAME, name)])
    ensures ReadThread(EncodeAll([VarintField(PID, pid), VarintField(TID, tid), StringField(THREAD_NAME, name)]))
         == Some(ThreadReading(pid, tid, name))
  {
    var fields := [VarintField(PID, pid), VarintField(TID, tid), StringField(THREAD_NAME, name)];
    ParseRoundTrip(fields);
    var ws := FlatAll(fields);
    FindVarintAt(ws, PID, 0);
    FindVarintAt(ws, TID, 1);
    FindBytesAt(ws, THREAD_NAME, 2);
  }

  lemma DescriptorReads(body: Body)
    requires !body.Event? && Fits(BodyField(body))
    ensures ReadTrackDescriptor(EncodeAll(BodyField(body).body)) == Some(Described(body))
  {
    var fields := BodyField(body).body;
    ParseRoundTrip(fields);
    if body.SpanTrack? || body.CounterTrack? {
      NamedDescriptorReads(body, FlatAll(fields));
    } else {
      OwnedDescriptorReads(body, FlatAll(fields));
    }
  }

  lemma NamedDescriptorReads(body: Body, ws: seq<WireField>)
    requires (body.SpanTrack? || body.CounterTrack?) && ws == FlatAll(BodyField(body).body)
    ensures FindVarint(ws, UUID) == Some(body.uuid) && FindBytes(ws, TRACK_NAME) == Some(body.name)
    ensures FindVarint(ws, PARENT_UUID) == Some(body.parent) && FindBytes(ws, COUNTER).Some? == body.CounterTrack?
    ensures FindBytes(ws, PROCESS) == None && FindBytes(ws, THREAD) == None
  {
    FindVarintAt(ws, UUID, 0);
    NamedTrackReads(ws);
    if body.SpanTrack? {
      FindBytesNone(ws, COUNTER);
    } else {
      FindBytesAt(ws, COUNTER, 3);
    }
  }

  lemma OwnedDescriptorReads(body: Body, ws: seq<WireField>)
    requires (body.ProcessTrack? || body.ThreadTrack?) && Fits(BodyField(body)) && ws == FlatAll(BodyField(body).body)
    ensures FindVarint(ws, UUID) == Some(body.uuid) && FindBytes(ws, TRACK_NAME) == None
    ensures FindVarint(ws, PARENT_UUID) == None && FindBytes(ws, COUNTER) == None
    ensures var (process, thread) := (FindBytes(ws, PROCESS), FindBytes(ws, THREAD));
            if body.ProcessTrack? then
              && process.Some? && thread == None
              && ReadProcess(process.value) == Some(ProcessReading(body.pid, Plain(body.arguments), body.name))
            else
              && process == None && thread.Some?
              && ReadThread(thread.value) == Some(ThreadReading(body.pid, body.tid, body.name))
  {
    FindVarintAt(ws, UUID, 0);
    UnnamedTrackReads(ws);
    OwnerReads(body);
    if body.ProcessTrack? {
      FindBytesAt(ws, PROCESS, 1);
      FindBytesNone(ws, THREAD);
    } else {
      FindBytesAt(ws, THREAD, 1);
      FindBytesNone(ws, PROCESS);
    }
  }

  lemma OwnerReads(body: Body)
    requires (body.ProcessTrack? || body.ThreadTrack?) && Fits(BodyField(body))
    ensures body.ProcessTrack? ==>
              ReadProcess(EncodeAll(BodyField(body).body[1].body))
              == Some(ProcessReading(body.pid, Plain(body.arguments), body.name))
    ensures body.ThreadTrack? ==>
              ReadThread(EncodeAll(BodyField(body).body[1].body)) == Some(ThreadReading(body.pid, body.tid, body.name))
  {
    var fields := BodyField(body).body;
    FitsAllAppend([fields[0]], [fields[1]]);
    assert fields == [fields[0]] + [fields[1]] && Fits(fields[1]);
    if body.ProcessTrack? {
      ProcessReads(body.pid, body.arguments, body.name);
    } else {
      ThreadReads(body.pid, body.tid, body.name);
    }
  }

  lemma NamedTrackReads(ws: seq<WireField>)
    requires 3 <= |ws| <= 4 && IsVarint(ws[0], UUID) && IsBytes(ws[1], TRACK_NAME) && IsVarint(ws[2], PARENT_UUID)
    requires |ws| == 4 ==> IsBytes(ws[3], COUNTER)
    ensures FindBytes(ws, TRACK_NAME) == Some(ws[1].bytes) && FindVarint(ws, PARENT_UUID) == Some(ws[2].value)
    ensures FindBytes(ws, PROCESS) == None && FindBytes(ws, THREAD) == None
  {
    FindBytesAt(ws, TRACK_NAME, 1);
    FindVarintAt(ws, PARENT_UUID, 2);
    FindBytesNone(ws, PROCESS);
    FindBytesNone(ws, THREAD);
  }

  lemma UnnamedTrackReads(ws: seq<WireField>)
    requires |ws| == 2 && IsVarint(ws[0], UUID) && (IsBytes(ws[1], PROCESS) || IsBytes(ws[1], THREAD))
    ensures FindBytes(ws, TRACK_NAME) == None && FindVarint(ws, PARENT_UUID) == None && FindBytes(ws, COUNTER) == None
  {
    FindBytesNone(ws, TRACK_NAME);
    FindVarintNone(ws, PARENT_UUID);
    FindBytesNone(ws, COUNTER);
  }

  lemma ClockReads(clock: Clock)
    requires Fits(ClockField(clock))
    ensures ReadClockEntry(EncodeAll(ClockField(clock).body))
         == Some(ClockReading(clock.id, clock.time, clock.id == CUSTOM_CLOCK_ID))
  {
    var fields := ClockField(clock).body;
    ParseRoundTrip(fields);
    var ws := FlatAll(fields);
    FindVarintAt(ws, CLOCK_ID, 0);
    FindVarintAt(ws, CLOCK_TIMESTAMP, 1);
    if clock.id == CUSTOM_CLOCK_ID {
      FindVarintAt(ws, CLOCK_IS_INCREMENTAL, 2);
    } else {
      FindVarintNone(ws, CLOCK_IS_INCREMENTAL);
    }
  }

  function ClockPayloads(clocks: seq<Clock>): seq<seq<byte>> {
    if clocks == [] then [] else [EncodeAll(ClockField(clocks[0]).body)] + ClockPayloads(clocks[1..])
  }

  lemma {:induction false} ClockPayloadsFound(clocks: seq<Clock>)
    ensures FindAll(FlatAll(ClockFields(clocks)), CLOCKS) == ClockPayloads(clocks)
    decreases |clocks|
  {
    if clocks != [] {
      assert ClockFields(clocks)[1..] == ClockFields(clocks[1..]);
      ClockPayloadsFound(clocks[1..]);
    }
  }

  lemma {:induction false} ClocksRead(clocks: seq<Clock>)
    requires FitsAll(ClockFields(clocks))
    ensures ReadClockEntries(ClockPayloads(clocks)) == Some(Others(clocks))
    decreases |clocks|
  {
    if clocks == [] {
      assert Others(clocks) == [];
    } else {
      assert ClockFields(clocks)[1..] == ClockFields(clocks[1..]);
      ClockReads(clocks[0]);
      ClocksRead(clocks[1..]);
      var entries := ClockPayloads(clocks);
      assert entries[0] == EncodeAll(ClockField(clocks[0]).body) && entries[1..] == ClockPayloads(clocks[1..]);
      assert Others(clocks) == [Others(clocks)[0]] + Others(clocks[1..]);
    }
  }

  lemma SnapshotParts(relative: u64, opening: Opening)
    requires Fits(SnapshotField(relative, opening))
    ensures var fields := SnapshotField(relative, opening).body;
            var clocks := [Clock(CUSTOM_CLOCK_ID, relative)] + opening.otherClocks;
            && FitsAll(fields) && FitsAll(ClockFields(clocks))
            && FindAll(FlatAll(fields), CLOCKS) == ClockPayloads(clocks)
  {
    var fields := SnapshotField(relative, opening).body;
    var first, clocks := fields[0], [Clock(CUSTOM_CLOCK_ID, relative)] + opening.otherClocks;
    assert fields == [first] + ClockFields(clocks);
    FitsAllAppend([first], ClockFields(clocks));
    FlatAllAppend([first], ClockFields(clocks));
    FindAllAppend(FlatAll([first]), FlatAll(ClockFields(clocks)), CLOCKS);
    assert FlatAll([first]) == [Flat(first)];
    FindAllOne(Flat(first), CLOCKS);
    ClockPayloadsFound(clocks);
  }

  lemma SnapshotReads(relative: u64, opening: Opening)
    requires Fits(SnapshotField(relative, opening))
    ensures ReadSnapshot(EncodeAll(SnapshotField(relative, opening).body)) == Some(Snapped(relative, opening))
  {
    var fields := SnapshotField(relative, opening).body;
    var clocks := [Clock(CUSTOM_CLOCK_ID, relative)] + opening.otherClocks;
    SnapshotParts(relative, opening);
    ParseRoundTrip(fields);
    ClocksRead(clocks);
    assert Others(clocks) == [ClockReading(CUSTOM_CLOCK_ID, relative, true)] + Others(opening.otherClocks);
    SnapshotAssembled(EncodeAll(fields), FlatAll(fields), opening.primaryClock, Others(clocks));
  }

  lemma SnapshotAssembled(bytes: seq<byte>, ws: seq<WireField>, primary: u64, clocks: seq<ClockReading>)
    requires Parse(bytes) == Some(ws) && ws != [] && ws[0] == VarintWire(PRIMARY_TRACE_CLOCK, primary)
    requires ReadClockEntries(FindAll(ws, CLOCKS)) == Some(clocks)
    ensures ReadSnapshot(bytes) == Some(SnapshotReading(primary, clocks))
  {
    FindVarintAt(ws, PRIMARY_TRACE_CLOCK, 0);
  }

  lemma DefaultsRead(p: Params)
    requires Fits(DefaultsField(p))
    ensures ReadDefaults(EncodeAll(DefaultsField(p).body)) == Some(Defaults(CUSTOM_CLOCK_ID, p.threadTrack))
  {
    var fields := DefaultsField(p).body;
    var inner := fields[1].body;
    FitsAllAppend([fields[0]], [fields[1]]);
    assert fields == [fields[0]] + [fields[1]] && Fits(fields[1]);
    ParseRoundTrip(fields);
    FindVarintAt(FlatAll(fields), DEFAULT_TIMESTAMP_CLOCK_ID, 0);
    FindBytesAt(FlatAll(fields), TRACK_EVENT_DEFAULTS, 1);
    ParseRoundTrip(inner);
    FindVarintAt(FlatAll(inner), DEFAULT_TRACK_UUID, 0);
  }
}
