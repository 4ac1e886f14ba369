/**
 One packet sequence: the packets its callbacks produce, and the stateful reader that
 replays them.
 */
module Packets {
  import opened Prelude
  import opened Wire
  import opened Interning
  import opened Events
  import opened InternedData
  import opened PacketFormats

  /**
   The encoder's state between packets. `decoded` is the time a reader has reached,
   relative to the anchor.
   */
  datatype State = State(tables: Tables, last: u64, started: bool, decoded: nat)

  const FRESH: State := State(EMPTY_TABLES, 0, false, 0)

  // ------------------------------------------------------------ writing

  ghost function LowerBody(ts: Tables, body: Body): (r: (Tables, Field))
    requires TablesValid(ts)
    ensures TablesValid(r.0)
  {
    match body
    case Event(items) =>
      var (ts', fields) := LowerAll(ts, items);
      (ts', Message(TRACK_EVENT, fields))
    case _ => (ts, BodyField(body))
  }

  /** The pending definitions travel at the end of the packet, if there are any. */
  function InternedPart(ts: Tables): seq<Field>
    requires PendingFits(ts)
  {
    if NothingPending(ts) then [] else [Message(INTERNED_DATA, PendingFields(ts))]
  }

  /** The header of every packet but the first: its first two fields are always the same. */
  function Header(p: Params, delta: u64): seq<Field> {
    HeaderPrefix(p) + [VarintField(TIMESTAMP, delta)]
  }

  function HeaderPrefix(p: Params): seq<Field> {
    [VarintField(TRUSTED_PACKET_SEQUENCE_ID, p.sequenceId), VarintField(SEQUENCE_FLAGS, SEQ_NEEDS_INCREMENTAL_STATE)]
  }

  /** A packet after the first, written at raw clock value `raw`. */
  ghost function PacketFields(p: Params, st: State, raw: u64, body: Body): (r: (State, seq<Field>))
    requires TablesValid(st.tables)
    ensures TablesValid(r.0.tables) && NothingPending(r.0.tables)
  {
    var delta := SaturatingSub(raw, st.last);
    var (ts, field) := LowerBody(st.tables, body);
    PendingDoesFit(ts);
    FlushIsValid(ts);
    (st.(tables := FlushAll(ts), last := raw, decoded := st.decoded + delta),
     Header(p, delta) + [field] + InternedPart(ts))
  }

  lemma FlushIsValid(ts: Tables)
    requires TablesValid(ts)
    ensures TablesValid(FlushAll(ts)) && NothingPending(FlushAll(ts))
  {
    FlushAllOthers(ts);
    forall space
      ensures TableValid(FlushAll(ts).Get(space), space) && FlushAll(ts).Get(space).pending == []
    {
      assert TableValid(ts.Get(space), space);
      FlushKeepsValid(ts.Get(space), space);
    }
  }

  function FirstHeader(p: Params, opening: Opening): seq<Field> {
    [VarintField(TIMESTAMP, opening.timestamp),
     VarintField(TRUSTED_PACKET_SEQUENCE_ID, p.sequenceId),
     VarintField(SEQUENCE_FLAGS, SEQ_INCREMENTAL_STATE_CLEARED + SEQ_NEEDS_INCREMENTAL_STATE),
     VarintField(FIRST_PACKET_ON_SEQUENCE, 1),
     VarintField(TIMESTAMP_CLOCK_ID, opening.clockId),
     DefaultsField(p)]
  }

  /** The first packet of a sequence: it resets the reader and anchors its clock. */
  function FirstPacket(p: Params, raw: u64, opening: Opening): (State, seq<Field>) {
    var relative := SaturatingSub(raw, p.anchor);
    (State(EMPTY_TABLES, raw, true, relative),
     FirstHeader(p, opening) + [SnapshotField(relative, opening)])
  }

  // ------------------------------------------------------------ reading

  datatype Content =
    | EventContent(track: nat, readings: seq<Reading>)
    | TrackContent(description: TrackReading)
    | OpeningContent(timestamp: nat, clockId: nat, snapshot: SnapshotReading)

  /** A packet as replayed. `time` is relative to the sequence's clock anchor. */
  datatype Seen = Seen(sequence: nat, time: Option<nat>, content: Content)

  datatype Reader = Reader(synced: bool, dictionaries: Dictionaries, clock: Option<nat>, defaults: Option<Defaults>)

  const NEW_READER: Reader := Reader(false, NO_DICTIONARIES, None, None)

  const SYNCED_READER: Reader := NEW_READER.(synced := true)

  function ReadEvent(bytes: seq<byte>, ds: Dictionaries, defaults: Option<Defaults>): Option<Content> {
    match Parse(bytes)
    case None => None
    case Some(event) =>
      var own := FindVarint(event, TRACK_UUID);
      match (ReadItems(event, ds), if own.Some? then own else DefaultTrack(defaults))
      case (Some(readings), Some(track)) => Some(EventContent(track, readings))
      case _ => None
  }

  function DefaultTrack(defaults: Option<Defaults>): Option<nat> {
    if defaults.Some? then Some(defaults.value.track) else None
  }

  function ReadOpening(bytes: seq<byte>, fields: seq<WireField>): Option<Content> {
    match (FindVarint(fields, TIMESTAMP), FindVarint(fields, TIMESTAMP_CLOCK_ID), ReadSnapshot(bytes))
    case (Some(timestamp), Some(clockId), Some(snapshot)) => Some(OpeningContent(timestamp, clockId, snapshot))
    case _ => None
  }

  function ReadContent(fields: seq<WireField>, ds: Dictionaries, defaults: Option<Defaults>): Option<Content> {
    match (FindBytes(fields, TRACK_EVENT), FindBytes(fields, TRACK_DESCRIPTOR), FindBytes(fields, CLOCK_SNAPSHOT))
    case (Some(bytes), _, _) => ReadEvent(bytes, ds, defaults)
    case (None, Some(bytes), _) =>
      var description := ReadTrackDescriptor(bytes);
      if description.Some? then Some(TrackContent(description.value)) else None
    case (None, None, Some(bytes)) => ReadOpening(bytes, fields)
    case _ => None
  }

  function ReadInterned(fields: seq<WireField>, ds: Dictionaries): Option<Dictionaries> {
    match FindBytes(fields, INTERNED_DATA)
    case None => Some(ds)
    case Some(bytes) =>
      match Parse(bytes)
      case None => None
      case Some(definitions) => ReadDefinitions(ds, definitions)
  }

  /** The defaults a packet leaves in force: its own, if it has any. */
  function KeptDefaults(fields: seq<WireField>, defaults: Option<Defaults>): Option<Defaults> {
    match FindBytes(fields, TRACE_PACKET_DEFAULTS)
    case None => defaults
    case Some(bytes) => ReadDefaults(bytes)
  }

  /** The sequence's own clock after a packet's snapshot, if it has one. */
  function KeptClock(fields: seq<WireField>, clock: Option<nat>): Option<nat> {
    match FindBytes(fields, CLOCK_SNAPSHOT)
    case None => clock
    case Some(bytes) =>
      match ReadSnapshot(bytes)
      case None => clock
      case Some(snapshot) => CustomClock(snapshot.clocks)
  }

  /**
   The clock after a packet, and the packet's time on it: a packet that names no clock is
   on the sequence's default one, which must be its own, and moves it on.
   */
  function ReadClock(fields: seq<WireField>, clock: Option<nat>, defaults: Option<Defaults>, timestamp: nat)
      : Option<(Option<nat>, Option<nat>)> {
    if FindVarint(fields, TIMESTAMP_CLOCK_ID).Some? then Some((clock, None))
    else if clock.Some? && defaults.Some? && defaults.value.clockId == CUSTOM_CLOCK_ID then
      var now := Some(clock.value + timestamp);
      Some((now, now))
    else None
  }

  /** The reader that starts on a packet: a sequence's first packet forgets all that was before it. */
  function Started(reader: Reader, fields: seq<WireField>, flags: nat): Option<Reader> {
    if flags == SEQ_INCREMENTAL_STATE_CLEARED + SEQ_NEEDS_INCREMENTAL_STATE then
      if FindVarint(fields, FIRST_PACKET_ON_SEQUENCE) == Some(1) then Some(SYNCED_READER) else None
    else if flags == SEQ_NEEDS_INCREMENTAL_STATE && reader.synced then Some(reader)
    else None
  }

  function ReadBody(base: Reader, fields: seq<WireField>, sequence: nat, timestamp: nat): Option<(Reader, Seen)> {
    var defaults := KeptDefaults(fields, base.defaults);
    match (ReadClock(fields, KeptClock(fields, base.clock), defaults, timestamp),
           ReadInterned(fields, base.dictionaries))
    case (Some((clock, time)), Some(ds)) =>
      (match ReadContent(fields, ds, defaults)
       case None => None
       case Some(content) => Some((Reader(true, ds, clock, defaults), Seen(sequence, time, content))))
    case _ => None
  }

  function ReadFields(reader: Reader, fields: seq<WireField>): Option<(Reader, Seen)> {
    match (FindVarint(fields, TRUSTED_PACKET_SEQUENCE_ID), FindVarint(fields, SEQUENCE_FLAGS),
           FindVarint(fields, TIMESTAMP))
    case (Some(sequence), Some(flags), Some(timestamp)) =>
      (match Started(reader, fields, flags)
       case None => None
       case Some(base) => ReadBody(base, fields, sequence, timestamp))
    case _ => None
  }

  /** Replays one packet's payload. `None` is a reader error: nothing may ever cause one. */
  function ReadPacket(reader: Reader, payload: seq<byte>): Option<(Reader, Seen)> {
    match Parse(payload)
    case None => None
    case Some(fields) => ReadFields(reader, fields)
  }

  // ------------------------------------------------------------ what must be seen

  /** The track an event is on: the one it names, or else its thread's. */
  function EventTrack(p: Params, items: seq<Item>): nat {
    if items == [] then p.threadTrack
    else if items[0].OnTrack? then items[0].uuid
    else EventTrack(p, items[1..])
  }

  /** The content a reader must recover from a body, once its tables are `ts`. */
  function Shown(p: Params, ts: Tables, body: Body): Content
    requires body.Event? ==> ItemsKnown(ts, body.items)
  {
    if body.Event? then EventContent(EventTrack(p, body.items), SettledAll(ts, body.items))
    else TrackContent(Described(body))
  }

  /** The content a reader must recover from a sequence's first packet. */
  function Opened(p: Params, raw: u64, opening: Opening): Content {
    OpeningContent(opening.timestamp, opening.clockId, Snapped(SaturatingSub(raw, p.anchor), opening))
  }

  /** The reader of a started sequence agrees with the encoder. */
  ghost predicate Agrees(p: Params, reader: Reader, st: State) {
    && st.started && TablesValid(st.tables) && NothingPending(st.tables)
    && reader.synced && reader.clock == Some(st.decoded) && AllInStep(reader.dictionaries, st.tables)
    && reader.defaults == Some(Defaults(CUSTOM_CLOCK_ID, p.threadTrack))
  }

  // ------------------------------------------------------------ round trip of one packet

  /** The shape of every packet but the first, as the reader parses it. */
  ghost predicate LaterShape(ws: seq<WireField>, p: Params, delta: u64, body: WireField, interned: Option<seq<byte>>) {
    && |ws| == (if interned.Some? then 5 else 4)
    && ws[0] == VarintWire(TRUSTED_PACKET_SEQUENCE_ID, p.sequenceId)
    && ws[1] == VarintWire(SEQUENCE_FLAGS, SEQ_NEEDS_INCREMENTAL_STATE)
    && ws[2] == VarintWire(TIMESTAMP, delta)
    && ws[3] == body && (IsBytes(body, TRACK_EVENT) || IsBytes(body, TRACK_DESCRIPTOR))
    && (interned.Some? ==> ws[4] == BytesWire(INTERNED_DATA, interned.value))
  }

  lemma LaterHeaderFound(ws: seq<WireField>, p: Params, delta: u64, body: WireField, interned: Option<seq<byte>>)
    requires LaterShape(ws, p, delta, body, interned)
    ensures FindVarint(ws, TRUSTED_PACKET_SEQUENCE_ID) == Some(p.sequenceId)
    ensures FindVarint(ws, SEQUENCE_FLAGS) == Some(SEQ_NEEDS_INCREMENTAL_STATE)
    ensures FindVarint(ws, TIMESTAMP) == Some(delta) && FindVarint(ws, TIMESTAMP_CLOCK_ID) == None
  {
    FindVarintAt(ws, TRUSTED_PACKET_SEQUENCE_ID, 0);
    FindVarintAt(ws, SEQUENCE_FLAGS, 1);
    FindVarintAt(ws, TIMESTAMP, 2);
    FindVarintNone(ws, TIMESTAMP_CLOCK_ID);
  }

  lemma LaterPartsFound(ws: seq<WireField>, p: Params, delta: u64, body: WireField, interned: Option<seq<byte>>)
    requires LaterShape(ws, p, delta, body, interned)
    ensures FindBytes(ws, CLOCK_SNAPSHOT) == None && FindBytes(ws, TRACE_PACKET_DEFAULTS) == None
    ensures FindBytes(ws, INTERNED_DATA) == interned
    ensures FindBytes(ws, TRACK_EVENT) == if body.id == TRACK_EVENT then Some(body.bytes) else None
    ensures FindBytes(ws, TRACK_DESCRIPTOR) == if body.id == TRACK_DESCRIPTOR then Some(body.bytes) else None
  {
    FindBytesNone(ws, CLOCK_SNAPSHOT);
    FindBytesNone(ws, TRACE_PACKET_DEFAULTS);
    if interned.Some? {
      FindBytesAt(ws, INTERNED_DATA, 4);
    } else {
      FindBytesNone(ws, INTERNED_DATA);
    }
    if body.id == TRACK_EVENT {
      FindBytesAt(ws, TRACK_EVENT, 3);
      FindBytesNone(ws, TRACK_DESCRIPTOR);
    } else {
      FindBytesAt(ws, TRACK_DESCRIPTOR, 3);
      FindBytesNone(ws, TRACK_EVENT);
    }
  }

  /** The interned data of the packet brings the reader's dictionaries up to date. */
  lemma InternedReads(ws: seq<WireField>, ds: Dictionaries, ts: Tables)
    requires TablesValid(ts) && PendingFits(ts) && AllInStep(ds, ts) && FitsAll(InternedPart(ts))
    requires FindBytes(ws, INTERNED_DATA)
          == if NothingPending(ts) then None else Some(EncodeAll(PendingFields(ts)))
    ensures AllDefinable(ds, ts) && ReadInterned(ws, ds) == Some(Caught(ds, ts))
  {
    InStepIsDefinable(ds, ts);
    if NothingPending(ts) {
      CaughtOthers(ds, ts);
      SameDictionaries(ds, Caught(ds, ts));
    } else {
      var part := InternedPart(ts)[0];
      assert Fits(part);
      ParseRoundTrip(PendingFields(ts));
      PendingReads(ds, ts);
    }
  }

  /** The track uuid in an event's fields is the first track item's. */
  lemma {:induction false} TrackReads(p: Params, ts: Tables, items: seq<Item>)
    requires TablesValid(ts)
    ensures var own := FindVarint(FlatAll(LowerAll(ts, items).1), TRACK_UUID);
            EventTrack(p, items) == if own.Some? then own.value else p.threadTrack
    decreases |items|
  {
    if items != [] {
      ReferAllKeeps(ts, Refs(items[0]));
      var (ts', fields) := Lower(ts, items[0]);
      var others := LowerAll(ts', items[1..]).1;
      TrackReads(p, ts', items[1..]);
      FlatAllAppend(fields, others);
      ItemHasTrack(items[0], ReferAll(ts, Refs(items[0])).1);
      FindVarintAppend(FlatAll(fields), FlatAll(others), TRACK_UUID);
    }
  }

  lemma ItemHasTrack(item: Item, iids: seq<u64>)
    requires |iids| == |Refs(item)|
    ensures FindVarint(FlatAll(ItemFields(item, iids)), TRACK_UUID) == if item.OnTrack? then Some(item.uuid) else None
  {
    var ws := FlatAll(ItemFields(item, iids));
    if item.OnTrack? {
      FindVarintAt(ws, TRACK_UUID, 0);
    } else {
      FindVarintNone(ws, TRACK_UUID);
    }
  }

  lemma {:induction false} FindVarintAppend(a: seq<WireField>, b: seq<WireField>, id: nat)
    ensures FindVarint(a + b, id) == if FindVarint(a, id).Some? then FindVarint(a, id) else FindVarint(b, id)
    decreases |a|
  {
    if a == [] {
      assert a + b == b;
    } else {
      assert (a + b)[1..] == a[1..] + b;
      FindVarintAppend(a[1..], b, id);
    }
  }

  /** The body reads back as shown, given the dictionaries the packet itself completes. */
  lemma BodyReads(p: Params, ws: seq<WireField>, ts: Tables, body: Body, last: Tables, ds: Dictionaries)
    requires TablesValid(ts) && AllExtend(LowerBody(ts, body).0, last) && Defined(ds, last)
    requires Fits(LowerBody(ts, body).1)
    requires var bytes := EncodeAll(LowerBody(ts, body).1.body);
             && FindBytes(ws, TRACK_EVENT) == (if body.Event? then Some(bytes) else None)
             && (!body.Event? ==> FindBytes(ws, TRACK_DESCRIPTOR) == Some(bytes))
    ensures body.Event? ==> ItemsKnown(last, body.items)
    ensures ReadContent(ws, ds, Some(Defaults(CUSTOM_CLOCK_ID, p.threadTrack))) == Some(Shown(p, last, body))
  {
    if body.Event? {
      ParseRoundTrip(LowerAll(ts, body.items).1);
      EventReads(ts, body.items, last, ds);
      TrackReads(p, ts, body.items);
    } else {
      DescriptorReads(body);
    }
  }

  lemma LaterShapeHolds(p: Params, st: State, raw: u64, body: Body)
    requires TablesValid(st.tables)
    ensures var (ts, field) := LowerBody(st.tables, body);
            PendingFits(ts)
    ensures var (ts, field) := LowerBody(st.tables, body);
            LaterShape(FlatAll(PacketFields(p, st, raw, body).1), p, SaturatingSub(raw, st.last), Flat(field),
                       if NothingPending(ts) then None else Some(EncodeAll(PendingFields(ts))))
  {
    var (ts, field) := LowerBody(st.tables, body);
    PendingDoesFit(ts);
  }

  lemma LowerBodyKeeps(ds: Dictionaries, ts: Tables, body: Body)
    requires TablesValid(ts) && AllInStep(ds, ts)
    ensures AllExtend(ts, LowerBody(ts, body).0) && AllInStep(ds, LowerBody(ts, body).0)
  {
    if body.Event? {
      LowerAllKeeps(ds, ts, body.items);
    }
  }

  /** A later packet's parts put together. */
  lemma AssembleLater(reader: Reader, ws: seq<WireField>, p: Params, delta: u64, now: nat, ds: Dictionaries,
                      content: Content)
    requires reader.synced && reader.clock == Some(now)
    requires reader.defaults == Some(Defaults(CUSTOM_CLOCK_ID, p.threadTrack))
    requires FindVarint(ws, TRUSTED_PACKET_SEQUENCE_ID) == Some(p.sequenceId)
    requires FindVarint(ws, SEQUENCE_FLAGS) == Some(SEQ_NEEDS_INCREMENTAL_STATE)
    requires FindVarint(ws, TIMESTAMP) == Some(delta) && FindVarint(ws, TIMESTAMP_CLOCK_ID) == None
    requires FindBytes(ws, CLOCK_SNAPSHOT) == None && FindBytes(ws, TRACE_PACKET_DEFAULTS) == None
    requires ReadInterned(ws, reader.dictionaries) == Some(ds)
    requires ReadContent(ws, ds, reader.defaults) == Some(content)
    ensures ReadFields(reader, ws)
         == Some((Reader(true, ds, Some(now + delta), reader.defaults), Seen(p.sequenceId, Some(now + delta), content)))
  {
  }

  /** The interned data and body of the next packet, as an agreeing reader takes them. */
  lemma PartsRead(p: Params, ds: Dictionaries, st: State, raw: u64, body: Body, ws: seq<WireField>)
    returns (ds': Dictionaries)
    requires TablesValid(st.tables) && AllInStep(ds, st.tables)
    requires FitsAll(PacketFields(p, st, raw, body).1) && ws == FlatAll(PacketFields(p, st, raw, body).1)
    ensures var st' := PacketFields(p, st, raw, body).0;
            && AllInStep(ds', st'.tables) && AllExtend(st.tables, st'.tables)
            && (body.Event? ==> ItemsKnown(st'.tables, body.items))
            && ReadInterned(ws, ds) == Some(ds')
            && ReadContent(ws, ds', Some(Defaults(CUSTOM_CLOCK_ID, p.threadTrack))) == Some(Shown(p, st'.tables, body))
  {
    var (ts, field) := LowerBody(st.tables, body);
    var delta := SaturatingSub(raw, st.last);
    LaterShapeHolds(p, st, raw, body);
    LaterPartsFound(ws, p, delta, Flat(field),
                    if NothingPending(ts) then None else Some(EncodeAll(PendingFields(ts))));
    FitsParts(Header(p, delta), field, InternedPart(ts));
    LowerBodyKeeps(ds, st.tables, body);
    InternedReads(ws, ds, ts);
    CaughtIsDefined(ds, ts);
    ds' := Caught(ds, ts);
    SameDefinitions(ds', ts);
    AllExtendTransitive(st.tables, ts, FlushAll(ts));
    BodyReads(p, ws, st.tables, body, FlushAll(ts), ds');
  }

  /**
   The heart of the replay: an agreeing reader accepts the next packet, recovers its
   content - for an event, its track too - and its time, and agrees again.
   */
  lemma PacketReads(p: Params, reader: Reader, st: State, raw: u64, body: Body) returns (reader': Reader)
    requires Agrees(p, reader, st)
    requires FitsAll(PacketFields(p, st, raw, body).1)
    ensures var (st', fields) := PacketFields(p, st, raw, body);
            && Agrees(p, reader', st') && AllExtend(st.tables, st'.tables)
            && (body.Event? ==> ItemsKnown(st'.tables, body.items))
            && ReadPacket(reader, EncodeAll(fields))
            == Some((reader', Seen(p.sequenceId, Some(st'.decoded), Shown(p, st'.tables, body))))
  {
    var (st', fields) := PacketFields(p, st, raw, body);
    var (ts, field) := LowerBody(st.tables, body);
    var ws := FlatAll(fields);
    var delta := SaturatingSub(raw, st.last);
    ParseRoundTrip(fields);
    LaterShapeHolds(p, st, raw, body);
    var interned := if NothingPending(ts) then None else Some(EncodeAll(PendingFields(ts)));
    LaterHeaderFound(ws, p, delta, Flat(field), interned);
    LaterPartsFound(ws, p, delta, Flat(field), interned);
    var ds' := PartsRead(p, reader.dictionaries, st, raw, body, ws);
    AssembleLater(reader, ws, p, delta, st.decoded, ds', Shown(p, st'.tables, body));
    reader' := Reader(true, ds', Some(st'.decoded), reader.defaults);
  }

  /** Flushing removes pending entries only: the definitions stay. */
  lemma SameDefinitions(ds: Dictionaries, ts: Tables)
    requires Defined(ds, ts)
    ensures Defined(ds, FlushAll(ts))
  {
    FlushAllOthers(ts);
    forall space
      ensures IsDictionaryOf(ds.Get(space), FlushAll(ts).Get(space))
    {
      FlushedDictionary(ds.Get(space), ts.Get(space));
    }
  }

  lemma FlushedDictionary(d: Dictionary, t: Table)
    requires IsDictionaryOf(d, t)
    ensures IsDictionaryOf(d, Flushed(t))
  {
    forall iid | iid in d
      ensures exists k :: k in Flushed(t).entries && Flushed(t).entries[k].iid == iid
    {
      var k :| k in t.entries && t.entries[k].iid == iid;
      assert Flushed(t).entries[k].iid == iid;
    }
  }

  lemma FitsParts(header: seq<Field>, field: Field, interned: seq<Field>)
    requires FitsAll(header + [field] + interned)
    ensures Fits(field) && FitsAll(interned)
  {
    FitsAllAppend(header + [field], interned);
    FitsAllAppend(header, [field]);
  }

  // ------------------------------------------------------------ the first packet

  lemma FirstHeaderFound(ws: seq<WireField>, p: Params, opening: Opening, snapshot: seq<byte>)
    requires |ws| == 7 && ws[..6] == FlatAll(FirstHeader(p, opening)) && ws[6] == BytesWire(CLOCK_SNAPSHOT, snapshot)
    ensures FindVarint(ws, TRUSTED_PACKET_SEQUENCE_ID) == Some(p.sequenceId)
    ensures FindVarint(ws, SEQUENCE_FLAGS) == Some(3) && FindVarint(ws, FIRST_PACKET_ON_SEQUENCE) == Some(1)
    ensures FindVarint(ws, TIMESTAMP) == Some(opening.timestamp)
    ensures FindVarint(ws, TIMESTAMP_CLOCK_ID) == Some(opening.clockId)
    ensures FindBytes(ws, CLOCK_SNAPSHOT) == Some(snapshot)
    ensures FindBytes(ws, TRACE_PACKET_DEFAULTS) == Some(EncodeAll(DefaultsField(p).body))
  {
    var head := FlatAll(FirstHeader(p, opening));
    assert forall i :: 0 <= i < 6 ==> ws[i] == ws[..6][i];
    assert ws[5] == Flat(DefaultsField(p));
    FindVarintAt(ws, TIMESTAMP, 0);
    FindVarintAt(ws, TRUSTED_PACKET_SEQUENCE_ID, 1);
    FindVarintAt(ws, SEQUENCE_FLAGS, 2);
    FindVarintAt(ws, FIRST_PACKET_ON_SEQUENCE, 3);
    FindVarintAt(ws, TIMESTAMP_CLOCK_ID, 4);
    FindBytesAt(ws, TRACE_PACKET_DEFAULTS, 5);
    FindBytesAt(ws, CLOCK_SNAPSHOT, 6);
  }

  lemma FirstPartsAbsent(ws: seq<WireField>, p: Params, opening: Opening, snapshot: seq<byte>)
    requires |ws| == 7 && ws[..6] == FlatAll(FirstHeader(p, opening)) && ws[6] == BytesWire(CLOCK_SNAPSHOT, snapshot)
    ensures FindBytes(ws, INTERNED_DATA) == None && FindBytes(ws, TRACK_EVENT) == None
    ensures FindBytes(ws, TRACK_DESCRIPTOR) == None
  {
    assert forall i :: 0 <= i < 6 ==> ws[i] == ws[..6][i];
    assert ws[5] == Flat(DefaultsField(p));
    FindBytesNone(ws, INTERNED_DATA);
    FindBytesNone(ws, TRACK_EVENT);
    FindBytesNone(ws, TRACK_DESCRIPTOR);
  }

  /** The first packet's parts put together, whatever the reader held. */
  lemma AssembleFirst(reader: Reader, ws: seq<WireField>, p: Params, raw: u64, opening: Opening)
    requires FindVarint(ws, TRUSTED_PACKET_SEQUENCE_ID) == Some(p.sequenceId)
    requires FindVarint(ws, SEQUENCE_FLAGS) == Some(3) && FindVarint(ws, FIRST_PACKET_ON_SEQUENCE) == Some(1)
    requires FindVarint(ws, TIMESTAMP) == Some(opening.timestamp)
    requires FindVarint(ws, TIMESTAMP_CLOCK_ID) == Some(opening.clockId)
    requires FindBytes(ws, CLOCK_SNAPSHOT).Some? && FindBytes(ws, TRACE_PACKET_DEFAULTS).Some?
    requires ReadSnapshot(FindBytes(ws, CLOCK_SNAPSHOT).value)
          == Some(Snapped(SaturatingSub(raw, p.anchor), opening))
    requires ReadDefaults(FindBytes(ws, TRACE_PACKET_DEFAULTS).value)
          == Some(Defaults(CUSTOM_CLOCK_ID, p.threadTrack))
    requires FindBytes(ws, INTERNED_DATA) == None && FindBytes(ws, TRACK_EVENT) == None
    requires FindBytes(ws, TRACK_DESCRIPTOR) == None
    ensures ReadFields(reader, ws)
         == Some((Reader(true, NO_DICTIONARIES, Some(SaturatingSub(raw, p.anchor)),
                         Some(Defaults(CUSTOM_CLOCK_ID, p.threadTrack))),
                  Seen(p.sequenceId, None, Opened(p, raw, opening))))
  {
    var snapped := Snapped(SaturatingSub(raw, p.anchor), opening);
    assert CustomClock(snapped.clocks) == Some(SaturatingSub(raw, p.anchor));
  }

  /**
   Whatever a reader held before, the first packet makes it agree with the sequence: on
   the clock, on the default clock and track of the packets to come, and on nothing else.
   It reads back the packet's own time and clock and every clock of its snapshot.
   */
  lemma FirstPacketReads(p: Params, reader: Reader, raw: u64, opening: Opening) returns (reader': Reader)
    requires FitsAll(FirstPacket(p, raw, opening).1)
    ensures var (st', fields) := FirstPacket(p, raw, opening);
            && Agrees(p, reader', st')
            && ReadPacket(reader, EncodeAll(fields))
                == Some((reader', Seen(p.sequenceId, None, Opened(p, raw, opening))))
  {
    var (st', fields) := FirstPacket(p, raw, opening);
    var snapshot := SnapshotField(SaturatingSub(raw, p.anchor), opening);
    ParseRoundTrip(fields);
    var ws := FlatAll(fields);
    FitsAllAppend(FirstHeader(p, opening), [snapshot]);
    assert Fits(snapshot);
    DefaultsFit(p, opening);
    SnapshotReads(SaturatingSub(raw, p.anchor), opening);
    DefaultsRead(p);
    assert ws[..6] == FlatAll(FirstHeader(p, opening));
    FirstHeaderFound(ws, p, opening, EncodeAll(snapshot.body));
    FirstPartsAbsent(ws, p, opening, EncodeAll(snapshot.body));
    AssembleFirst(reader, ws, p, raw, opening);
    EmptyTablesAgree();
    reader' := Reader(true, NO_DICTIONARIES, Some(st'.decoded), Some(Defaults(CUSTOM_CLOCK_ID, p.threadTrack)));
  }

  lemma DefaultsFit(p: Params, opening: Opening)
    requires FitsAll(FirstHeader(p, opening))
    ensures Fits(DefaultsField(p))
  {
    var head := FirstHeader(p, opening);
    assert head == head[..5] + [DefaultsField(p)];
    FitsAllAppend(head[..5], [DefaultsField(p)]);
  }

  lemma EmptyTablesAgree()
    ensures TablesValid(EMPTY_TABLES) && NothingPending(EMPTY_TABLES) && AllInStep(NO_DICTIONARIES, EMPTY_TABLES)
  {
    forall space
      ensures TableValid(EMPTY_TABLES.Get(space), space) && EMPTY_TABLES.Get(space).pending == []
      ensures InStep(NO_DICTIONARIES.Get(space), EMPTY_TABLES.Get(space))
    {
      assert EMPTY_TABLES.Get(space) == EmptyTable(space) && NO_DICTIONARIES.Get(space) == map[];
      EmptyIsValid(space);
    }
  }
}
