/**
 The per-thread encoder as the source keeps it: interners, pending lists, level bits,
 a reused scratch buffer and its cached packet prefix. Every method is proved to do what
 the abstract sequence does, whatever the scratch buffer held before.
 */
module SequenceStates {
  import opened Prelude
  import opened Varints
  import opened Wire
  import opened ProtoBuffers
  import opened Interning
  import opened Events
  import opened InternedData
  import opened PacketFormats
  import opened Packets
  import opened EventWriters

  /** The bit of a level in the seen-levels byte. */
  function Bit(level: Level): bv8 {
    match level
    case TraceLevel => 1
    case DebugLevel => 2
    case InfoLevel => 4
    case WarnLevel => 8
    case ErrorLevel => 16
  }

  function BitIf(levels: set<Level>, level: Level): bv8 {
    if level in levels then Bit(level) else 0
  }

  /** The byte with exactly these levels' bits set. */
  function Mask(levels: set<Level>): bv8 {
    BitIf(levels, TraceLevel) | BitIf(levels, DebugLevel) | BitIf(levels, InfoLevel)
    | BitIf(levels, WarnLevel) | BitIf(levels, ErrorLevel)
  }

  /** Every level has its own bit: testing and setting one never touches another. */
  lemma BitsAreIndependent(levels: set<Level>, level: Level)
    ensures Mask(levels) & Bit(level) != 0 <==> level in levels
    ensures Mask(levels) | Bit(level) == Mask(levels + {level})
  {
  }

  class SequenceState {
    const p: Params
    var lastTimestamp: u64
    var packetPrefix: Option<(nat, MessageToken)>
    var firstPacketDone: bool
    const eventNames: Interner
    const annotationNames: Interner
    const categories: Interner
    var levelNameSeen: bool
    var levelValuesSeen: bv8
    var sourceLocations: map<Address, u64>
    var nextSourceLocationIid: u64
    var newEventNames: seq<Entry>
    var newAnnotationNames: seq<Entry>
    var newAnnotationValues: seq<Entry>
    var newCategories: seq<Entry>
    var newSourceLocations: seq<Entry>
    const scratch: ProtoBuffer

    /** The abstract tables of level values and source locations. */
    ghost var values: Table
    ghost var locations: Table

    /** The levels whose bit is set. */
    ghost var levelsSeen: set<Level>

    constructor (params: Params)
      ensures p == params && Valid() && HeldTables() == EMPTY_TABLES
      ensures !firstPacketDone && packetPrefix == None
      ensures fresh(eventNames) && fresh(annotationNames) && fresh(categories) && fresh(scratch)
    {
      p := params;
      lastTimestamp := params.anchor;
      packetPrefix := None;
      firstPacketDone := false;
      eventNames := new Interner.AfterReserved(EventNames);
      annotationNames := new Interner.AfterReserved(AnnotationNames);
      categories := new Interner.AfterReserved(Categories);
      levelNameSeen, levelValuesSeen := false, 0;
      sourceLocations, nextSourceLocationIid := map[], 0;
      newEventNames, newAnnotationNames, newAnnotationValues, newCategories, newSourceLocations := [], [], [], [], [];
      scratch := new ProtoBuffer();
      values, locations, levelsSeen := EmptyTable(AnnotationValues), EmptyTable(SourceLocations), {};
      new;
      OwnStart();
      InternersStart();
    }

    /** The state's own tables start empty, with no level seen. */
    lemma OwnStart()
      requires values == EmptyTable(AnnotationValues) && locations == EmptyTable(SourceLocations) && levelsSeen == {}
      requires levelValuesSeen == 0 && sourceLocations == map[] && nextSourceLocationIid == 0
      requires newAnnotationValues == [] && newSourceLocations == []
      ensures ValuesHeld() && BitsHeld() && LocationsHeld()
    {
      EmptyIsValid(AnnotationValues);
      EmptyIsValid(SourceLocations);
    }

    /** So do the interners'. */
    lemma InternersStart()
      requires eventNames.Valid() && eventNames.space == EventNames && eventNames.table == EmptyTable(EventNames)
      requires annotationNames.Valid() && annotationNames.space == AnnotationNames
      requires annotationNames.table == EmptyTable(AnnotationNames) && !levelNameSeen
      requires categories.Valid() && categories.space == Categories && categories.table == EmptyTable(Categories)
      requires newEventNames == [] && newAnnotationNames == [] && newCategories == []
      ensures EventNamesHeld() && AnnotationNamesHeld() && CategoriesHeld()
    {
    }

    // -------------------------------------------------------- what the fields represent

    ghost predicate EventNamesHeld()
      reads `newEventNames, eventNames
    {
      eventNames.space == EventNames && eventNames.Valid() && newEventNames == eventNames.table.pending
    }

    ghost predicate AnnotationNamesHeld()
      reads `newAnnotationNames, `levelNameSeen, annotationNames
    {
      && annotationNames.space == AnnotationNames && annotationNames.Valid()
      && newAnnotationNames == annotationNames.table.pending
      && (levelNameSeen <==> LEVEL_NAME_KEY in annotationNames.table.entries)
    }

    ghost predicate CategoriesHeld()
      reads `newCategories, categories
    {
      categories.space == Categories && categories.Valid() && newCategories == categories.table.pending
    }

    ghost predicate ValuesHeld()
      reads `newAnnotationValues, `levelsSeen, `values
    {
      TableValid(values, AnnotationValues) && newAnnotationValues == values.pending && TracksLevels(values, levelsSeen)
    }

    ghost predicate BitsHeld()
      reads `levelValuesSeen, `levelsSeen
    {
      levelValuesSeen == Mask(levelsSeen)
    }

    ghost predicate LocationsHeld()
      reads `newSourceLocations, `nextSourceLocationIid, `sourceLocations, `locations
    {
      && TableValid(locations, SourceLocations)
      && newSourceLocations == locations.pending && nextSourceLocationIid == locations.next
      && (forall a: Address :: a in sourceLocations <==> a in locations.entries)
      && (forall a: Address :: a in sourceLocations ==> sourceLocations[a] == locations.entries[a].iid)
    }

    ghost predicate Apart() {
      && eventNames != annotationNames && annotationNames != categories && categories != eventNames
      && (eventNames as object) != scratch && (annotationNames as object) != scratch
      && (categories as object) != scratch
    }

    ghost predicate TablesHeld()
      reads `newEventNames, `newAnnotationNames, `levelNameSeen, `newCategories, `newAnnotationValues, `levelsSeen
      reads `values
      reads `levelValuesSeen, `newSourceLocations, `nextSourceLocationIid, `sourceLocations, `locations
      reads eventNames, annotationNames, categories
    {
      && Apart() && EventNamesHeld() && AnnotationNamesHeld() && CategoriesHeld()
      && ValuesHeld() && BitsHeld() && LocationsHeld()
    }

    /** The abstract interning state the fields represent. */
    ghost function HeldTables(): Tables
      reads `values, `locations, eventNames, annotationNames, categories
    {
      Tables(eventNames.table, annotationNames.table, values, categories.table, locations)
    }

    ghost predicate PrefixCached()
      reads `packetPrefix, scratch
    {
      CachedIn(packetPrefix, p, scratch.buf)
    }

    ghost predicate Valid()
      reads this, eventNames, annotationNames, categories, scratch
    {
      TablesHeld() && PrefixCached()
    }

    // -------------------------------------------------------- interning

    method InternEventName(name: StaticStr) returns (iid: u64)
      requires EventNamesHeld()
      modifies `newEventNames, eventNames
      ensures EventNamesHeld()
      ensures (eventNames.table, iid as nat)
           == Refer(old(eventNames.table), EventNames, name.address, Payload(name.text, 0))
    {
      iid, newEventNames := eventNames.Intern(name, newEventNames);
    }

    method InternAnnotationName(name: StaticStr) returns (iid: u64)
      requires AnnotationNamesHeld()
      modifies `newAnnotationNames, annotationNames
      ensures AnnotationNamesHeld()
      ensures (annotationNames.table, iid as nat)
           == Refer(old(annotationNames.table), AnnotationNames, name.address, Payload(name.text, 0))
    {
      iid, newAnnotationNames := annotationNames.Intern(name, newAnnotationNames);
    }

    method InternCategory(name: StaticStr) returns (iid: u64)
      requires CategoriesHeld()
      modifies `newCategories, categories
      ensures CategoriesHeld()
      ensures (categories.table, iid as nat)
           == Refer(old(categories.table), Categories, name.address, Payload(name.text, 0))
    {
      iid, newCategories := categories.Intern(name, newCategories);
    }

    method InternSourceLocation(callsite: Address, file: Text, line: u32) returns (iid: u64)
      requires LocationsHeld()
      modifies `newSourceLocations, `nextSourceLocationIid, `sourceLocations, `locations
      ensures LocationsHeld()
      ensures (locations, iid as nat) == Refer(old(locations), SourceLocations, callsite, Payload(file, line))
    {
      ghost var locations' := Refer(locations, SourceLocations, callsite, Payload(file, line)).0;
      ReferKeepsValid(locations, SourceLocations, callsite, Payload(file, line));
      if callsite !in sourceLocations {
        IidsFit(locations', SourceLocations);
        nextSourceLocationIid := nextSourceLocationIid + 1;
        newSourceLocations := newSourceLocations + [Entry(nextSourceLocationIid, Payload(file, line))];
        sourceLocations := sourceLocations[callsite := nextSourceLocationIid];
      }
      locations := locations';
      iid := sourceLocations[callsite];
    }

    /** The annotation name "level" has a reserved iid and is defined on first use. */
    method ReferToLevelName(payload: Payload)
      requires AnnotationNamesHeld() && payload.line == 0
      modifies `newAnnotationNames, `levelNameSeen, annotationNames`table
      ensures AnnotationNamesHeld()
      ensures (annotationNames.table, LEVEL_NAME_IID)
           == Refer(old(annotationNames.table), AnnotationNames, LEVEL_NAME_KEY, payload)
    {
      LevelNameIid(annotationNames.table, payload);
      if !levelNameSeen {
        levelNameSeen := true;
        newAnnotationNames := newAnnotationNames + [Entry(LEVEL_NAME_IID, payload)];
      }
      annotationNames.Reserve(LEVEL_NAME_KEY, payload);
    }

    /** So does every level's value, with one bit to remember it by. */
    method ReferToLevelValue(level: Level, payload: Payload)
      requires ValuesHeld() && BitsHeld() && payload.line == 0
      modifies `newAnnotationValues, `levelValuesSeen, `levelsSeen, `values
      ensures ValuesHeld() && BitsHeld()
      ensures (values, level.Number()) == Refer(old(values), AnnotationValues, level.Number(), payload)
    {
      ghost var values' := Refer(values, AnnotationValues, level.Number(), payload).0;
      LevelValueAdded(values, level, levelsSeen, payload);
      var seen := LevelValueSeen(level);
      if !seen {
        SetBit(level);
        newAnnotationValues := newAnnotationValues + [Entry(level.Number(), payload)];
      }
      values := values';
    }

    method LevelValueSeen(level: Level) returns (seen: bool)
      requires BitsHeld()
      ensures seen == (level in levelsSeen)
    {
      BitsAreIndependent(levelsSeen, level);
      seen := levelValuesSeen & Bit(level) != 0;
    }

    method SetBit(level: Level)
      requires BitsHeld()
      modifies `levelValuesSeen, `levelsSeen
      ensures BitsHeld() && levelsSeen == old(levelsSeen) + {level}
    {
      BitsAreIndependent(levelsSeen, level);
      levelValuesSeen := levelValuesSeen | Bit(level);
      levelsSeen := levelsSeen + {level};
    }

    method ReferEventName(name: StaticStr) returns (iid: u64)
      requires TablesHeld()
      modifies `newEventNames, eventNames
      ensures TablesHeld()
      ensures var (ts, i) := ReferTo(old(HeldTables()), StringRef(EventNames, name));
              HeldTables() == ts && iid == i
    {
      ghost var ts := HeldTables();
      iid := InternEventName(name);
      assert HeldTables() == ts.(names := eventNames.table);
    }

    method ReferAnnotationName(name: StaticStr) returns (iid: u64)
      requires TablesHeld()
      modifies `newAnnotationNames, annotationNames
      ensures TablesHeld()
      ensures var (ts, i) := ReferTo(old(HeldTables()), StringRef(AnnotationNames, name));
              HeldTables() == ts && iid == i
    {
      ghost var ts := HeldTables();
      iid := InternAnnotationName(name);
      assert HeldTables() == ts.(annotations := annotationNames.table);
    }

    method ReferCategory(name: StaticStr) returns (iid: u64)
      requires TablesHeld()
      modifies `newCategories, categories
      ensures TablesHeld()
      ensures var (ts, i) := ReferTo(old(HeldTables()), StringRef(Categories, name));
              HeldTables() == ts && iid == i
    {
      ghost var ts := HeldTables();
      iid := InternCategory(name);
      assert HeldTables() == ts.(categories := categories.table);
    }

    method ReferSourceLocation(callsite: Address, file: Text, line: u32) returns (iid: u64)
      requires TablesHeld()
      modifies `newSourceLocations, `nextSourceLocationIid, `sourceLocations, `locations
      ensures TablesHeld()
      ensures var (ts, i) := ReferTo(old(HeldTables()), Ref(SourceLocations, callsite, Payload(file, line)));
              HeldTables() == ts && iid == i
    {
      iid := InternSourceLocation(callsite, file, line);
    }

    method ReferLevelName(name: Payload)
      requires TablesHeld() && name.line == 0
      modifies `newAnnotationNames, `levelNameSeen, annotationNames
      ensures TablesHeld()
      ensures var (ts, i) := ReferTo(old(HeldTables()), Ref(AnnotationNames, LEVEL_NAME_KEY, name));
              HeldTables() == ts && LEVEL_NAME_IID == i
    {
      ReferToLevelName(name);
    }

    method ReferLevelValue(level: Level, value: Payload)
      requires TablesHeld() && value.line == 0
      modifies `newAnnotationValues, `levelValuesSeen, `levelsSeen, `values
      ensures TablesHeld()
      ensures var (ts, i) := ReferTo(old(HeldTables()), Ref(AnnotationValues, level.Number(), value));
              HeldTables() == ts && level.Number() == i
    {
      ReferToLevelValue(level, value);
    }

    method ReferLevel(level: Level) returns (iids: seq<u64>)
      requires TablesHeld()
      modifies `newAnnotationNames, `levelNameSeen, annotationNames
      modifies `newAnnotationValues, `levelValuesSeen, `levelsSeen, `values
      ensures TablesHeld()
      ensures iids == [LEVEL_NAME_IID, level.Number()]
      ensures (HeldTables(), iids) == ReferAll(old(HeldTables()), LevelRefs(level))
    {
      ghost var before := HeldTables();
      ReferLevelName(LEVEL_NAME_REF.payload);
      ReferLevelValue(level, LevelValueRef(level).payload);
      iids := LevelIids(level);
      ReferBoth(before, level);
    }

    /** Interns the one string or location an item refers to. */
    method ReferSingle(item: Item) returns (iid: u64)
      requires TablesHeld() && RefersOnce(item)
      modifies `newEventNames, `newAnnotationNames, `levelNameSeen, `newCategories, `newAnnotationValues, `levelsSeen
      modifies `values, `levelValuesSeen, `newSourceLocations, `nextSourceLocationIid, `sourceLocations, `locations
      modifies eventNames, annotationNames, categories
      ensures TablesHeld()
      ensures var (ts, i) := ReferTo(old(HeldTables()), Refs(item)[0]); HeldTables() == ts && iid == i
    {
      match item {
        case Named(name) => iid := ReferEventName(name);
        case InCategory(target) => iid := ReferCategory(target);
        case Annotated(name, _) => iid := ReferAnnotationName(name);
        case AtLocation(callsite, file, line) => iid := ReferSourceLocation(callsite, file, line);
      }
    }

    /** Interns whatever an item refers to, in the source's order. */
    method InternRefs(item: Item) returns (iids: seq<u64>)
      requires TablesHeld()
      modifies `newEventNames, `newAnnotationNames, `levelNameSeen, `newCategories, `newAnnotationValues, `levelsSeen
      modifies `values, `levelValuesSeen, `newSourceLocations, `nextSourceLocationIid, `sourceLocations, `locations
      modifies eventNames, annotationNames, categories
      ensures TablesHeld()
      ensures (HeldTables(), iids) == ReferAll(old(HeldTables()), Refs(item))
    {
      if item.AtLevel? {
        RefersToLevel(HeldTables(), item);
        iids := ReferLevel(item.level);
      } else if RefersOnce(item) {
        iids := ReferTheOne(item);
      } else {
        iids := [];
        RefersNowhere(HeldTables(), item);
      }
    }

    method ReferTheOne(item: Item) returns (iids: seq<u64>)
      requires TablesHeld() && RefersOnce(item)
      modifies `newEventNames, `newAnnotationNames, `levelNameSeen, `newCategories, `newAnnotationValues, `levelsSeen
      modifies `values, `levelValuesSeen, `newSourceLocations, `nextSourceLocationIid, `sourceLocations, `locations
      modifies eventNames, annotationNames, categories
      ensures TablesHeld()
      ensures (HeldTables(), iids) == ReferAll(old(HeldTables()), Refs(item))
    {
      RefersOnceTo(HeldTables(), item);
      var iid := ReferSingle(item);
      iids := [iid];
    }

    // -------------------------------------------------------- packets

    /**
     Opens a packet in the scratch buffer: either by cutting it back to the cached
     prefix or by writing the prefix and caching it.
     */
    method OpenPacket(delta: u64)
      requires PrefixCached()
      modifies `packetPrefix, scratch
      ensures PrefixCached() && Holds(scratch.buf, Header(p, delta))
    {
      if packetPrefix.Some? {
        scratch.Truncate(packetPrefix.value.0);
      } else {
        InitializePacketPrefix();
      }
      HoldsMore(scratch.buf, HeaderPrefix(p), [VarintField(TIMESTAMP, delta)]);
      EncodeAllOne(VarintField(TIMESTAMP, delta));
      CachedGrows(packetPrefix, p, scratch.buf, EncodeField(VarintField(TIMESTAMP, delta)));
      scratch.VarintField(TIMESTAMP, delta);
    }

    method InitializePacketPrefix()
      modifies `packetPrefix, scratch
      ensures packetPrefix == Some((|scratch.buf|, ROOT)) && Holds(scratch.buf, HeaderPrefix(p))
      ensures PrefixCached()
    {
      scratch.Clear();
      var root := scratch.BeginMessage(PACKET);
      assert Holds(scratch.buf, []);
      HoldsMore(scratch.buf, [], HeaderPrefix(p));
      TwoFields(HeaderPrefix(p)[0], HeaderPrefix(p)[1]);
      assert HeaderPrefix(p) == [HeaderPrefix(p)[0], HeaderPrefix(p)[1]] && [] + HeaderPrefix(p) == HeaderPrefix(p);
      ghost var begun := scratch.buf;
      scratch.VarintField(TRUSTED_PACKET_SEQUENCE_ID, p.sequenceId);
      scratch.VarintField(SEQUENCE_FLAGS, SEQ_NEEDS_INCREMENTAL_STATE);
      assert scratch.buf == begun + EncodeAll(HeaderPrefix(p));
      packetPrefix := Some((|scratch.buf|, root));
      assert scratch.buf[..|scratch.buf|] == scratch.buf;
    }

    /** Interns and writes one item of an event; false where the source panics. */
    method WriteItem(item: Item, ghost ts: Tables) returns (ok: bool)
      requires TablesHeld() && ts == HeldTables() && TablesValid(ts)
      modifies `newEventNames, `newAnnotationNames, `levelNameSeen, `newCategories, `newAnnotationValues, `levelsSeen
      modifies `values, `levelValuesSeen, `newSourceLocations, `nextSourceLocationIid, `sourceLocations, `locations
      modifies eventNames, annotationNames, categories, scratch
      ensures TablesHeld()
      ensures var (ts', fields) := Lower(ts, item);
              && HeldTables() == ts' && ok == FitsAll(fields)
              && (ok ==> scratch.buf == old(scratch.buf) + EncodeAll(fields))
    {
      var iids := InternRefs(item);
      var writer := new TrackEventWriter(scratch);
      ok := writer.Write(item, iids);
    }

    /** The event's items, in order. */
    method WriteItems(items: seq<Item>, ghost ts: Tables) returns (ok: bool)
      requires TablesHeld() && ts == HeldTables() && TablesValid(ts)
      modifies `newEventNames, `newAnnotationNames, `levelNameSeen, `newCategories, `newAnnotationValues, `levelsSeen
      modifies `values, `levelValuesSeen, `newSourceLocations, `nextSourceLocationIid, `sourceLocations, `locations
      modifies eventNames, annotationNames, categories, scratch
      ensures TablesHeld()
      ensures var (ts', fields) := LowerAll(ts, items);
              && ok == FitsAll(fields)
              && (ok ==> HeldTables() == ts' && scratch.buf == old(scratch.buf) + EncodeAll(fields))
      decreases |items|
    {
      if items == [] {
        return true;
      }
      LowerAllSplits(ts, items, scratch.buf);
      ok := WriteItem(items[0], ts);
      if ok {
        ok := WriteItems(items[1..], Lower(ts, items[0]).0);
      }
    }

    /** The packet's body: an event's items, or a whole descriptor. */
    method WriteBody(body: Body, ghost ts: Tables) returns (ok: bool)
      requires TablesHeld() && ts == HeldTables() && TablesValid(ts)
      modifies `newEventNames, `newAnnotationNames, `levelNameSeen, `newCategories, `newAnnotationValues, `levelsSeen
      modifies `values, `levelValuesSeen, `newSourceLocations, `nextSourceLocationIid, `sourceLocations, `locations
      modifies eventNames, annotationNames, categories, scratch
      ensures TablesHeld()
      ensures ok == Fits(LowerBody(ts, body).1)
      ensures ok ==> HeldTables() == LowerBody(ts, body).0
      ensures ok ==> scratch.buf == old(scratch.buf) + EncodeField(LowerBody(ts, body).1)
    {
      if body.Event? {
        ok := WriteEvent(body.items, ts);
      } else {
        ok := scratch.WriteField(BodyField(body));
      }
    }

    method WriteEvent(items: seq<Item>, ghost ts: Tables) returns (ok: bool)
      requires TablesHeld() && ts == HeldTables() && TablesValid(ts)
      modifies `newEventNames, `newAnnotationNames, `levelNameSeen, `newCategories, `newAnnotationValues, `levelsSeen
      modifies `values, `levelValuesSeen, `newSourceLocations, `nextSourceLocationIid, `sourceLocations, `locations
      modifies eventNames, annotationNames, categories, scratch
      ensures TablesHeld()
      ensures ok == Fits(EventField(ts, items))
      ensures ok ==> HeldTables() == LowerAll(ts, items).0
      ensures ok ==> scratch.buf == old(scratch.buf) + EncodeField(EventField(ts, items))
    {
      ghost var before := scratch.buf;
      var token := scratch.BeginMessage(TRACK_EVENT);
      ok := WriteItems(items, ts);
      if ok {
        ok := CloseEvent(token, before, ts, items);
      }
    }

    method CloseEvent(token: MessageToken, ghost before: seq<byte>, ghost ts: Tables,
                      ghost items: seq<Item>) returns (ok: bool)
      requires TablesValid(ts) && FitsAll(LowerAll(ts, items).1)
      requires scratch.buf == before + Tag(TRACK_EVENT, DELIMITED) + [0, 0, 0, 0] + EncodeAll(LowerAll(ts, items).1)
      requires token == MessageToken(|before| + |Tag(TRACK_EVENT, DELIMITED)|,
                                     |before| + |Tag(TRACK_EVENT, DELIMITED)| + MESSAGE_LEN_PREFIX_SIZE)
      modifies scratch
      ensures ok == Fits(EventField(ts, items))
      ensures ok ==> scratch.buf == before + EncodeField(EventField(ts, items))
    {
      ok := scratch.CloseMessage(token, before, TRACK_EVENT, LowerAll(ts, items).1);
    }

    /** The packet's interned data, if there is any; afterwards nothing is pending. */
    method EmitInternedData(ghost ts: Tables) returns (ok: bool)
      requires TablesHeld() && ts == HeldTables() && PendingFits(ts)
      modifies `newEventNames, `newAnnotationNames, `levelNameSeen, `newCategories, `newAnnotationValues, `levelsSeen
      modifies `values, `levelValuesSeen, `newSourceLocations, `nextSourceLocationIid, `sourceLocations, `locations
      modifies eventNames, annotationNames, categories, scratch
      ensures ok == FitsAll(InternedPart(ts))
      ensures ok ==> TablesHeld() && HeldTables() == FlushAll(ts)
      ensures ok ==> scratch.buf == old(scratch.buf) + EncodeAll(InternedPart(ts))
    {
      PendingInLists(ts);
      if newEventNames != [] || newAnnotationNames != [] || newAnnotationValues != [] || newCategories != []
         || newSourceLocations != [] {
        EncodeAllOne(Message(INTERNED_DATA, PendingFields(ts)));
        SingleField(InternedPart(ts));
        ok := WritePending(ts);
      } else {
        ok := true;
      }
      if ok {
        ClearPending();
      }
    }

    method WritePending(ghost ts: Tables) returns (ok: bool)
      requires TablesHeld() && ts == HeldTables() && PendingFits(ts)
      modifies scratch
      ensures ok == Fits(Message(INTERNED_DATA, PendingFields(ts)))
      ensures ok ==> scratch.buf == old(scratch.buf) + EncodeField(Message(INTERNED_DATA, PendingFields(ts)))
    {
      ghost var before := scratch.buf;
      var token := scratch.BeginMessage(INTERNED_DATA);
      ok := WriteLists(ts);
      if ok {
        ok := scratch.CloseMessage(token, before, INTERNED_DATA, PendingFields(ts));
      }
    }

    method WriteLists(ghost ts: Tables) returns (ok: bool)
      requires TablesHeld() && ts == HeldTables() && PendingFits(ts)
      modifies scratch
      ensures ok == FitsAll(PendingFields(ts))
      ensures ok ==> scratch.buf == old(scratch.buf) + EncodeAll(PendingFields(ts))
    {
      PendingInLists(ts);
      PendingFieldsInOrder(ts, scratch.buf);
      ok := WriteEntries(scratch, Categories, newCategories);
      if !ok { return; }
      ok := WriteEntries(scratch, EventNames, newEventNames);
      if !ok { return; }
      ok := WriteEntries(scratch, AnnotationNames, newAnnotationNames);
      if !ok { return; }
      ok := WriteEntries(scratch, AnnotationValues, newAnnotationValues);
      if !ok { return; }
      ok := WriteEntries(scratch, SourceLocations, newSourceLocations);
    }

    method ClearPending()
      requires TablesHeld()
      modifies `newEventNames, `newAnnotationNames, `newCategories, eventNames, annotationNames, categories
      modifies `newAnnotationValues, `values, `newSourceLocations, `locations
      ensures TablesHeld() && HeldTables() == FlushAll(old(HeldTables()))
    {
      ghost var ts := HeldTables();
      ClearInterned();
      assert HeldTables() == FlushAll(ts).(values := ts.values, locations := ts.locations);
      ClearOwn();
    }

    method ClearOwn()
      requires ValuesHeld() && LocationsHeld()
      modifies `newAnnotationValues, `values, `newSourceLocations, `locations
      ensures ValuesHeld() && LocationsHeld()
      ensures values == Flushed(old(values)) && locations == Flushed(old(locations))
    {
      ClearValues();
      ClearLocations();
    }

    method ClearInterned()
      requires Apart() && EventNamesHeld() && AnnotationNamesHeld() && CategoriesHeld()
      modifies `newEventNames, `newAnnotationNames, `newCategories, eventNames, annotationNames, categories
      ensures EventNamesHeld() && AnnotationNamesHeld() && CategoriesHeld()
      ensures eventNames.table == Flushed(old(eventNames.table)) && categories.table == Flushed(old(categories.table))
      ensures annotationNames.table == Flushed(old(annotationNames.table))
    {
      ClearEventNames();
      ClearAnnotationNames();
      ClearCategories();
    }

    method ClearEventNames()
      requires EventNamesHeld()
      modifies `newEventNames, eventNames
      ensures EventNamesHeld() && eventNames.table == Flushed(old(eventNames.table))
    {
      newEventNames := [];
      eventNames.Flush();
    }

    method ClearAnnotationNames()
      requires AnnotationNamesHeld()
      modifies `newAnnotationNames, annotationNames
      ensures AnnotationNamesHeld() && annotationNames.table == Flushed(old(annotationNames.table))
    {
      newAnnotationNames := [];
      annotationNames.Flush();
    }

    method ClearCategories()
      requires CategoriesHeld()
      modifies `newCategories, categories
      ensures CategoriesHeld() && categories.table == Flushed(old(categories.table))
    {
      newCategories := [];
      categories.Flush();
    }

    method ClearValues()
      requires ValuesHeld()
      modifies `newAnnotationValues, `values
      ensures ValuesHeld() && values == Flushed(old(values))
    {
      FlushKeepsValid(values, AnnotationValues);
      newAnnotationValues, values := [], Flushed(values);
    }

    method ClearLocations()
      requires LocationsHeld()
      modifies `newSourceLocations, `locations
      ensures LocationsHeld() && locations == Flushed(old(locations))
    {
      FlushKeepsValid(locations, SourceLocations);
      newSourceLocations, locations := [], Flushed(locations);
    }

    lemma PendingInLists(ts: Tables)
      requires TablesHeld() && ts == HeldTables()
      ensures newCategories == ts.categories.pending && newEventNames == ts.names.pending
      ensures newAnnotationNames == ts.annotations.pending && newAnnotationValues == ts.values.pending
      ensures newSourceLocations == ts.locations.pending
      ensures NothingPending(ts) <==> newEventNames == [] && newAnnotationNames == [] && newAnnotationValues == []
                                      && newCategories == [] && newSourceLocations == []
      ensures NothingPending(ts) ==> FlushAll(ts) == ts
    {
      assert forall space :: ts.Get(space) in {ts.names, ts.annotations, ts.values, ts.categories, ts.locations};
      if NothingPending(ts) {
        assert ts.Get(EventNames).pending == [] && ts.Get(AnnotationNames).pending == []
               && ts.Get(AnnotationValues).pending == [];
        assert ts.Get(Categories).pending == [] && ts.Get(SourceLocations).pending == [];
      }
    }

    /** Dropping a packet: its interned data, then its length. */
    method FinishPacket(ghost ts: Tables, ghost fields: seq<Field>) returns (ok: bool)
      requires TablesHeld() && ts == HeldTables() && PendingFits(ts)
      requires PrefixCached() && Holds(scratch.buf, fields) && FitsAll(fields)
      modifies `newEventNames, `newAnnotationNames, `levelNameSeen, `newCategories, `newAnnotationValues, `levelsSeen
      modifies `values, `levelValuesSeen, `newSourceLocations, `nextSourceLocationIid, `sourceLocations, `locations
      modifies eventNames, annotationNames, categories, scratch
      ensures var packet := Message(PACKET, fields + InternedPart(ts));
              && ok == Fits(packet)
              && (ok ==> Valid() && HeldTables() == FlushAll(ts) && scratch.buf == EncodeField(packet))
    {
      var all := fields + InternedPart(ts);
      FitsAllAppend(fields, InternedPart(ts));
      HoldsMore(scratch.buf, fields, InternedPart(ts));
      CachedGrows(packetPrefix, p, scratch.buf, EncodeAll(InternedPart(ts)));
      ok := EmitInternedData(ts);
      if ok {
        ok := CloseRoot(all);
      }
    }

    /** Fills in the packet's length. */
    method CloseRoot(ghost all: seq<Field>) returns (ok: bool)
      requires PrefixCached() && Holds(scratch.buf, all) && FitsAll(all)
      modifies scratch
      ensures ok == Fits(Message(PACKET, all))
      ensures ok ==> PrefixCached() && scratch.buf == EncodeField(Message(PACKET, all))
    {
      HoldsFinishes(scratch.buf, all);
      CachedSurvives(packetPrefix, p, scratch.buf);
      ok := scratch.FinishMessage(ROOT);
    }

    /**
     One packet after the first. Whatever the scratch buffer held, and whether or not its
     prefix was reused, it ends up holding exactly the freshly encoded packet.
     */
    method Packet(raw: u64, body: Body, ghost st: State) returns (ok: bool)
      requires Valid() && firstPacketDone && st == State(HeldTables(), lastTimestamp, true, st.decoded)
      requires TablesValid(st.tables)
      modifies this, eventNames, annotationNames, categories, scratch
      ensures var (st', fields) := PacketFields(p, st, raw, body);
              && ok == Fits(Message(PACKET, fields))
              && (ok ==> scratch.buf == EncodeField(Message(PACKET, fields)))
              && (ok ==> Valid() && firstPacketDone && HeldTables() == st'.tables && lastTimestamp == st'.last)
    {
      PacketParts(p, st, raw, body);
      ok := NextPacket(raw, body, st.tables);
    }

    method NextPacket(raw: u64, body: Body, ghost ts: Tables) returns (ok: bool)
      requires TablesHeld() && PrefixCached() && ts == HeldTables() && TablesValid(ts)
      modifies `newEventNames, `newAnnotationNames, `levelNameSeen, `newCategories, `newAnnotationValues, `levelsSeen
      modifies `values, `levelValuesSeen, `newSourceLocations, `nextSourceLocationIid, `sourceLocations, `locations
      modifies `lastTimestamp, `packetPrefix, eventNames, annotationNames, categories, scratch
      ensures lastTimestamp == raw
      ensures PendingFits(LowerBody(ts, body).0)
      ensures var packet := Whole(ts, body, Header(p, SaturatingSub(raw, old(lastTimestamp))));
              && ok == Fits(packet)
              && (ok ==>
                    && TablesHeld() && PrefixCached()
                    && HeldTables() == FlushAll(LowerBody(ts, body).0) && scratch.buf == EncodeField(packet))
    {
      var delta := SaturatingSub(raw, lastTimestamp);
      lastTimestamp := raw;
      StartPacket(delta);
      ok := CompletePacket(body, ts, Header(p, delta));
    }

    method StartPacket(delta: u64)
      requires TablesHeld() && PrefixCached()
      modifies `packetPrefix, scratch
      ensures TablesHeld()
      ensures PrefixCached() && Holds(scratch.buf, Header(p, delta)) && FitsAll(Header(p, delta))
    {
      HeaderFits(p, delta);
      OpenPacket(delta);
    }

    method CompletePacket(body: Body, ghost ts: Tables, ghost header: seq<Field>) returns (ok: bool)
      requires TablesHeld() && ts == HeldTables() && TablesValid(ts)
      requires PrefixCached() && Holds(scratch.buf, header) && FitsAll(header)
      modifies `newEventNames, `newAnnotationNames, `levelNameSeen, `newCategories, `newAnnotationValues, `levelsSeen
      modifies `values, `levelValuesSeen, `newSourceLocations, `nextSourceLocationIid, `sourceLocations, `locations
      modifies eventNames, annotationNames, categories, scratch
      ensures PendingFits(LowerBody(ts, body).0)
      ensures var packet := Whole(ts, body, header);
              && ok == Fits(packet)
              && (ok ==>
                  Valid() && HeldTables() == FlushAll(LowerBody(ts, body).0) && scratch.buf == EncodeField(packet))
    {
      ghost var (ts', field) := LowerBody(ts, body);
      WholeParts(ts, body, header);
      ok := AddBody(body, ts, header);
      if ok {
        ok := FinishPacket(ts', header + [field]);
      }
    }

    method AddBody(body: Body, ghost ts: Tables, ghost header: seq<Field>) returns (ok: bool)
      requires TablesHeld() && ts == HeldTables() && TablesValid(ts)
      requires PrefixCached() && Holds(scratch.buf, header)
      modifies `newEventNames, `newAnnotationNames, `levelNameSeen, `newCategories, `newAnnotationValues, `levelsSeen
      modifies `values, `levelValuesSeen, `newSourceLocations, `nextSourceLocationIid, `sourceLocations, `locations
      modifies eventNames, annotationNames, categories, scratch
      ensures ok == Fits(LowerBody(ts, body).1)
      ensures ok ==> TablesHeld() && HeldTables() == LowerBody(ts, body).0
      ensures ok ==> PrefixCached() && Holds(scratch.buf, header + [LowerBody(ts, body).1])
    {
      ghost var before := scratch.buf;
      ok := WriteBody(body, ts);
      if ok {
        FieldAppended(packetPrefix, p, before, header, LowerBody(ts, body).1, scratch.buf);
      }
    }

    /** The first packet resets the reader and anchors its clock. */
    method FirstPacket(raw: u64, opening: Opening) returns (ok: bool)
      requires Valid() && !firstPacketDone && packetPrefix == None && HeldTables() == EMPTY_TABLES
      modifies this, eventNames, annotationNames, categories, scratch
      ensures var (st', fields) := Packets.FirstPacket(p, raw, opening);
              && ok == Fits(Message(PACKET, fields))
              && (ok ==> scratch.buf == EncodeField(Message(PACKET, fields)))
              && (ok ==> Valid() && firstPacketDone && HeldTables() == st'.tables && lastTimestamp == st'.last)
    {
      lastTimestamp := raw;
      firstPacketDone := true;
      ok := WriteWhole(Packets.FirstPacket(p, raw, opening).1);
    }

    method WriteWhole(fields: seq<Field>) returns (ok: bool)
      modifies scratch
      ensures ok == Fits(Message(PACKET, fields))
      ensures ok ==> scratch.buf == EncodeField(Message(PACKET, fields))
    {
      scratch.Clear();
      ok := scratch.WriteMessage(PACKET, fields);
      assert [] + EncodeField(Message(PACKET, fields)) == EncodeField(Message(PACKET, fields));
    }
  }

  /** The length slot and payload of a packet at the start of the scratch buffer. */
  const ROOT: MessageToken := MessageToken(|Tag(PACKET, DELIMITED)|, |Tag(PACKET, DELIMITED)| + MESSAGE_LEN_PREFIX_SIZE)

  /** A cached prefix is still at the front of the buffer, its length slot stale. */
  ghost predicate CachedIn(prefix: Option<(nat, MessageToken)>, p: Params, buf: seq<byte>) {
    prefix.Some? ==>
      var (len, root) := prefix.value;
      root == ROOT && len <= |buf| && Holds(buf[..len], HeaderPrefix(p))
  }

  lemma CachedGrows(prefix: Option<(nat, MessageToken)>, p: Params, buf: seq<byte>, more: seq<byte>)
    requires CachedIn(prefix, p, buf)
    ensures CachedIn(prefix, p, buf + more)
  {
    if prefix.Some? {
      var len := prefix.value.0;
      assert (buf + more)[..len] == buf[..len];
    }
  }

  lemma HoldsMore(buf: seq<byte>, fields: seq<Field>, more: seq<Field>)
    requires Holds(buf, fields)
    ensures Holds(buf + EncodeAll(more), fields + more)
  {
    EncodeAllAppend(fields, more);
    SlicesOfAppend(buf, EncodeAll(more), ROOT.lenPrefix);
    SlicesOfAppend(buf, EncodeAll(more), ROOT.payloadStart);
  }

  lemma SlicesOfAppend(buf: seq<byte>, more: seq<byte>, k: nat)
    requires k <= |buf|
    ensures (buf + more)[..k] == buf[..k] && (buf + more)[k..] == buf[k..] + more
  {
  }

  lemma FieldAppended(prefix: Option<(nat, MessageToken)>, p: Params, buf: seq<byte>, fields: seq<Field>, field: Field,
                      buf': seq<byte>)
    requires Holds(buf, fields) && CachedIn(prefix, p, buf) && buf' == buf + EncodeField(field)
    ensures Holds(buf', fields + [field]) && CachedIn(prefix, p, buf')
  {
    HoldsMore(buf, fields, [field]);
    EncodeAllOne(field);
    CachedGrows(prefix, p, buf, EncodeField(field));
  }

  /** Filling in the length makes the buffer the encoded packet, whatever the slot held. */
  lemma HoldsFinishes(buf: seq<byte>, fields: seq<Field>)
    requires Holds(buf, fields)
    ensures buf[..ROOT.lenPrefix] + Framed(buf[ROOT.payloadStart..]) == EncodeField(Message(PACKET, fields))
  {
  }

  /** ... and leaves the cached prefix usable. */
  lemma CachedSurvives(prefix: Option<(nat, MessageToken)>, p: Params, buf: seq<byte>)
    requires CachedIn(prefix, p, buf) && ROOT.payloadStart <= |buf|
    ensures CachedIn(prefix, p, buf[..ROOT.lenPrefix] + Framed(buf[ROOT.payloadStart..]))
  {
    if prefix.Some? {
      var len := prefix.value.0;
      var finished := buf[..ROOT.lenPrefix] + Framed(buf[ROOT.payloadStart..]);
      assert finished[ROOT.payloadStart..] == buf[ROOT.payloadStart..];
      assert finished[..len][..ROOT.lenPrefix] == buf[..len][..ROOT.lenPrefix];
      assert finished[..len][ROOT.payloadStart..] == buf[..len][ROOT.payloadStart..];
    }
  }

  /** The buffer is an unfinished packet with these fields; its length slot may be stale. */
  ghost predicate Holds(buf: seq<byte>, fields: seq<Field>) {
    && ROOT.payloadStart <= |buf|
    && buf[..ROOT.lenPrefix] == Tag(PACKET, DELIMITED)
    && buf[ROOT.payloadStart..] == EncodeAll(fields)
  }

  lemma LevelNameIid(t: Table, payload: Payload)
    requires TableValid(t, AnnotationNames)
    ensures Refer(t, AnnotationNames, LEVEL_NAME_KEY, payload).1 == LEVEL_NAME_IID
  {
    if LEVEL_NAME_KEY in t.entries {
      assert IidInRange(t, AnnotationNames, LEVEL_NAME_KEY);
    }
  }

  ghost predicate TracksLevels(t: Table, levels: set<Level>) {
    forall level: Level :: level in levels <==> level.Number() in t.entries
  }

  /** Referring to a level's value defines it exactly when the level is new. */
  lemma LevelValueAdded(t: Table, level: Level, levels: set<Level>, payload: Payload)
    requires TableValid(t, AnnotationValues) && TracksLevels(t, levels) && payload.line == 0
    ensures var (t', iid) := Refer(t, AnnotationValues, level.Number(), payload);
            && iid == level.Number() && TableValid(t', AnnotationValues)
            && (if level in levels then t' == t
                else t'.pending == t.pending + [Entry(level.Number(), payload)] && TracksLevels(t', levels + {level}))
  {
    ReferKeepsValid(t, AnnotationValues, level.Number(), payload);
    if level.Number() in t.entries {
      assert IidInRange(t, AnnotationValues, level.Number());
    } else {
      LevelTracked(t, level, levels, payload);
    }
  }

  lemma LevelTracked(t: Table, level: Level, levels: set<Level>, payload: Payload)
    requires TracksLevels(t, levels)
    ensures TracksLevels(Refer(t, AnnotationValues, level.Number(), payload).0, levels + {level})
  {
    assert forall other: Level :: other.Number() == level.Number() ==> other == level;
  }

  lemma ReferOne(ts: Tables, ref: Ref)
    ensures ReferAll(ts, [ref]) == (ReferTo(ts, ref).0, [ReferTo(ts, ref).1])
  {
    assert [ref][1..] == [];
    assert [ReferTo(ts, ref).1] + [] == [ReferTo(ts, ref).1];
  }

  /** The items that refer to one string or location. */
  predicate RefersOnce(item: Item)
    ensures RefersOnce(item) ==> |Refs(item)| == 1
  {
    item.Named? || item.InCategory? || item.AtLocation? || item.Annotated?
  }

  lemma RefersOnceTo(ts: Tables, item: Item)
    requires RefersOnce(item)
    ensures ReferAll(ts, Refs(item)) == (ReferTo(ts, Refs(item)[0]).0, [ReferTo(ts, Refs(item)[0]).1])
  {
    ReferOne(ts, Refs(item)[0]);
    assert Refs(item) == [Refs(item)[0]];
  }

  lemma RefersToLevel(ts: Tables, item: Item)
    requires item.AtLevel?
    ensures ReferAll(ts, Refs(item)) == ReferAll(ts, LevelRefs(item.level))
  {
  }

  lemma RefersNowhere(ts: Tables, item: Item)
    requires !item.AtLevel? && !RefersOnce(item)
    ensures ReferAll(ts, Refs(item)) == (ts, [])
  {
  }

  lemma ReferTwo(ts: Tables, a: Ref, b: Ref)
    ensures var (ts', i) := ReferTo(ts, a);
            var (ts'', j) := ReferTo(ts', b);
            ReferAll(ts, [a, b]) == (ts'', [i, j])
  {
    var (ts', i) := ReferTo(ts, a);
    ReferOne(ts', b);
    assert [a, b][1..] == [b];
    assert [i] + [ReferTo(ts', b).1] == [i, ReferTo(ts', b).1];
  }

  function LevelIids(level: Level): seq<u64> {
    [LEVEL_NAME_IID, level.Number()]
  }

  lemma ReferBoth(ts: Tables, level: Level)
    requires ReferTo(ts, LEVEL_NAME_REF).1 == LEVEL_NAME_IID
    requires ReferTo(ReferTo(ts, LEVEL_NAME_REF).0, LevelValueRef(level)).1 == level.Number()
    ensures ReferAll(ts, LevelRefs(level)).1 == LevelIids(level)
    ensures ReferAll(ts, LevelRefs(level)).0 == ReferTo(ReferTo(ts, LEVEL_NAME_REF).0, LevelValueRef(level)).0
  {
    ReferTwo(ts, LEVEL_NAME_REF, LevelValueRef(level));
  }

  /** An event's fields are its first item's followed by the others'. */
  lemma LowerAllSplits(ts: Tables, items: seq<Item>, before: seq<byte>)
    requires TablesValid(ts) && items != []
    ensures TablesValid(Lower(ts, items[0]).0)
    ensures var (ts', fields) := Lower(ts, items[0]);
            var (ts'', others) := LowerAll(ts', items[1..]);
            && LowerAll(ts, items).0 == ts''
            && FitsAll(LowerAll(ts, items).1) == (FitsAll(fields) && FitsAll(others))
            && before + EncodeAll(LowerAll(ts, items).1) == before + EncodeAll(fields) + EncodeAll(others)
  {
    ReferAllKeeps(ts, Refs(items[0]));
    var (ts', fields) := Lower(ts, items[0]);
    var others := LowerAll(ts', items[1..]).1;
    assert LowerAll(ts, items).1 == fields + others;
    PartsAppend(before, fields, others);
  }

  lemma PartsAppend(before: seq<byte>, a: seq<Field>, b: seq<Field>)
    ensures FitsAll(a + b) == (FitsAll(a) && FitsAll(b))
    ensures before + EncodeAll(a + b) == before + EncodeAll(a) + EncodeAll(b)
  {
    FitsAllAppend(a, b);
    EncodeAllAppend(a, b);
    assert before + (EncodeAll(a) + EncodeAll(b)) == before + EncodeAll(a) + EncodeAll(b);
  }

  lemma EntriesStep(before: seq<byte>, space: Space, entries: seq<Entry>, i: nat)
    requires EntriesFit(space, entries) && i < |entries|
    ensures var field, others := EntryField(space, entries[i]), EntryFields(space, entries[i + 1..]);
            && FitsAll(EntryFields(space, entries[i..])) == (Fits(field) && FitsAll(others))
            && before + EncodeAll(EntryFields(space, entries[i..])) == before + EncodeField(field) + EncodeAll(others)
  {
    assert entries[i..][1..] == entries[i + 1..];
    var field, others := EntryField(space, entries[i]), EntryFields(space, entries[i + 1..]);
    FitsAllAppend([field], others);
    EncodeAllAppend([field], others);
    SingleField([field]);
  }

  method WriteEntries(buffer: ProtoBuffer, space: Space, entries: seq<Entry>) returns (ok: bool)
    requires EntriesFit(space, entries)
    modifies buffer
    ensures ok == FitsAll(EntryFields(space, entries))
    ensures ok ==> buffer.buf == old(buffer.buf) + EncodeAll(EntryFields(space, entries))
  {
    ghost var all := EntryFields(space, entries);
    var i := 0;
    while i < |entries|
      invariant 0 <= i <= |entries|
      invariant FitsAll(all) == FitsAll(EntryFields(space, entries[i..]))
      invariant buffer.buf + EncodeAll(EntryFields(space, entries[i..])) == old(buffer.buf) + EncodeAll(all)
    {
      EntriesStep(buffer.buf, space, entries, i);
      ok := buffer.WriteField(EntryField(space, entries[i]));
      if !ok {
        return;
      }
      i := i + 1;
    }
    ok := true;
  }

  ghost function Whole(ts: Tables, body: Body, header: seq<Field>): Field
    requires TablesValid(ts) && PendingFits(LowerBody(ts, body).0)
  {
    Message(PACKET, header + [LowerBody(ts, body).1] + InternedPart(LowerBody(ts, body).0))
  }

  lemma WholeParts(ts: Tables, body: Body, header: seq<Field>)
    requires TablesValid(ts) && FitsAll(header)
    ensures var (ts', field) := LowerBody(ts, body);
            && PendingFits(ts') && TablesValid(ts')
            && FitsAll(header + [field]) == Fits(field)
            && (Fits(Whole(ts, body, header)) ==> Fits(field))
  {
    var (ts', field) := LowerBody(ts, body);
    PendingDoesFit(ts');
    FitsAllAppend(header, [field]);
    SingleField([field]);
    FitsAllAppend(header + [field], InternedPart(ts'));
  }

  /** A later packet is its whole message, and its header always fits. */
  lemma PacketParts(p: Params, st: State, raw: u64, body: Body)
    requires TablesValid(st.tables)
    ensures PendingFits(LowerBody(st.tables, body).0) && FitsAll(Header(p, SaturatingSub(raw, st.last)))
    ensures var (st', fields) := PacketFields(p, st, raw, body);
            && st'.tables == FlushAll(LowerBody(st.tables, body).0) && st'.last == raw
            && Message(PACKET, fields) == Whole(st.tables, body, Header(p, SaturatingSub(raw, st.last)))
  {
    PendingDoesFit(LowerBody(st.tables, body).0);
    HeaderFits(p, SaturatingSub(raw, st.last));
  }

  lemma HeaderFits(p: Params, delta: u64)
    ensures FitsAll(Header(p, delta))
  {
    TwoFields(HeaderPrefix(p)[0], HeaderPrefix(p)[1]);
    assert HeaderPrefix(p) == [HeaderPrefix(p)[0], HeaderPrefix(p)[1]];
    FitsAllAppend(HeaderPrefix(p), [VarintField(TIMESTAMP, delta)]);
    SingleField([VarintField(TIMESTAMP, delta)]);
  }

  ghost function EventField(ts: Tables, items: seq<Item>): Field
    requires TablesValid(ts)
  {
    Message(TRACK_EVENT, LowerAll(ts, items).1)
  }

  lemma FieldsInOrder(before: seq<byte>, a: seq<Field>, b: seq<Field>, rest: seq<Field>)
    ensures before + EncodeAll(a + (b + rest)) == before + EncodeAll(a) + EncodeAll(b) + EncodeAll(rest)
    ensures FitsAll(a + (b + rest)) == (FitsAll(a) && FitsAll(b) && FitsAll(rest))
  {
    FitsAllAppend(b, rest);
    FitsAllAppend(a, b + rest);
    EncodeAllAppend(b, rest);
    EncodeAllAppend(a, b + rest);
    Reassociate(before, EncodeAll(a), EncodeAll(b), EncodeAll(rest));
  }

  lemma Reassociate(a: seq<byte>, b: seq<byte>, c: seq<byte>, d: seq<byte>)
    ensures a + (b + (c + d)) == a + b + c + d
  {
  }

  lemma SpacesStep(ts: Tables, space: Space, others: seq<Space>)
    requires PendingFits(ts)
    ensures forall all :: all == [space] + others ==>
              SpacesFields(ts, all) == SpaceFields(ts, space) + SpacesFields(ts, others)
  {
    assert ([space] + others)[1..] == others;
  }

  lemma SpacesInOrder(ts: Tables)
    requires PendingFits(ts)
    ensures var a, b, c := SpaceFields(ts, Categories), SpaceFields(ts, EventNames), SpaceFields(ts, AnnotationNames);
            var d, e := SpaceFields(ts, AnnotationValues), SpaceFields(ts, SourceLocations);
            PendingFields(ts) == a + (b + (c + (d + e)))
  {
    SpacesStep(ts, SourceLocations, []);
    SpacesStep(ts, AnnotationValues, [SourceLocations]);
    SpacesStep(ts, AnnotationNames, [AnnotationValues, SourceLocations]);
    SpacesStep(ts, EventNames, [AnnotationNames, AnnotationValues, SourceLocations]);
    SpacesStep(ts, Categories, [EventNames, AnnotationNames, AnnotationValues, SourceLocations]);
    assert SpaceFields(ts, SourceLocations) + [] == SpaceFields(ts, SourceLocations);
  }

  /** The five lists, written one after the other, are the pending fields. */
  lemma PendingFieldsInOrder(ts: Tables, before: seq<byte>)
    requires PendingFits(ts)
    ensures forall space :: EntriesFit(space, ts.Get(space).pending)
    ensures var a, b, c := SpaceFields(ts, Categories), SpaceFields(ts, EventNames), SpaceFields(ts, AnnotationNames);
            var d, e := SpaceFields(ts, AnnotationValues), SpaceFields(ts, SourceLocations);
            && before + EncodeAll(PendingFields(ts))
            == before + EncodeAll(a) + EncodeAll(b) + EncodeAll(c) + EncodeAll(d) + EncodeAll(e)
            && FitsAll(PendingFields(ts)) == (FitsAll(a) && FitsAll(b) && FitsAll(c) && FitsAll(d) && FitsAll(e))
  {
    var a, b, c := SpaceFields(ts, Categories), SpaceFields(ts, EventNames), SpaceFields(ts, AnnotationNames);
    var d, e := SpaceFields(ts, AnnotationValues), SpaceFields(ts, SourceLocations);
    SpacesInOrder(ts);
    FieldsInOrder(before, a, b, c + (d + e));
    FieldsInOrder(before + EncodeAll(a) + EncodeAll(b), c, d, e);
  }
}
