/**
 The contents of one track event: what the callbacks ask to be written, the fields it
 becomes once strings are interned, and what a reader with dictionaries makes of it.
 */
module Events {
  import opened Prelude
  import opened Wire
  import opened Interning

  // `TrackEvent` field numbers.
  const CATEGORY_IIDS: FieldId := 3
  const DEBUG_ANNOTATIONS: FieldId := 4
  const TYPE: FieldId := 9
  const NAME_IID: FieldId := 10
  const TRACK_UUID: FieldId := 11
  const EXTRA_COUNTER_VALUES: FieldId := 12
  const NAME: FieldId := 23
  const EXTRA_COUNTER_TRACK_UUIDS: FieldId := 31
  const SOURCE_LOCATION_IID: FieldId := 34
  const EXTRA_DOUBLE_COUNTER_TRACK_UUIDS: FieldId := 45
  const EXTRA_DOUBLE_COUNTER_VALUES: FieldId := 46
  const FLOW_IDS: FieldId := 47
  const TERMINATING_FLOW_IDS: FieldId := 48

  // `DebugAnnotation` field numbers.
  const ANNOTATION_NAME_IID: FieldId := 1
  const BOOL_VALUE: FieldId := 2
  const UINT_VALUE: FieldId := 3
  const INT_VALUE: FieldId := 4
  const DOUBLE_VALUE: FieldId := 5
  const STRING_VALUE: FieldId := 6
  const STRING_VALUE_IID: FieldId := 17

  /** The bytes of "level". */
  const LEVEL_TEXT: Text := [108, 101, 118, 101, 108]

  datatype Level = TraceLevel | DebugLevel | InfoLevel | WarnLevel | ErrorLevel
  {
    /** The reserved iid of the level's name, also its key. */
    function Number(): nat {
      match this
      case TraceLevel => 1
      case DebugLevel => 2
      case InfoLevel => 3
      case WarnLevel => 4
      case ErrorLevel => 5
    }

    /** The bytes of "TRACE", "DEBUG", "INFO", "WARN" and "ERROR". */
    function Name(): Text {
      match this
      case TraceLevel => [84, 82, 65, 67, 69]
      case DebugLevel => [68, 69, 66, 85, 71]
      case InfoLevel => [73, 78, 70, 79]
      case WarnLevel => [87, 65, 82, 78]
      case ErrorLevel => [69, 82, 82, 79, 82]
    }
  }

  /** What a level's annotation says. */
  function LevelWord(level: Level): (word: string)
    ensures forall i :: 0 <= i < |word| ==> word[i] < 128 as char
  {
    match level
    case TraceLevel => "TRACE"
    case DebugLevel => "DEBUG"
    case InfoLevel => "INFO"
    case WarnLevel => "WARN"
    case ErrorLevel => "ERROR"
  }

  /** An annotation's value; doubles and signed integers are their 64 bits. */
  datatype Value =
    | BoolValue(flag: bool)
    | IntValue(bits: u64)
    | UintValue(number: u64)
    | DoubleValue(bits: u64)
    | StringValue(text: Text)
    | FormattedValue(text: Text)

  /** One thing a callback writes into a track event. */
  datatype Item =
    | Kind(kind: u64)
    | OnTrack(uuid: u64)
    | Named(name: StaticStr)
    | NamedInline(text: Text)
    | NamedFormatted(text: Text)
    | InCategory(target: StaticStr)
    | AtLocation(callsite: Address, file: Text, line: u32)
    | AtLevel(level: Level)
    | Annotated(name: StaticStr, value: Value)
    | FlowStart(flow: u64)
    | FlowTerminate(flow: u64)
    | CounterI64(track: u64, bits: u64)
    | CounterF64(track: u64, bits: u64)

  /** The same, as read back: strings in place of iids, addresses gone. */
  datatype Reading =
    | ReadKind(kind: nat)
    | ReadTrack(uuid: nat)
    | ReadName(text: seq<byte>)
    | ReadCategory(text: seq<byte>)
    | ReadLocation(file: seq<byte>, line: nat)
    | ReadAnnotation(name: seq<byte>, value: Value)
    | ReadFlowStart(flow: nat)
    | ReadFlowTerminate(flow: nat)
    | ReadCounterTrack(uuid: nat)
    | ReadCounterValue(bits: nat)
    | ReadDoubleCounterTrack(uuid: nat)
    | ReadDoubleCounterValue(bits: nat)

  // ------------------------------------------------------------ tables per space

  datatype Tables = Tables(names: Table, annotations: Table, values: Table, categories: Table, locations: Table)
  {
    function Get(space: Space): Table {
      match space
      case EventNames => names
      case AnnotationNames => annotations
      case AnnotationValues => values
      case Categories => categories
      case SourceLocations => locations
    }

    function Put(space: Space, t: Table): Tables {
      match space
      case EventNames => this.(names := t)
      case AnnotationNames => this.(annotations := t)
      case AnnotationValues => this.(values := t)
      case Categories => this.(categories := t)
      case SourceLocations => this.(locations := t)
    }
  }

  datatype Dictionaries = Dictionaries(names: Dictionary, annotations: Dictionary, values: Dictionary,
                                       categories: Dictionary, locations: Dictionary)
  {
    function Get(space: Space): Dictionary {
      match space
      case EventNames => names
      case AnnotationNames => annotations
      case AnnotationValues => values
      case Categories => categories
      case SourceLocations => locations
    }

    function Put(space: Space, d: Dictionary): Dictionaries {
      match space
      case EventNames => this.(names := d)
      case AnnotationNames => this.(annotations := d)
      case AnnotationValues => this.(values := d)
      case Categories => this.(categories := d)
      case SourceLocations => this.(locations := d)
    }
  }

  const EMPTY_TABLES: Tables := Tables(EmptyTable(EventNames), EmptyTable(AnnotationNames),
                                       EmptyTable(AnnotationValues), EmptyTable(Categories),
                                       EmptyTable(SourceLocations))

  const NO_DICTIONARIES: Dictionaries := Dictionaries(map[], map[], map[], map[], map[])

  ghost predicate TablesValid(ts: Tables) {
    forall space :: TableValid(ts.Get(space), space)
  }

  ghost predicate AllInStep(ds: Dictionaries, ts: Tables) {
    forall space :: InStep(ds.Get(space), ts.Get(space))
  }

  ghost predicate AllExtend(ts: Tables, ts': Tables) {
    forall space :: Extends(ts.Get(space), ts'.Get(space))
  }

  /** Every definition of the tables is in the dictionaries. */
  ghost predicate Defined(ds: Dictionaries, ts: Tables) {
    forall space :: IsDictionaryOf(ds.Get(space), ts.Get(space))
  }

  // ------------------------------------------------------------ references

  datatype Ref = Ref(space: Space, key: nat, payload: Payload)

  predicate RefFits(ref: Ref) {
    KeyFits(ref.space, ref.key) && PayloadFits(ref.space, ref.payload)
  }

  function StringRef(space: Space, s: StaticStr): Ref {
    Ref(space, s.address, Payload(s.text, 0))
  }

  const LEVEL_NAME_REF: Ref := Ref(AnnotationNames, LEVEL_NAME_KEY, Payload(LEVEL_TEXT, 0))

  function LevelValueRef(level: Level): Ref {
    Ref(AnnotationValues, level.Number(), Payload(level.Name(), 0))
  }

  function LevelRefs(level: Level): seq<Ref> {
    [LEVEL_NAME_REF, LevelValueRef(level)]
  }

  /** What an item refers to, in the order it is interned. */
  function Refs(item: Item): (refs: seq<Ref>)
    ensures |refs| <= 2 && forall ref :: ref in refs ==> RefFits(ref)
  {
    match item
    case Named(name) => [StringRef(EventNames, name)]
    case InCategory(target) => [StringRef(Categories, target)]
    case AtLocation(callsite, file, line) => [Ref(SourceLocations, callsite, Payload(file, line))]
    case AtLevel(level) => LevelRefs(level)
    case Annotated(name, _) => [StringRef(AnnotationNames, name)]
    case _ => []
  }

  function ReferTo(ts: Tables, ref: Ref): (Tables, nat) {
    var (t, iid) := Refer(ts.Get(ref.space), ref.space, ref.key, ref.payload);
    (ts.Put(ref.space, t), iid)
  }

  function ReferAll(ts: Tables, refs: seq<Ref>): (r: (Tables, seq<nat>))
    ensures |r.1| == |refs|
    decreases |refs|
  {
    if refs == [] then (ts, [])
    else
      var (ts', iid) := ReferTo(ts, refs[0]);
      var (ts'', iids) := ReferAll(ts', refs[1..]);
      (ts'', [iid] + iids)
  }

  /** The tables know the reference's key, by this iid. */
  predicate Knows(ts: Tables, ref: Ref, iid: nat) {
    ref.key in ts.Get(ref.space).entries && ts.Get(ref.space).entries[ref.key].iid == iid
  }

  lemma PutOthers(ts: Tables, space: Space, t: Table)
    ensures forall other :: ts.Put(space, t).Get(other) == if other == space then t else ts.Get(other)
  {
  }

  lemma ReferToKeepsTables(ts: Tables, ref: Ref)
    requires TablesValid(ts) && RefFits(ref)
    ensures var (ts', iid) := ReferTo(ts, ref);
            TablesValid(ts') && AllExtend(ts, ts') && Knows(ts', ref, iid) && iid < TWO_TO_THE_64
  {
    var t := ts.Get(ref.space);
    var (t', iid) := Refer(t, ref.space, ref.key, ref.payload);
    ReferKeepsValid(t, ref.space, ref.key, ref.payload);
    ReferExtends(t, ref.space, ref.key, ref.payload);
    IidsFit(t', ref.space);
    PutOthers(ts, ref.space, t');
  }

  lemma ReferToKeepsInStep(ds: Dictionaries, ts: Tables, ref: Ref)
    requires TablesValid(ts) && RefFits(ref) && AllInStep(ds, ts)
    ensures AllInStep(ds, ReferTo(ts, ref).0)
  {
    var t := ts.Get(ref.space);
    ReferKeepsInStep(ds.Get(ref.space), t, ref.space, ref.key, ref.payload);
    PutOthers(ts, ref.space, Refer(t, ref.space, ref.key, ref.payload).0);
  }

  lemma {:induction false} ReferAllKeeps(ts: Tables, refs: seq<Ref>)
    requires TablesValid(ts) && forall ref :: ref in refs ==> RefFits(ref)
    ensures var (ts', iids) := ReferAll(ts, refs);
            && TablesValid(ts') && AllExtend(ts, ts')
            && (forall i :: 0 <= i < |refs| ==> Knows(ts', refs[i], iids[i]) && iids[i] < TWO_TO_THE_64)
    decreases |refs|
  {
    if refs != [] {
      ReferToKeepsTables(ts, refs[0]);
      var (ts', iid) := ReferTo(ts, refs[0]);
      ReferAllKeeps(ts', refs[1..]);
      AllExtendTransitive(ts, ts', ReferAll(ts, refs).0);
    }
  }

  lemma {:induction false} ReferAllKeepsInStep(ds: Dictionaries, ts: Tables, refs: seq<Ref>)
    requires TablesValid(ts) && AllInStep(ds, ts) && forall ref :: ref in refs ==> RefFits(ref)
    ensures AllInStep(ds, ReferAll(ts, refs).0)
    decreases |refs|
  {
    if refs != [] {
      ReferToKeepsTables(ts, refs[0]);
      ReferToKeepsInStep(ds, ts, refs[0]);
      ReferAllKeepsInStep(ds, ReferTo(ts, refs[0]).0, refs[1..]);
    }
  }

  // ------------------------------------------------------------ writing

  function ValueField(value: Value): Field {
    match value
    case BoolValue(flag) => VarintField(BOOL_VALUE, if flag then 1 else 0)
    case IntValue(bits) => VarintField(INT_VALUE, bits)
    case UintValue(number) => VarintField(UINT_VALUE, number)
    case DoubleValue(bits) => Fixed64Field(DOUBLE_VALUE, bits)
    case StringValue(text) => StringField(STRING_VALUE, text)
    case FormattedValue(text) => FormattedField(STRING_VALUE, text)
  }

  /** The fields of an item whose references have these iids. */
  function ItemFields(item: Item, iids: seq<u64>): (fields: seq<Field>)
    requires |iids| == |Refs(item)|
    ensures 1 <= |fields| <= 2
  {
    match item
    case Kind(kind) => [VarintField(TYPE, kind)]
    case OnTrack(uuid) => [WideField(TRACK_UUID, uuid)]
    case Named(_) => [VarintField(NAME_IID, iids[0])]
    case NamedInline(text) => [StringField(NAME, text)]
    case NamedFormatted(text) => [FormattedField(NAME, text)]
    case InCategory(_) => [VarintField(CATEGORY_IIDS, iids[0])]
    case AtLocation(_, _, _) => [VarintField(SOURCE_LOCATION_IID, iids[0])]
    case AtLevel(_) =>
      [Message(DEBUG_ANNOTATIONS, [VarintField(ANNOTATION_NAME_IID, iids[0]), VarintField(STRING_VALUE_IID, iids[1])])]
    case Annotated(_, value) =>
      [Message(DEBUG_ANNOTATIONS, [VarintField(ANNOTATION_NAME_IID, iids[0]), ValueField(value)])]
    case FlowStart(flow) => [Fixed64Field(FLOW_IDS, flow)]
    case FlowTerminate(flow) => [Fixed64Field(TERMINATING_FLOW_IDS, flow)]
    case CounterI64(track, bits) =>
      [WideField(EXTRA_COUNTER_TRACK_UUIDS, track), VarintField(EXTRA_COUNTER_VALUES, bits)]
    case CounterF64(track, bits) =>
      [WideField(EXTRA_DOUBLE_COUNTER_TRACK_UUIDS, track), Fixed64Field(EXTRA_DOUBLE_COUNTER_VALUES, bits)]
  }

  /** Interns an item's strings and lowers it to fields. */
  function Lower(ts: Tables, item: Item): (Tables, seq<Field>)
    requires TablesValid(ts)
  {
    ReferAllKeeps(ts, Refs(item));
    var (ts', iids) := ReferAll(ts, Refs(item));
    (ts', ItemFields(item, iids))
  }

  ghost function LowerAll(ts: Tables, items: seq<Item>): (r: (Tables, seq<Field>))
    requires TablesValid(ts)
    ensures TablesValid(r.0)
    decreases |items|
  {
    if items == [] then (ts, [])
    else
      var (ts', fields) := Lower(ts, items[0]);
      ReferAllKeeps(ts, Refs(items[0]));
      var (ts'', others) := LowerAll(ts', items[1..]);
      (ts'', fields + others)
  }

  // ------------------------------------------------------------ reading

  function ReadValue(field: WireField, ds: Dictionaries): Option<Value> {
    match field
    case VarintWire(id, value) =>
      if id == BOOL_VALUE then Some(BoolValue(value != 0))
      else if id == INT_VALUE && value < TWO_TO_THE_64 then Some(IntValue(value))
      else if id == UINT_VALUE && value < TWO_TO_THE_64 then Some(UintValue(value))
      else if id == STRING_VALUE_IID && value in ds.values then Some(StringValue(ds.values[value].text))
      else None
    case Fixed64Wire(id, bits) =>
      if id == DOUBLE_VALUE && bits < TWO_TO_THE_64 then Some(DoubleValue(bits)) else None
    case BytesWire(id, bytes) =>
      if id == STRING_VALUE && |bytes| < TWO_TO_THE_64 then Some(StringValue(bytes)) else None
  }

  function ReadAnnotationFields(fields: seq<WireField>, ds: Dictionaries): Option<Reading> {
    if |fields| == 2 && fields[0].VarintWire? && fields[0].id == ANNOTATION_NAME_IID
       && fields[0].value in ds.annotations then
      match ReadValue(fields[1], ds)
      case None => None
      case Some(value) => Some(ReadAnnotation(ds.annotations[fields[0].value].text, value))
    else None
  }

  /** `None` where an iid does not resolve or the field is unknown. */
  function ReadItem(field: WireField, ds: Dictionaries): Option<Reading> {
    match field
    case VarintWire(id, value) =>
      if id == TYPE then Some(ReadKind(value))
      else if id == TRACK_UUID then Some(ReadTrack(value))
      else if id == NAME_IID && value in ds.names then Some(ReadName(ds.names[value].text))
      else if id == CATEGORY_IIDS && value in ds.categories then Some(ReadCategory(ds.categories[value].text))
      else if id == SOURCE_LOCATION_IID && value in ds.locations then
        Some(ReadLocation(ds.locations[value].text, ds.locations[value].line))
      else if id == EXTRA_COUNTER_TRACK_UUIDS then Some(ReadCounterTrack(value))
      else if id == EXTRA_COUNTER_VALUES then Some(ReadCounterValue(value))
      else if id == EXTRA_DOUBLE_COUNTER_TRACK_UUIDS then Some(ReadDoubleCounterTrack(value))
      else None
    case Fixed64Wire(id, bits) =>
      if id == FLOW_IDS then Some(ReadFlowStart(bits))
      else if id == TERMINATING_FLOW_IDS then Some(ReadFlowTerminate(bits))
      else if id == EXTRA_DOUBLE_COUNTER_VALUES then Some(ReadDoubleCounterValue(bits))
      else None
    case BytesWire(id, bytes) =>
      if id == NAME then Some(ReadName(bytes))
      else if id == DEBUG_ANNOTATIONS then
        match Parse(bytes)
        case None => None
        case Some(fields) => ReadAnnotationFields(fields, ds)
      else None
  }

  function ReadItems(fields: seq<WireField>, ds: Dictionaries): Option<seq<Reading>> {
    if fields == [] then Some([])
    else
      match (ReadItem(fields[0], ds), ReadItems(fields[1..], ds))
      case (Some(item), Some(items)) => Some([item] + items)
      case _ => None
  }

  lemma {:induction false} ReadItemsAppend(a: seq<WireField>, b: seq<WireField>, ds: Dictionaries)
    requires ReadItems(a, ds).Some? && ReadItems(b, ds).Some?
    ensures ReadItems(a + b, ds) == Some(ReadItems(a, ds).value + ReadItems(b, ds).value)
  {
    if a == [] {
      assert a + b == b;
      assert ReadItems(b, ds).value == [] + ReadItems(b, ds).value;
    } else {
      assert (a + b)[1..] == a[1..] + b;
      ReadItemsAppend(a[1..], b, ds);
      var item := ReadItem(a[0], ds).value;
      assert ReadItems(a, ds).value == [item] + ReadItems(a[1..], ds).value;
      assert (a + b)[0] == a[0];
      assert [item] + (ReadItems(a[1..], ds).value + ReadItems(b, ds).value)
          == ReadItems(a, ds).value + ReadItems(b, ds).value;
    }
  }

  // ------------------------------------------------------------ meaning

  /** Formatted and plain strings read the same. */
  function PlainValue(value: Value): Value {
    match value
    case FormattedValue(text) => StringValue(text)
    case _ => value
  }

  /** What an item says when its references stand for these payloads. */
  function Readings(item: Item, payloads: seq<Payload>): seq<Reading>
    requires |payloads| == |Refs(item)|
  {
    match item
    case Kind(kind) => [ReadKind(kind)]
    case OnTrack(uuid) => [ReadTrack(uuid)]
    case Named(_) => [ReadName(payloads[0].text)]
    case NamedInline(text) => [ReadName(text)]
    case NamedFormatted(text) => [ReadName(text)]
    case InCategory(_) => [ReadCategory(payloads[0].text)]
    case AtLocation(_, _, _) => [ReadLocation(payloads[0].text, payloads[0].line)]
    case AtLevel(_) => [ReadAnnotation(payloads[0].text, StringValue(payloads[1].text))]
    case Annotated(_, value) => [ReadAnnotation(payloads[0].text, PlainValue(value))]
    case FlowStart(flow) => [ReadFlowStart(flow)]
    case FlowTerminate(flow) => [ReadFlowTerminate(flow)]
    case CounterI64(track, bits) => [ReadCounterTrack(track), ReadCounterValue(bits)]
    case CounterF64(track, bits) => [ReadDoubleCounterTrack(track), ReadDoubleCounterValue(bits)]
  }

  /** A level reads as an annotation called "level" that holds the level's name in capitals. */
  lemma LevelReads(level: Level)
    ensures Readings(AtLevel(level), [LevelRefs(level)[0].payload, LevelRefs(level)[1].payload])
         == [ReadAnnotation(Ascii("level"), StringValue(Ascii(LevelWord(level))))]
  {
    assert LEVEL_TEXT == Ascii("level");
    assert level.Name() == Ascii(LevelWord(level));
  }

  /** The payload each reference's key was first used with. */
  function FirstPayloads(ts: Tables, refs: seq<Ref>): seq<Payload>
    requires forall ref :: ref in refs ==> ref.key in ts.Get(ref.space).entries
  {
    seq(|refs|, i requires 0 <= i < |refs| => ts.Get(refs[i].space).entries[refs[i].key].payload)
  }

  predicate ItemKnown(ts: Tables, item: Item) {
    forall ref :: ref in Refs(item) ==> ref.key in ts.Get(ref.space).entries
  }

  /** What a reader must see of an item: its own text wherever its address is faithful. */
  function Settled(ts: Tables, item: Item): seq<Reading>
    requires ItemKnown(ts, item)
  {
    Readings(item, FirstPayloads(ts, Refs(item)))
  }

  predicate ItemsKnown(ts: Tables, items: seq<Item>) {
    forall item :: item in items ==> ItemKnown(ts, item)
  }

  function SettledAll(ts: Tables, items: seq<Item>): seq<Reading>
    requires ItemsKnown(ts, items)
  {
    if items == [] then [] else Settled(ts, items[0]) + SettledAll(ts, items[1..])
  }

  // ------------------------------------------------------------ round trip

  lemma AnnotationReads(nameIid: u64, value: Field, read: Value, ds: Dictionaries)
    requires Fits(Message(DEBUG_ANNOTATIONS, [VarintField(ANNOTATION_NAME_IID, nameIid), value]))
    requires nameIid in ds.annotations && ReadValue(Flat(value), ds) == Some(read)
    ensures var f := Message(DEBUG_ANNOTATIONS, [VarintField(ANNOTATION_NAME_IID, nameIid), value]);
            ReadItem(Flat(f), ds) == Some(ReadAnnotation(ds.annotations[nameIid].text, read))
  {
    var body := [VarintField(ANNOTATION_NAME_IID, nameIid), value];
    ParseRoundTrip(body);
    assert body[1..] == [value] && [value][1..] == [];
    assert FlatAll(body) == [Flat(body[0]), Flat(value)];
  }

  /** The iids stand, in the dictionaries, for these payloads. */
  predicate Stands(ds: Dictionaries, refs: seq<Ref>, iids: seq<u64>, payloads: seq<Payload>) {
    && |iids| == |payloads| == |refs|
    && forall i :: 0 <= i < |refs| ==>
         iids[i] in ds.Get(refs[i].space) && ds.Get(refs[i].space)[iids[i]] == payloads[i]
  }

  lemma ReadOne(f: Field, a: Reading, ds: Dictionaries)
    requires ReadItem(Flat(f), ds) == Some(a)
    ensures ReadItems(FlatAll([f]), ds) == Some([a])
  {
    assert [f][1..] == [];
    assert FlatAll([f]) == [Flat(f)] + [];
    assert FlatAll([f])[1..] == [];
    assert ReadItems(FlatAll([f])[1..], ds) == Some([]);
    assert [a] + [] == [a];
  }

  lemma ReadTwo(f: Field, g: Field, a: Reading, b: Reading, ds: Dictionaries)
    requires ReadItem(Flat(f), ds) == Some(a) && ReadItem(Flat(g), ds) == Some(b)
    ensures ReadItems(FlatAll([f, g]), ds) == Some([a, b])
  {
    ReadOne(f, a, ds);
    ReadOne(g, b, ds);
    assert [f, g] == [f] + [g];
    FlatAllAppend([f], [g]);
    ReadItemsAppend(FlatAll([f]), FlatAll([g]), ds);
    assert [a] + [b] == [a, b];
  }

  /** One item's fields read back as the item. */
  lemma ItemReads(item: Item, iids: seq<u64>, payloads: seq<Payload>, ds: Dictionaries)
    requires Stands(ds, Refs(item), iids, payloads)
    requires FitsAll(ItemFields(item, iids))
    ensures ReadItems(FlatAll(ItemFields(item, iids)), ds) == Some(Readings(item, payloads))
  {
    var fields, readings := ItemFields(item, iids), Readings(item, payloads);
    if |fields| == 2 {
      ReadTwo(fields[0], fields[1], readings[0], readings[1], ds);
      assert fields == [fields[0], fields[1]] && readings == [readings[0], readings[1]];
    } else {
      SingleReads(item, iids, payloads, ds);
      ReadOne(fields[0], readings[0], ds);
      assert fields == [fields[0]] && readings == [readings[0]];
    }
  }

  lemma SingleReads(item: Item, iids: seq<u64>, payloads: seq<Payload>, ds: Dictionaries)
    requires Stands(ds, Refs(item), iids, payloads)
    requires FitsAll(ItemFields(item, iids)) && |ItemFields(item, iids)| == 1
    ensures |Readings(item, payloads)| == 1
    ensures ReadItem(Flat(ItemFields(item, iids)[0]), ds) == Some(Readings(item, payloads)[0])
  {
    match item
    case AtLevel(level) =>
      assert Refs(item)[0].space == AnnotationNames && Refs(item)[1].space == AnnotationValues;
      AnnotationReads(iids[0], VarintField(STRING_VALUE_IID, iids[1]), StringValue(payloads[1].text), ds);
    case Annotated(name, value) =>
      assert Refs(item)[0].space == AnnotationNames;
      AnnotationReads(iids[0], ValueField(value), PlainValue(value), ds);
    case Named(_) => assert Refs(item)[0].space == EventNames;
    case InCategory(_) => assert Refs(item)[0].space == Categories;
    case AtLocation(_, _, _) => assert Refs(item)[0].space == SourceLocations;
    case _ =>
  }

  /** Dictionaries that define later tables resolve earlier iids. */
  lemma StandsLater(ds: Dictionaries, ts: Tables, last: Tables, refs: seq<Ref>, iids: seq<u64>)
    requires |iids| == |refs| && forall i :: 0 <= i < |refs| ==> Knows(ts, refs[i], iids[i])
    requires AllExtend(ts, last) && Defined(ds, last)
    ensures forall ref :: ref in refs ==> ref.key in last.Get(ref.space).entries
    ensures Stands(ds, refs, iids, FirstPayloads(last, refs))
  {
    forall i | 0 <= i < |refs|
      ensures refs[i].key in last.Get(refs[i].space).entries
      ensures iids[i] in ds.Get(refs[i].space)
      ensures ds.Get(refs[i].space)[iids[i]] == last.Get(refs[i].space).entries[refs[i].key].payload
    {
      assert Knows(ts, refs[i], iids[i]);
      assert Extends(ts.Get(refs[i].space), last.Get(refs[i].space));
      assert IsDictionaryOf(ds.Get(refs[i].space), last.Get(refs[i].space));
    }
  }

  /**
   A whole event, read with dictionaries that hold all its definitions, is the event
   that was written, each string being the one its address was first interned with.
   */
  lemma {:induction false} EventReads(ts: Tables, items: seq<Item>, last: Tables, ds: Dictionaries)
    requires TablesValid(ts)
    requires AllExtend(LowerAll(ts, items).0, last) && Defined(ds, last)
    requires FitsAll(LowerAll(ts, items).1)
    ensures AllExtend(ts, last) && ItemsKnown(last, items)
    ensures ReadItems(FlatAll(LowerAll(ts, items).1), ds) == Some(SettledAll(last, items))
    decreases |items|
  {
    if items != [] {
      var refs := Refs(items[0]);
      ReferAllKeeps(ts, refs);
      var (ts', iids) := ReferAll(ts, refs);
      var fields := Lower(ts, items[0]).1;
      var others := LowerAll(ts', items[1..]).1;
      FitsAllAppend(fields, others);
      EventReads(ts', items[1..], last, ds);
      StandsLater(ds, ts', last, refs, iids);
      assert ItemKnown(last, items[0]);
      ItemReads(items[0], iids, FirstPayloads(last, refs), ds);
      FlatAllAppend(fields, others);
      ReadItemsAppend(FlatAll(fields), FlatAll(others), ds);
      AllExtendTransitive(ts, ts', last);
    }
  }

  lemma AllExtendTransitive(a: Tables, b: Tables, c: Tables)
    requires AllExtend(a, b) && AllExtend(b, c)
    ensures AllExtend(a, c)
  {
    forall space
      ensures Extends(a.Get(space), c.Get(space))
    {
      assert Extends(a.Get(space), b.Get(space)) && Extends(b.Get(space), c.Get(space));
    }
  }

  lemma {:induction false} LowerAllKeeps(ds: Dictionaries, ts: Tables, items: seq<Item>)
    requires TablesValid(ts) && AllInStep(ds, ts)
    ensures AllExtend(ts, LowerAll(ts, items).0) && AllInStep(ds, LowerAll(ts, items).0)
    decreases |items|
  {
    if items != [] {
      ReferAllKeeps(ts, Refs(items[0]));
      ReferAllKeepsInStep(ds, ts, Refs(items[0]));
      var ts' := Lower(ts, items[0]).0;
      LowerAllKeeps(ds, ts', items[1..]);
      AllExtendTransitive(ts, ts', LowerAll(ts, items).0);
    }
  }
}
