/** The interned-data message: pending definitions written, and read back strictly. */
module InternedData {
  import opened Prelude
  import opened Wire
  import opened Interning
  import opened Events

  // Field numbers of an interned entry; the name, category, annotation-name and string
  // messages all use the first two.
  const IID: FieldId := 1
  const TEXT: FieldId := 2
  const LINE_NUMBER: FieldId := 4

  /** `InternedData` field numbers. */
  function SpaceField(space: Space): FieldId {
    match space
    case Categories => 1
    case EventNames => 2
    case AnnotationNames => 3
    case SourceLocations => 4
    case AnnotationValues => 29
  }

  function FieldSpace(id: nat): Option<Space> {
    if id == 1 then Some(Categories)
    else if id == 2 then Some(EventNames)
    else if id == 3 then Some(AnnotationNames)
    else if id == 4 then Some(SourceLocations)
    else if id == 29 then Some(AnnotationValues)
    else None
  }

  // ------------------------------------------------------------ writing

  predicate EntryFits(space: Space, e: Entry) {
    e.iid < TWO_TO_THE_64 && PayloadFits(space, e.payload)
  }

  predicate EntriesFit(space: Space, entries: seq<Entry>) {
    forall e :: e in entries ==> EntryFits(space, e)
  }

  function EntryBody(space: Space, e: Entry): seq<Field>
    requires EntryFits(space, e)
  {
    var pair := [VarintField(IID, e.iid), StringField(TEXT, e.payload.text)];
    if space == SourceLocations then pair + [VarintField(LINE_NUMBER, e.payload.line)] else pair
  }

  function EntryField(space: Space, e: Entry): Field
    requires EntryFits(space, e)
  {
    Message(SpaceField(space), EntryBody(space, e))
  }

  function EntryFields(space: Space, entries: seq<Entry>): (fields: seq<Field>)
    requires EntriesFit(space, entries)
    ensures |fields| == |entries|
  {
    if entries == [] then [] else [EntryField(space, entries[0])] + EntryFields(space, entries[1..])
  }

  predicate PendingFits(ts: Tables) {
    forall space :: EntriesFit(space, ts.Get(space).pending)
  }

  lemma PendingDoesFit(ts: Tables)
    requires TablesValid(ts)
    ensures PendingFits(ts)
  {
    forall space
      ensures EntriesFit(space, ts.Get(space).pending)
    {
      assert TableValid(ts.Get(space), space);
      IidsFit(ts.Get(space), space);
    }
  }

  function SpaceFields(ts: Tables, space: Space): seq<Field>
    requires PendingFits(ts)
  {
    assert EntriesFit(space, ts.Get(space).pending);
    EntryFields(space, ts.Get(space).pending)
  }

  const WRITE_ORDER: seq<Space> := [Categories, EventNames, AnnotationNames, AnnotationValues, SourceLocations]

  function SpacesFields(ts: Tables, spaces: seq<Space>): seq<Field>
    requires PendingFits(ts)
  {
    if spaces == [] then [] else SpaceFields(ts, spaces[0]) + SpacesFields(ts, spaces[1..])
  }

  /** All pending definitions, in the order the source writes them. */
  function PendingFields(ts: Tables): seq<Field>
    requires PendingFits(ts)
  {
    SpacesFields(ts, WRITE_ORDER)
  }

  predicate NothingPending(ts: Tables) {
    forall space :: ts.Get(space).pending == []
  }

  function FlushAll(ts: Tables): Tables {
    Tables(Flushed(ts.names), Flushed(ts.annotations), Flushed(ts.values),
           Flushed(ts.categories), Flushed(ts.locations))
  }

  // ------------------------------------------------------------ reading

  function ReadEntry(fields: seq<WireField>): Option<Entry> {
    match (FindVarint(fields, IID), FindBytes(fields, TEXT))
    case (Some(iid), Some(text)) =>
      if |text| >= TWO_TO_THE_64 then None
      else
      (match FindVarint(fields, LINE_NUMBER)
       case None => Some(Entry(iid, Payload(text, 0)))
       case Some(line) => if line < TWO_TO_THE_32 then Some(Entry(iid, Payload(text, line))) else None)
    case _ => None
  }

  function DefineIn(ds: Dictionaries, space: Space, e: Entry): Option<Dictionaries> {
    match Define(ds.Get(space), e)
    case None => None
    case Some(d) => Some(ds.Put(space, d))
  }

  function ReadDefinition(ds: Dictionaries, field: WireField): Option<Dictionaries> {
    if !field.BytesWire? then None
    else
      match (FieldSpace(field.id), Parse(field.bytes))
      case (Some(space), Some(fields)) =>
        (match ReadEntry(fields)
         case None => None
         case Some(e) => DefineIn(ds, space, e))
      case _ => None
  }

  function ReadDefinitions(ds: Dictionaries, fields: seq<WireField>): Option<Dictionaries>
    decreases |fields|
  {
    if fields == [] then Some(ds)
    else
      match ReadDefinition(ds, fields[0])
      case None => None
      case Some(ds') => ReadDefinitions(ds', fields[1..])
  }

  lemma {:induction false} ReadDefinitionsAppend(ds: Dictionaries, a: seq<WireField>, b: seq<WireField>)
    requires ReadDefinitions(ds, a).Some?
    ensures ReadDefinitions(ds, a + b) == ReadDefinitions(ReadDefinitions(ds, a).value, b)
    decreases |a|
  {
    if a == [] {
      assert a + b == b;
    } else {
      assert (a + b)[1..] == a[1..] + b;
      ReadDefinitionsAppend(ReadDefinition(ds, a[0]).value, a[1..], b);
    }
  }

  // ------------------------------------------------------------ round trip

  lemma EntryReads(ds: Dictionaries, space: Space, e: Entry)
    requires EntryFits(space, e) && Fits(EntryField(space, e))
    ensures ReadDefinition(ds, Flat(EntryField(space, e))) == DefineIn(ds, space, e)
  {
    var body := EntryBody(space, e);
    ParseRoundTrip(body);
    var fields := FlatAll(body);
    FindVarintAt(fields, IID, 0);
    FindBytesAt(fields, TEXT, 1);
    if space == SourceLocations {
      FindVarintAt(fields, LINE_NUMBER, 2);
    } else {
      FindVarintNone(fields, LINE_NUMBER);
    }
  }

  lemma {:induction false} SpaceReads(ds: Dictionaries, space: Space, entries: seq<Entry>)
    requires EntriesFit(space, entries) && FitsAll(EntryFields(space, entries))
    requires DefineAll(ds.Get(space), entries).Some?
    ensures ReadDefinitions(ds, FlatAll(EntryFields(space, entries)))
         == Some(ds.Put(space, DefineAll(ds.Get(space), entries).value))
    decreases |entries|
  {
    if entries == [] {
      assert ds.Put(space, ds.Get(space)) == ds;
    } else {
      var ds' := DefineIn(ds, space, entries[0]).value;
      EntryReads(ds, space, entries[0]);
      SpaceReads(ds', space, entries[1..]);
      assert FlatAll(EntryFields(space, entries))[1..] == FlatAll(EntryFields(space, entries[1..]));
    }
  }

  /** The dictionary of one space once its pending definitions have been read. */
  function CaughtIn(ds: Dictionaries, ts: Tables, space: Space): Dictionary
    requires DefineAll(ds.Get(space), ts.Get(space).pending).Some?
  {
    DefineAll(ds.Get(space), ts.Get(space).pending).value
  }

  ghost predicate AllDefinable(ds: Dictionaries, ts: Tables) {
    forall space :: DefineAll(ds.Get(space), ts.Get(space).pending).Some?
  }

  function Caught(ds: Dictionaries, ts: Tables): Dictionaries
    requires AllDefinable(ds, ts)
  {
    Dictionaries(CaughtIn(ds, ts, EventNames), CaughtIn(ds, ts, AnnotationNames), CaughtIn(ds, ts, AnnotationValues),
                 CaughtIn(ds, ts, Categories), CaughtIn(ds, ts, SourceLocations))
  }

  lemma PutAll(ds: Dictionaries, space: Space, d: Dictionary)
    ensures forall other :: ds.Put(space, d).Get(other) == if other == space then d else ds.Get(other)
  {
  }

  /** Reading the given spaces' definitions catches up on exactly those spaces. */
  lemma {:induction false} SpacesRead(ds: Dictionaries, ts: Tables, spaces: seq<Space>) returns (read: Dictionaries)
    requires PendingFits(ts) && FitsAll(SpacesFields(ts, spaces))
    requires forall i, j :: 0 <= i < j < |spaces| ==> spaces[i] != spaces[j]
    requires forall space :: space in spaces ==> DefineAll(ds.Get(space), ts.Get(space).pending).Some?
    ensures ReadDefinitions(ds, FlatAll(SpacesFields(ts, spaces))) == Some(read)
    ensures forall space :: space in spaces ==> read.Get(space) == CaughtIn(ds, ts, space)
    ensures forall space :: space !in spaces ==> read.Get(space) == ds.Get(space)
    decreases |spaces|
  {
    if spaces == [] {
      read := ds;
    } else {
      var space := spaces[0];
      var first, others := SpaceFields(ts, space), SpacesFields(ts, spaces[1..]);
      assert EntriesFit(space, ts.Get(space).pending);
      FitsAllAppend(first, others);
      SpaceReads(ds, space, ts.Get(space).pending);
      var mid := ds.Put(space, CaughtIn(ds, ts, space));
      PutAll(ds, space, CaughtIn(ds, ts, space));
      read := SpacesRead(mid, ts, spaces[1..]);
      FlatAllAppend(first, others);
      ReadDefinitionsAppend(ds, FlatAll(first), FlatAll(others));
    }
  }

  lemma SameDictionaries(a: Dictionaries, b: Dictionaries)
    requires forall space :: a.Get(space) == b.Get(space)
    ensures a == b
  {
    assert a.Get(EventNames) == b.Get(EventNames) && a.Get(AnnotationNames) == b.Get(AnnotationNames);
    assert a.Get(AnnotationValues) == b.Get(AnnotationValues) && a.Get(Categories) == b.Get(Categories);
    assert a.Get(SourceLocations) == b.Get(SourceLocations);
  }

  lemma InStepIsDefinable(ds: Dictionaries, ts: Tables)
    requires AllInStep(ds, ts)
    ensures AllDefinable(ds, ts)
  {
    forall space
      ensures DefineAll(ds.Get(space), ts.Get(space).pending).Some?
    {
      assert InStep(ds.Get(space), ts.Get(space));
    }
  }

  /** Every pending definition is new to the reader and is read back as written. */
  lemma PendingReads(ds: Dictionaries, ts: Tables)
    requires AllInStep(ds, ts) && PendingFits(ts)
    requires FitsAll(PendingFields(ts))
    ensures AllDefinable(ds, ts)
    ensures ReadDefinitions(ds, FlatAll(PendingFields(ts))) == Some(Caught(ds, ts))
  {
    InStepIsDefinable(ds, ts);
    AllSpacesWritten();
    var read := SpacesRead(ds, ts, WRITE_ORDER);
    CaughtOthers(ds, ts);
    SameDictionaries(read, Caught(ds, ts));
  }

  lemma AllSpacesWritten()
    ensures forall space: Space :: space in WRITE_ORDER
    ensures forall i, j :: 0 <= i < j < |WRITE_ORDER| ==> WRITE_ORDER[i] != WRITE_ORDER[j]
  {
    forall space: Space
      ensures space in WRITE_ORDER
    {
      match space
      case Categories => assert WRITE_ORDER[0] == space;
      case EventNames => assert WRITE_ORDER[1] == space;
      case AnnotationNames => assert WRITE_ORDER[2] == space;
      case AnnotationValues => assert WRITE_ORDER[3] == space;
      case SourceLocations => assert WRITE_ORDER[4] == space;
    }
  }

  lemma FlushAllOthers(ts: Tables)
    ensures forall space :: FlushAll(ts).Get(space) == Flushed(ts.Get(space))
  {
  }

  lemma CaughtOthers(ds: Dictionaries, ts: Tables)
    requires AllDefinable(ds, ts)
    ensures forall space :: Caught(ds, ts).Get(space) == CaughtIn(ds, ts, space)
  {
  }

  /** After the interned data is read, the dictionaries are exactly the tables. */
  lemma CaughtIsDefined(ds: Dictionaries, ts: Tables)
    requires TablesValid(ts) && AllInStep(ds, ts) && AllDefinable(ds, ts)
    ensures Defined(Caught(ds, ts), ts) && AllInStep(Caught(ds, ts), FlushAll(ts))
    ensures TablesValid(FlushAll(ts)) && NothingPending(FlushAll(ts)) && AllExtend(ts, FlushAll(ts))
  {
    FlushAllOthers(ts);
    CaughtOthers(ds, ts);
    forall space
      ensures IsDictionaryOf(CaughtIn(ds, ts, space), ts.Get(space))
      ensures InStep(CaughtIn(ds, ts, space), Flushed(ts.Get(space)))
      ensures TableValid(Flushed(ts.Get(space)), space)
    {
      var d, t := ds.Get(space), ts.Get(space);
      assert InStep(d, t) && TableValid(t, space);
      FlushKeepsInStep(d, t);
      FlushKeepsValid(t, space);
    }
  }
}
