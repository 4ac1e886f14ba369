/** An event's fields: counter samples, annotations, and the event's name. */
module EventVisitors {
  import opened Prelude
  import opened Interning
  import opened Events
  import opened Visitors

  const MAX_EXTRA_COUNTERS: nat := 8

  /** The bytes of "counter." and of "message". */
  const COUNTER_PREFIX: seq<byte> := [99, 111, 117, 110, 116, 101, 114, 46]
  const MESSAGE: seq<byte> := [109, 101, 115, 115, 97, 103, 101]

  lemma KnownTexts()
    ensures COUNTER_PREFIX == Ascii("counter.") && MESSAGE == Ascii("message")
  {
  }

  predicate IsCounterName(text: Text) {
    COUNTER_PREFIX <= text
  }

  datatype EventField = EventField(name: StaticStr, value: Recorded)

  /** The layer's configuration, and whether the event is unnamed. */
  datatype Config = Config(annotations: bool, counters: bool, messageAsName: bool)

  /** The counter tracks a sequence has described, by name address. */
  type CounterTracks = map<Address, u64>

  predicate IsCounter(config: Config, f: EventField) {
    config.counters && IsCounterName(f.name.text)
    && (f.value.RecordedI64? || f.value.RecordedU64? || f.value.RecordedF64?)
  }

  /** A counter whose track the sequence knows. */
  predicate IsSample(config: Config, tracks: CounterTracks, f: EventField) {
    IsCounter(config, f) && f.name.address in tracks
  }

  predicate MayName(config: Config, f: EventField) {
    config.messageAsName && f.name.text == MESSAGE && (f.value.RecordedStr? || (f.value.Shown? && f.value.debug))
  }

  /**
   Which fields count and which may name an event, in words: a counter is a number whose
   name starts with "counter.", a name is text called "message", each if configured.
   */
  lemma FieldKinds(config: Config, f: EventField)
    ensures IsCounter(config, f) <==>
              && config.counters && (f.value.RecordedI64? || f.value.RecordedU64? || f.value.RecordedF64?)
              && exists rest: seq<byte> :: f.name.text == Ascii("counter.") + rest
    ensures MayName(config, f) <==>
              && config.messageAsName && f.name.text == Ascii("message")
              && (f.value.RecordedStr? || (f.value.Shown? && f.value.debug))
  {
    KnownTexts();
    if IsCounterName(f.name.text) {
      assert f.name.text == Ascii("counter.") + f.name.text[8..];
    }
  }

  function SampleItem(track: u64, value: Recorded): Item
    requires value.RecordedI64? || value.RecordedU64? || value.RecordedF64?
  {
    match value
    case RecordedI64(signed) => CounterI64(track, ToBits(signed))
    case RecordedU64(number) => CounterI64(track, number)
    case RecordedF64(bits) => CounterF64(track, bits)
  }

  function AnnotationValue(value: Recorded): Value {
    match value
    case RecordedBool(flag) => BoolValue(flag)
    case RecordedI64(signed) => IntValue(ToBits(signed))
    case RecordedU64(number) => UintValue(number)
    case RecordedF64(bits) => DoubleValue(bits)
    case RecordedI128(wide, text) =>
      if 0 - TWO_TO_THE_63 <= wide < TWO_TO_THE_63 then IntValue(ToBits(wide)) else FormattedValue(text)
    case RecordedU128(wide, text) => if wide < TWO_TO_THE_64 then UintValue(wide) else FormattedValue(text)
    case RecordedStr(text) => StringValue(text)
    case Shown(text, _) => FormattedValue(text)
  }

  function NameItem(value: Recorded): Item
    requires value.RecordedStr? || value.Shown?
  {
    if value.RecordedStr? then NamedInline(value.text) else NamedFormatted(value.text)
  }

  /** The visitor: what it has written, how many samples, and whether it wrote the name. */
  class EventVisitor {
    const config: Config
    const tracks: CounterTracks
    var items: seq<Item>
    var counterCount: nat
    var wroteName: bool

    constructor (config: Config, tracks: CounterTracks)
      ensures this.config == config && this.tracks == tracks && items == [] && counterCount == 0 && !wroteName
    {
      this.config, this.tracks := config, tracks;
      items, counterCount, wroteName := [], 0, false;
    }

    /** `record_i64`, `record_u64` and `record_f64`. */
    method RecordNumber(f: EventField)
      requires f.value.RecordedI64? || f.value.RecordedU64? || f.value.RecordedF64?
      modifies this
      ensures (items, counterCount, wroteName)
           == if IsSample(config, tracks, f) && old(counterCount) < MAX_EXTRA_COUNTERS
              then (old(items) + [SampleItem(tracks[f.name.address], f.value)], old(counterCount) + 1, old(wroteName))
              else if IsCounter(config, f) || config.annotations
              then (old(items) + [Annotated(f.name, AnnotationValue(f.value))], old(counterCount), old(wroteName))
              else (old(items), old(counterCount), old(wroteName))
    {
      var isCounter := config.counters && IsCounterName(f.name.text);
      if isCounter && counterCount < MAX_EXTRA_COUNTERS && f.name.address in tracks {
        items := items + [SampleItem(tracks[f.name.address], f.value)];
        counterCount := counterCount + 1;
        return;
      }
      if isCounter || config.annotations {
        items := items + [Annotated(f.name, AnnotationValue(f.value))];
      }
    }

    /** `record_str` and `record_debug`: an unnamed event's message becomes its name, once. */
    method RecordText(f: EventField)
      requires f.value.RecordedStr? || (f.value.Shown? && f.value.debug)
      modifies this
      ensures (items, counterCount, wroteName)
           == if MayName(config, f) && !old(wroteName)
              then (old(items) + [NameItem(f.value)], old(counterCount), true)
              else if config.annotations
              then (old(items) + [Annotated(f.name, AnnotationValue(f.value))], old(counterCount), old(wroteName))
              else (old(items), old(counterCount), old(wroteName))
    {
      if config.messageAsName && !wroteName && f.name.text == MESSAGE {
        wroteName := true;
        items := items + [NameItem(f.value)];
        return;
      }
      if !config.annotations {
        return;
      }
      items := items + [Annotated(f.name, AnnotationValue(f.value))];
    }

    /** All other values. */
    method RecordOther(f: EventField)
      requires !f.value.RecordedI64? && !f.value.RecordedU64? && !f.value.RecordedF64?
      requires !f.value.RecordedStr? && !(f.value.Shown? && f.value.debug)
      modifies this
      ensures (items, counterCount, wroteName)
           == if config.annotations
              then (old(items) + [Annotated(f.name, AnnotationValue(f.value))], old(counterCount), old(wroteName))
              else (old(items), old(counterCount), old(wroteName))
    {
      if !config.annotations {
        return;
      }
      items := items + [Annotated(f.name, AnnotationValue(f.value))];
    }

    /** The event's fields in order: each becomes what its rank among the samples says. */
    method RecordAll(fields: seq<EventField>)
      requires items == [] && counterCount == 0 && !wroteName
      modifies this
      ensures items == Visited(config, tracks, fields)
      ensures counterCount == Min(MAX_EXTRA_COUNTERS, SamplesIn(config, tracks, fields))
      ensures wroteName <==> NamesIn(config, fields) > 0
    {
      var i := 0;
      while i < |fields|
        invariant i <= |fields|
        invariant items == Visited(config, tracks, fields[..i])
        invariant counterCount == Min(MAX_EXTRA_COUNTERS, SamplesIn(config, tracks, fields[..i]))
        invariant wroteName <==> NamesIn(config, fields[..i]) > 0
      {
        var f := fields[i];
        assert fields[..i + 1] == fields[..i] + [f];
        VisitedPush(config, tracks, fields[..i], f);
        match f.value {
          case RecordedI64(_) => RecordNumber(f);
          case RecordedU64(_) => RecordNumber(f);
          case RecordedF64(_) => RecordNumber(f);
          case RecordedStr(_) => RecordText(f);
          case Shown(_, debug) =>
            if debug {
              RecordText(f);
            } else {
              RecordOther(f);
            }
          case _ => RecordOther(f);
        }
        i := i + 1;
      }
      assert fields[..i] == fields;
    }
  }

  function Min(a: nat, b: nat): nat {
    if a < b then a else b
  }

  // ------------------------------------------------------------ the reference

  /** How many of these fields are samples of known counters. */
  function SamplesIn(config: Config, tracks: CounterTracks, fields: seq<EventField>): nat {
    if fields == [] then 0
    else
      SamplesIn(config, tracks, fields[..|fields| - 1])
      + if IsSample(config, tracks, fields[|fields| - 1]) then 1 else 0
  }

  /** How many of them could be the event's name. */
  function NamesIn(config: Config, fields: seq<EventField>): nat {
    if fields == [] then 0
    else NamesIn(config, fields[..|fields| - 1]) + if MayName(config, fields[|fields| - 1]) then 1 else 0
  }

  /**
   What field `i` becomes, by position alone: among the known counters the first eight
   are samples, the first possible name is the name, every other counter is an
   annotation, and so is everything else if annotations are on.
   */
  function FieldItems(config: Config, tracks: CounterTracks, fields: seq<EventField>, i: nat): (items: seq<Item>)
    requires i < |fields|
    ensures |items| <= 1
    ensures IsCounter(config, fields[i]) ==> |items| == 1
  {
    var f := fields[i];
    if IsSample(config, tracks, f) && SamplesIn(config, tracks, fields[..i]) < MAX_EXTRA_COUNTERS then
      [SampleItem(tracks[f.name.address], f.value)]
    else if MayName(config, f) && NamesIn(config, fields[..i]) == 0 then [NameItem(f.value)]
    else if IsCounter(config, f) || config.annotations then [Annotated(f.name, AnnotationValue(f.value))]
    else []
  }

  function Visited(config: Config, tracks: CounterTracks, fields: seq<EventField>): seq<Item> {
    Concat(seq(|fields|, i requires 0 <= i < |fields| => FieldItems(config, tracks, fields, i)))
  }

  lemma VisitedPush(config: Config, tracks: CounterTracks, fields: seq<EventField>, f: EventField)
    ensures Visited(config, tracks, fields + [f])
            == Visited(config, tracks, fields) + FieldItems(config, tracks, fields + [f], |fields|)
    ensures (fields + [f])[..|fields|] == fields
    ensures SamplesIn(config, tracks, fields + [f])
         == SamplesIn(config, tracks, fields) + if IsSample(config, tracks, f) then 1 else 0
    ensures NamesIn(config, fields + [f]) == NamesIn(config, fields) + if MayName(config, f) then 1 else 0
  {
    var all := fields + [f];
    assert all[..|fields|] == fields;
    forall i | 0 <= i < |fields|
      ensures FieldItems(config, tracks, all, i) == FieldItems(config, tracks, fields, i)
    {
      assert all[..i] == fields[..i];
      assert all[i] == fields[i];
    }
    PartsPush(config, tracks, fields, all);
  }

  lemma PartsPush(config: Config, tracks: CounterTracks, fields: seq<EventField>, all: seq<EventField>)
    requires |all| == |fields| + 1
    requires forall i :: 0 <= i < |fields| ==>
        FieldItems(config, tracks, all, i) == FieldItems(config, tracks, fields, i)
    ensures Visited(config, tracks, all) == Visited(config, tracks, fields) + FieldItems(config, tracks, all, |fields|)
  {
    var parts := seq(|fields|, i requires 0 <= i < |fields| => FieldItems(config, tracks, fields, i));
    var parts' := seq(|all|, i requires 0 <= i < |all| => FieldItems(config, tracks, all, i));
    assert parts' == parts + [FieldItems(config, tracks, all, |fields|)];
    ConcatPush(parts, FieldItems(config, tracks, all, |fields|));
  }

  // ------------------------------------------------------------ values

  /** The number a counter records. */
  function Number(value: Recorded): int
    requires value.RecordedI64? || value.RecordedU64?
  {
    if value.RecordedI64? then value.signed else value.number
  }

  /**
   What a reader that takes a sample for a signed number gets: the recorded number,
   exactly unless it is unsigned and above 2^63 - 1; then a negative one.
   */
  lemma SamplesKeepValues(config: Config, tracks: CounterTracks, fields: seq<EventField>, i: nat)
    requires i < |fields| && IsSample(config, tracks, fields[i]) && !fields[i].value.RecordedF64?
    requires SamplesIn(config, tracks, fields[..i]) < MAX_EXTRA_COUNTERS
    ensures var items := FieldItems(config, tracks, fields, i);
            var number := Number(fields[i].value);
            && |items| == 1 && items[0].CounterI64? && items[0].track == tracks[fields[i].name.address]
            && (FromBits(items[0].bits) == number <==> number < TWO_TO_THE_63)
            && (number >= TWO_TO_THE_63 ==> FromBits(items[0].bits) < 0)
  {
    match fields[i].value
    case RecordedI64(signed) => SignedRoundTrip(signed, 0);
    case RecordedU64(number) => CastIsExact(number);
  }

  /** An annotation's value says what was recorded. */
  lemma AnnotationMeans(value: Recorded)
    ensures Understood(AnnotationValue(value)) == Meant(value)
    ensures Understood(PlainValue(AnnotationValue(value))) == Meant(value)
  {
    PlainIsUnderstood(AnnotationValue(value));
  }

  /** The field is the event's name: the first that may be, if there is one. */
  predicate IsName(config: Config, fields: seq<EventField>, i: nat)
    requires i < |fields|
  {
    MayName(config, fields[i]) && forall j: nat :: j < i ==> !MayName(config, fields[j])
  }

  lemma {:induction false} NoNamesIn(config: Config, fields: seq<EventField>, n: nat)
    requires n <= |fields|
    ensures NamesIn(config, fields[..n]) == 0 <==> forall j: nat :: j < n ==> !MayName(config, fields[j])
    decreases n
  {
    if n > 0 {
      assert fields[..n][..n - 1] == fields[..n - 1];
      NoNamesIn(config, fields, n - 1);
    }
  }

  predicate IsNumber(value: Recorded) {
    value.RecordedI64? || value.RecordedU64? || value.RecordedF64?
  }

  predicate IsText(value: Recorded) {
    value.RecordedStr? || value.Shown?
  }

  /** What a counter sample reads back as: its track and its number's 64 bits, or its double's. */
  predicate ReadsAsSample(readings: seq<Reading>, track: u64, value: Recorded)
    requires IsNumber(value)
  {
    match value
    case RecordedF64(bits) => readings == [ReadDoubleCounterTrack(track), ReadDoubleCounterValue(bits)]
    case RecordedI64(signed) =>
      && |readings| == 2 && readings[0] == ReadCounterTrack(track)
      && readings[1].ReadCounterValue? && readings[1].bits < TWO_TO_THE_64 && FromBits(readings[1].bits) == signed
    case RecordedU64(number) => readings == [ReadCounterTrack(track), ReadCounterValue(number)]
  }

  /** What an annotation reads back as: its name's text and a value that says what was recorded. */
  predicate ReadsAsAnnotation(readings: seq<Reading>, name: seq<byte>, value: Recorded) {
    && |readings| == 1 && readings[0].ReadAnnotation? && readings[0].name == name
    && Understood(readings[0].value) == Meant(value)
  }

  /**
   Field by field, what a reader gets: for the first eight known counters, a sample of the
   recorded number; for the first field that may name the event, the recorded text as its
   name; for every other counter, and for everything else if annotations are on, an
   annotation of the field's own name that says what was recorded; and otherwise nothing.
   */
  lemma FieldsReadBack(config: Config, tracks: CounterTracks, fields: seq<EventField>, i: nat, payloads: seq<Payload>)
    requires i < |fields|
    requires FieldItems(config, tracks, fields, i) != [] ==>
               |payloads| == |Refs(FieldItems(config, tracks, fields, i)[0])|
    ensures var (items, f) := (FieldItems(config, tracks, fields, i), fields[i]);
            if IsSample(config, tracks, f) && SamplesIn(config, tracks, fields[..i]) < MAX_EXTRA_COUNTERS then
              |items| == 1 && ReadsAsSample(Readings(items[0], payloads), tracks[f.name.address], f.value)
            else if IsName(config, fields, i) then
              |items| == 1 && IsText(f.value) && Readings(items[0], payloads) == [ReadName(f.value.text)]
            else if IsCounter(config, f) || config.annotations then
              && |items| == 1 && Refs(items[0]) == [StringRef(AnnotationNames, f.name)]
              && ReadsAsAnnotation(Readings(items[0], payloads), payloads[0].text, f.value)
            else items == []
  {
    NoNamesIn(config, fields, i);
    AnnotationMeans(fields[i].value);
    if fields[i].value.RecordedI64? {
      SignedRoundTrip(fields[i].value.signed, 0);
    }
  }

  // ------------------------------------------------------------ counting

  predicate IsCounterItem(item: Item) {
    item.CounterI64? || item.CounterF64?
  }

  predicate IsNameItem(item: Item) {
    item.Named? || item.NamedInline? || item.NamedFormatted?
  }

  function CountCounters(items: seq<Item>): nat {
    if items == [] then 0 else CountCounters(items[..|items| - 1]) + if IsCounterItem(items[|items| - 1]) then 1 else 0
  }

  function CountNames(items: seq<Item>): nat {
    if items == [] then 0 else CountNames(items[..|items| - 1]) + if IsNameItem(items[|items| - 1]) then 1 else 0
  }

  lemma CountPush(items: seq<Item>, item: Item)
    ensures CountCounters(items + [item]) == CountCounters(items) + if IsCounterItem(item) then 1 else 0
    ensures CountNames(items + [item]) == CountNames(items) + if IsNameItem(item) then 1 else 0
  {
    assert (items + [item])[..|items|] == items;
  }

  /** At most eight samples, exactly the known counters up to eight; at most one name. */
  lemma {:induction false} SamplesAreBounded(config: Config, tracks: CounterTracks, fields: seq<EventField>)
    ensures CountCounters(Visited(config, tracks, fields)) == Min(MAX_EXTRA_COUNTERS, SamplesIn(config, tracks, fields))
    ensures CountNames(Visited(config, tracks, fields)) == Min(1, NamesIn(config, fields))
    decreases |fields|
  {
    if fields != [] {
      var front, f := fields[..|fields| - 1], fields[|fields| - 1];
      SamplesAreBounded(config, tracks, front);
      assert fields == front + [f];
      BoundedPush(config, tracks, front, f);
    }
  }

  lemma BoundedPush(config: Config, tracks: CounterTracks, front: seq<EventField>, f: EventField)
    requires CountCounters(Visited(config, tracks, front)) == Min(MAX_EXTRA_COUNTERS, SamplesIn(config, tracks, front))
    requires CountNames(Visited(config, tracks, front)) == Min(1, NamesIn(config, front))
    ensures CountCounters(Visited(config, tracks, front + [f]))
         == Min(MAX_EXTRA_COUNTERS, SamplesIn(config, tracks, front + [f]))
    ensures CountNames(Visited(config, tracks, front + [f])) == Min(1, NamesIn(config, front + [f]))
  {
    VisitedPush(config, tracks, front, f);
    var more := FieldItems(config, tracks, front + [f], |front|);
    CountParts(Visited(config, tracks, front), more);
    ItemIsSampleOrName(config, tracks, front, f);
  }

  lemma ItemIsSampleOrName(config: Config, tracks: CounterTracks, front: seq<EventField>, f: EventField)
    ensures var more := FieldItems(config, tracks, front + [f], |front|);
            && (more != [] && IsCounterItem(more[0])
                <==> IsSample(config, tracks, f) && SamplesIn(config, tracks, front) < MAX_EXTRA_COUNTERS)
            && (more != [] && IsNameItem(more[0]) <==> MayName(config, f) && NamesIn(config, front) == 0)
  {
    assert (front + [f])[..|front|] == front && (front + [f])[|front|] == f;
  }

  /** Adding nothing or one item. */
  lemma CountParts(items: seq<Item>, more: seq<Item>)
    requires |more| <= 1
    ensures CountCounters(items + more) == CountCounters(items) + if more != [] && IsCounterItem(more[0]) then 1 else 0
    ensures CountNames(items + more) == CountNames(items) + if more != [] && IsNameItem(more[0]) then 1 else 0
  {
    if more == [] {
      assert items + more == items;
    } else {
      assert more == [more[0]];
      CountPush(items, more[0]);
    }
  }

  // ------------------------------------------------------------ the whole event

  /** What `on_event` adds: the static name, unless the visitor wrote one. */
  function NamedItems(config: Config, tracks: CounterTracks, fields: seq<EventField>, name: StaticStr): seq<Item> {
    var visited := Visited(config, tracks, fields);
    if NamesIn(config, fields) > 0 then visited else visited + [Named(name)]
  }

  /** The names among an event's readings. */
  function NamesRead(readings: seq<Reading>): seq<seq<byte>> {
    if readings == [] then []
    else if readings[0].ReadName? then [readings[0].text] + NamesRead(readings[1..])
    else NamesRead(readings[1..])
  }

  lemma {:induction false} NamesReadAppend(a: seq<Reading>, b: seq<Reading>)
    ensures NamesRead(a + b) == NamesRead(a) + NamesRead(b)
  {
    if a == [] {
      assert a + b == b;
    } else {
      assert (a + b)[1..] == a[1..] + b;
      NamesReadAppend(a[1..], b);
    }
  }

  lemma {:induction false} SettledAppend(ts: Tables, a: seq<Item>, b: seq<Item>)
    requires ItemsKnown(ts, a) && ItemsKnown(ts, b)
    ensures ItemsKnown(ts, a + b) && SettledAll(ts, a + b) == SettledAll(ts, a) + SettledAll(ts, b)
    decreases |a|
  {
    if a == [] {
      assert a + b == b;
    } else {
      assert (a + b)[1..] == a[1..] + b;
      SettledAppend(ts, a[1..], b);
      assert Settled(ts, a[0]) + (SettledAll(ts, a[1..]) + SettledAll(ts, b))
          == Settled(ts, a[0]) + SettledAll(ts, a[1..]) + SettledAll(ts, b);
    }
  }

  /** The recorded text of the first field that may name the event. */
  function RecordedName(config: Config, fields: seq<EventField>): seq<seq<byte>> {
    if fields == [] then []
    else
      var before, last := RecordedName(config, fields[..|fields| - 1]), fields[|fields| - 1];
      if before == [] && MayName(config, last) then [last.value.text] else before
  }

  lemma {:induction false} RecordedNameIs(config: Config, fields: seq<EventField>)
    ensures RecordedName(config, fields) == [] <==> NamesIn(config, fields) == 0
    ensures forall i: nat :: i < |fields| && IsName(config, fields, i) ==>
              RecordedName(config, fields) == [fields[i].value.text]
    decreases |fields|
  {
    if fields != [] {
      var front := fields[..|fields| - 1];
      RecordedNameIs(config, front);
      NoNamesIn(config, fields, |fields| - 1);
      forall i: nat | i < |fields| && IsName(config, fields, i)
        ensures RecordedName(config, fields) == [fields[i].value.text]
      {
        if i < |front| {
          assert IsName(config, front, i);
        }
      }
    }
  }

  lemma OneItemNames(ts: Tables, item: Item)
    requires ItemKnown(ts, item)
    ensures NamesRead(SettledAll(ts, [item])) == match item
                                                 case Named(name) => [ts.names.entries[name.address].payload.text]
                                                 case NamedInline(text) => [text]
                                                 case NamedFormatted(text) => [text]
                                                 case _ => []
  {
    assert [item][1..] == [];
    assert SettledAll(ts, [item]) == Settled(ts, item) + [];
    var readings := Settled(ts, item);
    if item.Named? {
      assert Refs(item)[0] == StringRef(EventNames, item.name);
    }
    if |readings| == 2 {
      assert readings[1..] == [readings[1]] && readings[1..][1..] == [];
      assert NamesRead(readings[1..][1..]) == [] && !readings[0].ReadName? && !readings[1].ReadName?;
      assert NamesRead(readings[1..]) == [];
    } else {
      assert readings[1..] == [];
    }
  }

  lemma {:induction false} VisitedNames(config: Config, tracks: CounterTracks, fields: seq<EventField>, ts: Tables)
    requires ItemsKnown(ts, Visited(config, tracks, fields))
    ensures NamesRead(SettledAll(ts, Visited(config, tracks, fields))) == RecordedName(config, fields)
    decreases |fields|
  {
    if fields != [] {
      var front, f := fields[..|fields| - 1], fields[|fields| - 1];
      assert fields == front + [f];
      VisitedPush(config, tracks, front, f);
      var before, more := Visited(config, tracks, front), FieldItems(config, tracks, fields, |front|);
      assert forall item :: item in before || item in more ==> item in Visited(config, tracks, fields);
      VisitedNames(config, tracks, front, ts);
      SettledAppend(ts, before, more);
      NamesReadAppend(SettledAll(ts, before), SettledAll(ts, more));
      LastFieldNames(config, tracks, fields, ts);
      RecordedNameIs(config, front);
    }
  }

  lemma LastFieldNames(config: Config, tracks: CounterTracks, fields: seq<EventField>, ts: Tables)
    requires fields != [] && ItemsKnown(ts, FieldItems(config, tracks, fields, |fields| - 1))
    ensures var (more, f) := (FieldItems(config, tracks, fields, |fields| - 1), fields[|fields| - 1]);
            NamesRead(SettledAll(ts, more))
            == if MayName(config, f) && NamesIn(config, fields[..|fields| - 1]) == 0 then [f.value.text] else []
  {
    var more := FieldItems(config, tracks, fields, |fields| - 1);
    if more != [] {
      assert more == [more[0]];
      OneItemNames(ts, more[0]);
    }
  }

  /**
   The event's name as read back: the recorded text of the first field that may name it,
   or, if none may, its static name; and no other.
   */
  lemma EventNameReads(config: Config, tracks: CounterTracks, fields: seq<EventField>, name: StaticStr, ts: Tables)
    requires ItemsKnown(ts, NamedItems(config, tracks, fields, name))
    ensures var names := NamesRead(SettledAll(ts, NamedItems(config, tracks, fields, name)));
            && (forall i: nat :: i < |fields| && IsName(config, fields, i) ==> names == [fields[i].value.text])
            && ((forall i: nat :: i < |fields| ==> !MayName(config, fields[i])) ==>
                  && name.address in ts.names.entries
                  && names == [ts.names.entries[name.address].payload.text])
  {
    var visited := Visited(config, tracks, fields);
    var all := NamedItems(config, tracks, fields, name);
    assert forall item :: item in visited ==> item in all;
    VisitedNames(config, tracks, fields, ts);
    RecordedNameIs(config, fields);
    NoNamesIn(config, fields, |fields|);
    assert fields[..|fields|] == fields;
    if NamesIn(config, fields) == 0 {
      assert Named(name) in all && ItemKnown(ts, Named(name));
      assert Refs(Named(name))[0] == StringRef(EventNames, name);
      SettledAppend(ts, visited, [Named(name)]);
      NamesReadAppend(SettledAll(ts, visited), SettledAll(ts, [Named(name)]));
      OneItemNames(ts, Named(name));
    }
  }

  /** Whatever the visitor wrote is in the event, in order, and all else there is is the static name. */
  lemma NothingVisitedIsLost(config: Config, tracks: CounterTracks, fields: seq<EventField>, name: StaticStr)
    ensures var (visited, items) := (Visited(config, tracks, fields), NamedItems(config, tracks, fields, name));
            && |visited| <= |items| && items[..|visited|] == visited
            && forall k: nat :: |visited| <= k < |items| ==> items[k] == Named(name) && |items| == |visited| + 1
  {
  }

  /** The visitor's items are its fields' items, one field after the other. */
  lemma {:induction false} VisitedIsInOrder(config: Config, tracks: CounterTracks, fields: seq<EventField>, i: nat)
    requires i < |fields|
    ensures var (before, items) := (Visited(config, tracks, fields[..i]), FieldItems(config, tracks, fields, i));
            var visited := Visited(config, tracks, fields);
            |before| + |items| <= |visited| && visited[|before|..|before| + |items|] == items
    decreases |fields|
  {
    var front, f := fields[..|fields| - 1], fields[|fields| - 1];
    assert fields == front + [f];
    VisitedPush(config, tracks, front, f);
    if i < |front| {
      VisitedIsInOrder(config, tracks, front, i);
      assert front[..i] == fields[..i];
      ItemsOfFront(config, tracks, front, f, i);
      SliceOfFront(Visited(config, tracks, front), FieldItems(config, tracks, fields, |front|),
                   |Visited(config, tracks, fields[..i])|, |FieldItems(config, tracks, fields, i)|);
    } else {
      assert fields[..i] == front;
    }
  }

  /** A field's items depend on the fields before it only. */
  lemma ItemsOfFront(config: Config, tracks: CounterTracks, front: seq<EventField>, f: EventField, i: nat)
    requires i < |front|
    ensures FieldItems(config, tracks, front + [f], i) == FieldItems(config, tracks, front, i)
  {
    assert (front + [f])[..i] == front[..i];
  }

  lemma SliceOfFront(front: seq<Item>, more: seq<Item>, from: nat, n: nat)
    requires from + n <= |front|
    ensures (front + more)[from..from + n] == front[from..from + n]
  {
  }

  /** Every event gets exactly one name. */
  lemma ExactlyOneName(config: Config, tracks: CounterTracks, fields: seq<EventField>, name: StaticStr)
    ensures CountNames(NamedItems(config, tracks, fields, name)) == 1
    ensures CountCounters(NamedItems(config, tracks, fields, name)) <= MAX_EXTRA_COUNTERS
  {
    SamplesAreBounded(config, tracks, fields);
    CountPush(Visited(config, tracks, fields), Named(name));
  }

  // ------------------------------------------------------------ aligned arrays

  /** The four repeated fields of an event's counters. */
  datatype Column = IntegerTracks | IntegerValues | DoubleTracks | DoubleValues

  function ReadCell(reading: Reading, column: Column): seq<nat> {
    match (column, reading)
    case (IntegerTracks, ReadCounterTrack(uuid)) => [uuid]
    case (IntegerValues, ReadCounterValue(bits)) => [bits]
    case (DoubleTracks, ReadDoubleCounterTrack(uuid)) => [uuid]
    case (DoubleValues, ReadDoubleCounterValue(bits)) => [bits]
    case _ => []
  }

  /** A repeated field, as the reader collects it. */
  function ReadColumn(readings: seq<Reading>, column: Column): seq<nat> {
    if readings == [] then [] else ReadCell(readings[0], column) + ReadColumn(readings[1..], column)
  }

  /** The samples of a list of items, in order, integers or doubles. */
  function Samples(items: seq<Item>, doubles: bool): seq<(nat, nat)> {
    if items == [] then []
    else
      var rest := Samples(items[1..], doubles);
      if items[0].CounterI64? && !doubles then [(items[0].track, items[0].bits)] + rest
      else if items[0].CounterF64? && doubles then [(items[0].track, items[0].bits)] + rest
      else rest
  }

  function WrittenColumn(items: seq<Item>, column: Column): seq<nat> {
    var samples := Samples(items, column.DoubleTracks? || column.DoubleValues?);
    seq(|samples|, i requires 0 <= i < |samples| =>
      if column.IntegerTracks? || column.DoubleTracks? then samples[i].0 else samples[i].1)
  }

  lemma {:induction false} ColumnAppend(x: seq<Reading>, y: seq<Reading>, column: Column)
    ensures ReadColumn(x + y, column) == ReadColumn(x, column) + ReadColumn(y, column)
  {
    if x == [] {
      assert x + y == y;
    } else {
      assert (x + y)[1..] == x[1..] + y;
      ColumnAppend(x[1..], y, column);
    }
  }

  function ItemCell(item: Item, column: Column): seq<nat> {
    match (column, item)
    case (IntegerTracks, CounterI64(track, _)) => [track]
    case (IntegerValues, CounterI64(_, bits)) => [bits]
    case (DoubleTracks, CounterF64(track, _)) => [track]
    case (DoubleValues, CounterF64(_, bits)) => [bits]
    case _ => []
  }

  lemma ItemColumn(ts: Tables, item: Item, column: Column)
    requires ItemKnown(ts, item)
    ensures ReadColumn(Settled(ts, item), column) == ItemCell(item, column)
  {
    match item
    case CounterI64(track, bits) => ColumnOfTwo(ReadCounterTrack(track), ReadCounterValue(bits), column);
    case CounterF64(track, bits) => ColumnOfTwo(ReadDoubleCounterTrack(track), ReadDoubleCounterValue(bits), column);
    case _ => PlainItemColumn(ts, item, column);
  }

  lemma PlainItemColumn(ts: Tables, item: Item, column: Column)
    requires ItemKnown(ts, item) && !IsCounterItem(item)
    ensures ReadColumn(Settled(ts, item), column) == [] == ItemCell(item, column)
  {
    var readings := Settled(ts, item);
    assert |readings| == 1;
    ColumnOfOne(readings, column);
    assert ReadCell(readings[0], column) == [];
  }

  lemma ColumnOfOne(readings: seq<Reading>, column: Column)
    requires |readings| == 1
    ensures ReadColumn(readings, column) == ReadCell(readings[0], column)
  {
    assert readings[1..] == [];
    assert ReadCell(readings[0], column) + [] == ReadCell(readings[0], column);
  }

  lemma ColumnOfTwo(a: Reading, b: Reading, column: Column)
    ensures ReadColumn([a, b], column) == ReadCell(a, column) + ReadCell(b, column)
  {
    assert [a, b][1..] == [b];
    ColumnOfOne([b], column);
  }

  lemma WrittenStep(items: seq<Item>, column: Column)
    requires items != []
    ensures WrittenColumn(items, column) == ItemCell(items[0], column) + WrittenColumn(items[1..], column)
  {
  }

  /**
   A replaying reader gets the samples back from the parallel repeated fields: the k-th
   uuid belongs to the k-th value, separately for integer and double counters.
   */
  lemma {:induction false} ColumnsAreAligned(ts: Tables, items: seq<Item>, column: Column)
    requires ItemsKnown(ts, items)
    ensures ReadColumn(SettledAll(ts, items), column) == WrittenColumn(items, column)
    decreases |items|
  {
    if items != [] {
      assert forall item :: item in items[1..] ==> item in items;
      ColumnsAreAligned(ts, items[1..], column);
      ItemColumn(ts, items[0], column);
      ColumnAppend(Settled(ts, items[0]), SettledAll(ts, items[1..]), column);
      WrittenStep(items, column);
    }
  }
}
