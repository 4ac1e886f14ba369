/**
 Field visitors: values stored for later keep the last record of each name, and an
 event's fields become counter samples, annotations or its name.
 */
module Visitors {
  import opened Prelude
  import opened Interning
  import opened Events
  import Flows

  const TWO_TO_THE_63: nat := 0x8000_0000_0000_0000
  const TWO_TO_THE_127: nat := 0x8000_0000_0000_0000_0000_0000_0000_0000

  type i64 = x: int | 0 - TWO_TO_THE_63 <= x < TWO_TO_THE_63
  type i128 = x: int | 0 - TWO_TO_THE_127 <= x < TWO_TO_THE_127
  type u128 = x: int | 0 <= x < 2 * TWO_TO_THE_127

  /**
   A value as `tracing` records it. A 128-bit value comes with its decimal text; `Shown`
   is the text of bytes, errors and anything formatted.
   */
  datatype Recorded =
    | RecordedBool(flag: bool)
    | RecordedI64(signed: i64)
    | RecordedU64(number: u64)
    | RecordedF64(bits: u64)
    | RecordedI128(wide: i128, text: Text)
    | RecordedU128(unsignedWide: u128, text: Text)
    | RecordedStr(text: Text)
    | Shown(text: Text, debug: bool)

  /** A 64-bit two's complement pattern, and back: Rust's `as u64` and `as i64`. */
  function ToBits(value: i64): u64 {
    if value >= 0 then value else value + TWO_TO_THE_64
  }

  function FromBits(bits: u64): i64 {
    if bits < TWO_TO_THE_63 then bits else bits - TWO_TO_THE_64
  }

  lemma SignedRoundTrip(value: i64, bits: u64)
    ensures FromBits(ToBits(value)) == value && ToBits(FromBits(bits)) == bits
  {
  }

  /** A u64 counter cast to i64 keeps its value exactly when it is below 2^63. */
  lemma CastIsExact(value: u64)
    ensures FromBits(value) == value <==> value < TWO_TO_THE_63
    ensures value >= TWO_TO_THE_63 ==> FromBits(value) < 0
  {
  }

  // ------------------------------------------------------------ what values say

  /** What a value says, recorded or written: a number is signed or unsigned. */
  datatype Meaning =
    | Flag(flag: bool)
    | Signed(signed: int)
    | Unsigned(number: nat)
    | Double(bits: u64)
    | Words(text: Text)

  /** What was recorded. A 128-bit number stays one in the range of its 64-bit type; else its text counts. */
  function Meant(value: Recorded): Meaning {
    match value
    case RecordedBool(flag) => Flag(flag)
    case RecordedI64(signed) => Signed(signed)
    case RecordedU64(number) => Unsigned(number)
    case RecordedF64(bits) => Double(bits)
    case RecordedI128(wide, text) =>
      if -0x8000_0000_0000_0000 <= wide <= 0x7FFF_FFFF_FFFF_FFFF then Signed(wide) else Words(text)
    case RecordedU128(wide, text) => if wide <= 0xFFFF_FFFF_FFFF_FFFF then Unsigned(wide) else Words(text)
    case RecordedStr(text) => Words(text)
    case Shown(text, _) => Words(text)
  }

  /** What a reader takes a written value for; signed numbers are two's complement. */
  function Understood(value: Value): Meaning {
    match value
    case BoolValue(flag) => Flag(flag)
    case IntValue(bits) => Signed(if bits < 0x8000_0000_0000_0000 then bits else bits - 0x1_0000_0000_0000_0000)
    case UintValue(number) => Unsigned(number)
    case DoubleValue(bits) => Double(bits)
    case StringValue(text) => Words(text)
    case FormattedValue(text) => Words(text)
  }

  /** Formatting leaves no trace in what is read back. */
  lemma PlainIsUnderstood(value: Value)
    ensures Understood(PlainValue(value)) == Understood(value)
  {
  }

  // ------------------------------------------------------------ stored fields

  function StoredValue(value: Recorded): Value {
    match value
    case RecordedBool(flag) => BoolValue(flag)
    case RecordedI64(signed) => IntValue(ToBits(signed))
    case RecordedU64(number) => UintValue(number)
    case RecordedF64(bits) => DoubleValue(bits)
    case RecordedI128(wide, text) =>
      if 0 - TWO_TO_THE_63 <= wide < TWO_TO_THE_63 then IntValue(ToBits(wide)) else StringValue(text)
    case RecordedU128(wide, text) => if wide < TWO_TO_THE_64 then UintValue(wide) else StringValue(text)
    case RecordedStr(text) => StringValue(text)
    case Shown(text, _) => StringValue(text)
  }

  /** A stored value says what was recorded. */
  lemma StoredMeans(value: Recorded)
    ensures Understood(StoredValue(value)) == Meant(value)
  {
  }

  /** A name, compared by content here, and its value. */
  datatype Stored = Stored(name: Text, value: Value)

  function IndexOfName(fields: seq<Stored>, name: Text): (k: nat)
    ensures k <= |fields|
    ensures k < |fields| ==> fields[k].name == name
    ensures forall j: nat :: j < k ==> fields[j].name != name
  {
    if fields == [] || fields[0].name == name then 0 else 1 + IndexOfName(fields[1..], name)
  }

  lemma {:induction false} IndexOfNameIs(fields: seq<Stored>, name: Text, k: nat)
    requires k <= |fields| && (k < |fields| ==> fields[k].name == name)
    requires forall j: nat :: j < k ==> fields[j].name != name
    ensures IndexOfName(fields, name) == k
  {
    if k > 0 {
      IndexOfNameIs(fields[1..], name, k - 1);
    }
  }

  function SetField(fields: seq<Stored>, name: Text, value: Value): seq<Stored> {
    var k := IndexOfName(fields, name);
    if k < |fields| then fields[k := Stored(name, value)] else fields + [Stored(name, value)]
  }

  /** What a span retains for later slices: fields, waiting flow endpoints, a poll flow. */
  class RetainedSpan {
    var fields: seq<Stored>
    var pendingFlows: seq<Flows.Endpoint>
    var pollFlow: Option<nat>

    constructor ()
      ensures IsEmpty()
    {
      fields, pendingFlows, pollFlow := [], [], None;
    }

    predicate IsEmpty()
      reads this
    {
      fields == [] && pendingFlows == [] && pollFlow == None
    }

    method Clear()
      modifies this
      ensures IsEmpty()
    {
      fields, pendingFlows, pollFlow := [], [], None;
    }
  }

  /** Records into a span's retained fields. */
  class StoreVisitor {
    const box: RetainedSpan

    constructor (box: RetainedSpan)
      ensures this.box == box
    {
      this.box := box;
    }

    method Set(name: Text, value: Value)
      modifies box`fields
      ensures box.fields == SetField(old(box.fields), name, value)
    {
      var k := 0;
      while k < |box.fields|
        invariant k <= |box.fields|
        invariant forall j: nat :: j < k ==> box.fields[j].name != name
        invariant box.fields == old(box.fields)
      {
        if box.fields[k].name == name {
          IndexOfNameIs(box.fields, name, k);
          box.fields := box.fields[k := Stored(name, value)];
          return;
        }
        k := k + 1;
      }
      IndexOfNameIs(box.fields, name, k);
      box.fields := box.fields + [Stored(name, value)];
    }

    /** Records a list of fields on top of those stored before. */
    method RecordAll(records: seq<(Text, Recorded)>)
      modifies box`fields
      ensures box.fields == SetAll(old(box.fields), StoredAll(records))
      ensures old(box.fields) == [] ==> Remembers(box.fields, records)
    {
      FoldRemembers(records);
      var i := 0;
      while i < |records|
        invariant i <= |records|
        invariant box.fields == SetAll(old(box.fields), StoredAll(records[..i]))
      {
        Set(records[i].0, StoredValue(records[i].1));
        assert StoredAll(records[..i + 1])
               == StoredAll(records[..i]) + [Stored(records[i].0, StoredValue(records[i].1))];
        assert StoredAll(records[..i + 1])[..i] == StoredAll(records[..i]);
        i := i + 1;
      }
      assert records[..i] == records;
    }
  }

  function StoredAll(records: seq<(Text, Recorded)>): seq<Stored> {
    seq(|records|, i requires 0 <= i < |records| => Stored(records[i].0, StoredValue(records[i].1)))
  }

  function SetAll(fields: seq<Stored>, records: seq<Stored>): seq<Stored> {
    if records == [] then fields
    else
      var last := records[|records| - 1];
      SetField(SetAll(fields, records[..|records| - 1]), last.name, last.value)
  }

  predicate Mentions(records: seq<Stored>, name: Text) {
    exists i: nat :: i < |records| && records[i].name == name
  }

  function Front(records: seq<Stored>): seq<Stored>
    requires records != []
  {
    records[..|records| - 1]
  }

  function Last(records: seq<Stored>): Stored
    requires records != []
  {
    records[|records| - 1]
  }

  lemma MentionsSplits(records: seq<Stored>, name: Text)
    requires records != []
    ensures Mentions(records, name) <==> Mentions(Front(records), name) || Last(records).name == name
  {
    if Mentions(records, name) && Last(records).name != name {
      var i: nat :| i < |records| && records[i].name == name;
      assert Front(records)[i].name == name;
    }
    if Mentions(Front(records), name) {
      var i: nat :| i < |Front(records)| && Front(records)[i].name == name;
      assert records[i].name == name;
    }
  }

  /** The names recorded, in the order of their first record. */
  function FirstNames(records: seq<Stored>): (names: seq<Text>) {
    if records == [] then []
    else
      var names := FirstNames(Front(records));
      if Last(records).name in names then names else names + [Last(records).name]
  }

  predicate NoRepeats(names: seq<Text>) {
    forall i: nat, j: nat :: i < j < |names| ==> names[i] != names[j]
  }

  lemma {:induction false} FirstNamesAre(records: seq<Stored>)
    ensures var names := FirstNames(records);
            && (forall name :: name in names <==> Mentions(records, name))
            && NoRepeats(names)
    decreases |records|
  {
    if records != [] {
      var names := FirstNames(Front(records));
      FirstNamesAre(Front(records));
      forall name
        ensures name in FirstNames(records) <==> Mentions(records, name)
      {
        MentionsSplits(records, name);
      }
    }
  }

  /** The last value recorded for a name; any value for a name not recorded. */
  function LastValue(records: seq<Stored>, name: Text): Value {
    if records == [] then BoolValue(false)
    else if Last(records).name == name then Last(records).value
    else LastValue(Front(records), name)
  }

  /** The reference: one entry per name, in first-record order, with its last value. */
  function Folded(records: seq<Stored>): (fields: seq<Stored>)
    ensures |fields| == |FirstNames(records)|
  {
    var names := FirstNames(records);
    seq(|names|, i requires 0 <= i < |names| => Stored(names[i], LastValue(records, names[i])))
  }

  /** A name's position among distinct names is where it is found. */
  lemma FoundAt(names: seq<Text>, fields: seq<Stored>, name: Text)
    requires NoRepeats(names) && |fields| == |names| && forall i: nat :: i < |names| ==> fields[i].name == names[i]
    ensures var k := IndexOfName(fields, name);
            && (k < |names| <==> name in names)
            && (forall i: nat :: i < |names| && i != k ==> names[i] != name)
  {
    var k := IndexOfName(fields, name);
    forall i: nat | i < |names| && i != k
      ensures names[i] != name
    {
      if i < k {
        assert fields[i].name != name;
      } else {
        assert names[k] != names[i];
      }
    }
  }

  lemma SetInFold(records: seq<Stored>)
    requires records != []
    ensures SetField(Folded(Front(records)), Last(records).name, Last(records).value) == Folded(records)
  {
    var before, last := Folded(Front(records)), Last(records);
    var names := FirstNames(Front(records));
    FirstNamesAre(Front(records));
    FoundAt(names, before, last.name);
    var k := IndexOfName(before, last.name);
    if last.name !in names {
      assert forall i: nat :: i < |names| ==> names[i] in names;
    }
    forall i: nat | i < |Folded(records)|
      ensures SetField(before, last.name, last.value)[i] == Folded(records)[i]
    {
    }
  }

  /**
   Last write wins: what the visitor has stored after any records is exactly the fold of
   those records, its names distinct, and nothing else.
   */
  lemma {:induction false} StoredIsTheFold(records: seq<Stored>)
    ensures SetAll([], records) == Folded(records)
    ensures forall i: nat, j: nat :: i < j < |Folded(records)| ==> Folded(records)[i].name != Folded(records)[j].name
    ensures forall name :: Mentions(records, name) <==> Stored(name, LastValue(records, name)) in Folded(records)
    decreases |records|
  {
    if records != [] {
      StoredIsTheFold(Front(records));
      SetInFold(records);
    }
    FirstNamesAre(records);
    var names, fields := FirstNames(records), Folded(records);
    forall name
      ensures Mentions(records, name) <==> Stored(name, LastValue(records, name)) in fields
    {
      if name in names {
        var i: nat :| i < |names| && names[i] == name;
        assert fields[i] == Stored(name, LastValue(records, name));
      }
    }
  }

  // ------------------------------------------------------------ what was recorded

  /** The names recorded, in the order of their first record. */
  function NamesRecorded(records: seq<(Text, Recorded)>): seq<Text> {
    if records == [] then []
    else
      var names, name := NamesRecorded(records[..|records| - 1]), records[|records| - 1].0;
      if name in names then names else names + [name]
  }

  /** What the last record of a name says; anything for a name not recorded. */
  function LastMeant(records: seq<(Text, Recorded)>, name: Text): Meaning {
    if records == [] then Flag(false)
    else if records[|records| - 1].0 == name then Meant(records[|records| - 1].1)
    else LastMeant(records[..|records| - 1], name)
  }

  /** One field for each name recorded, in first-record order, that says what its last record said. */
  ghost predicate Remembers(fields: seq<Stored>, records: seq<(Text, Recorded)>) {
    && |fields| == |NamesRecorded(records)|
    && forall i: nat :: i < |fields| ==>
         && fields[i].name == NamesRecorded(records)[i]
         && Understood(fields[i].value) == LastMeant(records, fields[i].name)
  }

  lemma StoredAllFront(records: seq<(Text, Recorded)>)
    requires records != []
    ensures var (front, last) := (records[..|records| - 1], records[|records| - 1]);
            && StoredAll(records) != [] && Front(StoredAll(records)) == StoredAll(front)
            && Last(StoredAll(records)) == Stored(last.0, StoredValue(last.1))
  {
  }

  lemma {:induction false} NamesAreRecorded(records: seq<(Text, Recorded)>)
    ensures FirstNames(StoredAll(records)) == NamesRecorded(records)
    decreases |records|
  {
    if records != [] {
      StoredAllFront(records);
      NamesAreRecorded(records[..|records| - 1]);
    }
  }

  lemma {:induction false} LastIsMeant(records: seq<(Text, Recorded)>, name: Text)
    ensures Understood(LastValue(StoredAll(records), name)) == LastMeant(records, name)
    decreases |records|
  {
    if records != [] {
      StoredAllFront(records);
      StoredMeans(records[|records| - 1].1);
      LastIsMeant(records[..|records| - 1], name);
    }
  }

  /** Last write wins, on what was recorded: whatever the records, the fold remembers them. */
  lemma FoldRemembers(records: seq<(Text, Recorded)>)
    ensures Remembers(Folded(StoredAll(records)), records)
    ensures SetAll([], StoredAll(records)) == Folded(StoredAll(records))
  {
    var fields := Folded(StoredAll(records));
    NamesAreRecorded(records);
    StoredIsTheFold(StoredAll(records));
    forall i: nat | i < |fields|
      ensures Understood(fields[i].value) == LastMeant(records, fields[i].name)
    {
      LastIsMeant(records, fields[i].name);
    }
  }
}
