/** The straight-line writer of one track event's fields. */
module EventWriters {
  import opened Prelude
  import opened Wire
  import opened ProtoBuffers
  import opened Interning
  import opened Events

  class TrackEventWriter {
    const buffer: ProtoBuffer

    constructor (buffer: ProtoBuffer)
      ensures this.buffer == buffer
    {
      this.buffer := buffer;
    }

    /** Writes a two-field annotation; false where the source panics. */
    method WriteAnnotation(nameIid: u64, value: Field) returns (ok: bool)
      modifies buffer
      ensures var f := Message(DEBUG_ANNOTATIONS, [VarintField(ANNOTATION_NAME_IID, nameIid), value]);
              ok == Fits(f) && (ok ==> buffer.buf == old(buffer.buf) + EncodeField(f))
    {
      var f := Message(DEBUG_ANNOTATIONS, [VarintField(ANNOTATION_NAME_IID, nameIid), value]);
      ok := buffer.WriteField(f);
    }

    /** Writes one item, its strings already interned; false where the source panics. */
    method Write(item: Item, iids: seq<u64>) returns (ok: bool)
      requires |iids| == |Refs(item)|
      modifies buffer
      ensures ok == FitsAll(ItemFields(item, iids))
      ensures ok ==> buffer.buf == old(buffer.buf) + EncodeAll(ItemFields(item, iids))
    {
      ghost var fields := ItemFields(item, iids);
      ok := true;
      match item {
        case Kind(kind) => buffer.VarintField(TYPE, kind);
        case OnTrack(uuid) => buffer.RedundantVarintField(TRACK_UUID, uuid);
        case Named(_) => buffer.VarintField(NAME_IID, iids[0]);
        case NamedInline(text) => buffer.StringField(NAME, text);
        case NamedFormatted(text) => ok := buffer.FmtField(NAME, text);
        case InCategory(_) => buffer.VarintField(CATEGORY_IIDS, iids[0]);
        case AtLocation(_, _, _) => buffer.VarintField(SOURCE_LOCATION_IID, iids[0]);
        case AtLevel(_) => ok := WriteAnnotation(iids[0], VarintField(STRING_VALUE_IID, iids[1]));
        case Annotated(_, value) => ok := WriteAnnotation(iids[0], ValueField(value));
        case FlowStart(flow) => buffer.Fixed64Field(FLOW_IDS, flow);
        case FlowTerminate(flow) => buffer.Fixed64Field(TERMINATING_FLOW_IDS, flow);
        case CounterI64(track, bits) =>
          WriteCounterI64(track, bits);
          return;
        case CounterF64(track, bits) =>
          WriteCounterF64(track, bits);
          return;
      }
      SingleField(fields);
    }

    method WriteCounterI64(track: u64, bits: u64)
      modifies buffer
      ensures var fields := [WideField(EXTRA_COUNTER_TRACK_UUIDS, track), VarintField(EXTRA_COUNTER_VALUES, bits)];
              FitsAll(fields) && buffer.buf == old(buffer.buf) + EncodeAll(fields)
    {
      TwoFields(WideField(EXTRA_COUNTER_TRACK_UUIDS, track), VarintField(EXTRA_COUNTER_VALUES, bits));
      buffer.RedundantVarintField(EXTRA_COUNTER_TRACK_UUIDS, track);
      buffer.VarintField(EXTRA_COUNTER_VALUES, bits);
    }

    method WriteCounterF64(track: u64, bits: u64)
      modifies buffer
      ensures var fields := [WideField(EXTRA_DOUBLE_COUNTER_TRACK_UUIDS, track),
                             Fixed64Field(EXTRA_DOUBLE_COUNTER_VALUES, bits)];
              FitsAll(fields) && buffer.buf == old(buffer.buf) + EncodeAll(fields)
    {
      TwoFields(WideField(EXTRA_DOUBLE_COUNTER_TRACK_UUIDS, track), Fixed64Field(EXTRA_DOUBLE_COUNTER_VALUES, bits));
      buffer.RedundantVarintField(EXTRA_DOUBLE_COUNTER_TRACK_UUIDS, track);
      buffer.Fixed64Field(EXTRA_DOUBLE_COUNTER_VALUES, bits);
    }
  }

  lemma SingleField(fields: seq<Field>)
    requires |fields| == 1
    ensures EncodeAll(fields) == EncodeField(fields[0]) && FitsAll(fields) == Fits(fields[0])
  {
    assert fields == [fields[0]] && fields[1..] == [];
    EncodeAllOne(fields[0]);
  }

  lemma TwoFields(a: Field, b: Field)
    ensures EncodeAll([a, b]) == EncodeField(a) + EncodeField(b)
    ensures FitsAll([a, b]) == (Fits(a) && Fits(b))
  {
    assert [a, b] == [a] + [b];
    EncodeAllAppend([a], [b]);
    FitsAllAppend([a], [b]);
    SingleField([a]);
    SingleField([b]);
  }
}
