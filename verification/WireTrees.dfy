/**
 Whole-tree reading: a reader that knows which field numbers hold messages recovers
 the tree that was written, at every depth.
 */
module WireTrees {
  import opened Prelude
  import opened Wire

  /** Which fields of a message are themselves messages, and of what shape. */
  datatype Schema = Schema(messages: map<nat, Schema>)

  /** A message as a schema-aware reader sees it. */
  datatype Value =
    | IntValue(id: nat, value: nat)
    | FixedValue(id: nat, bits: nat)
    | TextValue(id: nat, text: seq<byte>)
    | MessageValue(id: nat, fields: seq<Value>)

  function ReadTree(data: seq<byte>, schema: Schema): (r: Option<seq<Value>>)
    decreases |data|
  {
    if data == [] then Some([])
    else
      match ParseOne(data)
      case None => None
      case Some((field, rest)) =>
        var first: Option<Value> :=
          match field
          case VarintWire(id, value) => Some(IntValue(id, value))
          case Fixed64Wire(id, bits) => Some(FixedValue(id, bits))
          case BytesWire(id, bytes) =>
            if id !in schema.messages then Some(TextValue(id, bytes))
            else
              match ReadTree(bytes, schema.messages[id])
              case None => None
              case Some(fields) => Some(MessageValue(id, fields));
        match (first, ReadTree(rest, schema))
        case (Some(value), Some(others)) => Some([value] + others)
        case _ => None
  }

  /** What a written field means, independent of how its numbers were encoded. */
  function Meaning(f: Field): Value
    decreases f, 1
  {
    match f
    case VarintField(id, value) => IntValue(id, value)
    case WideField(id, value) => IntValue(id, value)
    case Fixed64Field(id, bits) => FixedValue(id, bits)
    case StringField(id, text) => TextValue(id, text)
    case FormattedField(id, text) => TextValue(id, text)
    case Message(id, body) => MessageValue(id, MeaningAll(body))
  }

  function MeaningAll(fields: seq<Field>): seq<Value>
    decreases fields, 0
  {
    if fields == [] then [] else [Meaning(fields[0])] + MeaningAll(fields[1..])
  }

  /** The tree uses a field number for messages exactly where the schema says so. */
  predicate Conforms(f: Field, schema: Schema)
    decreases f, 1
  {
    match f
    case VarintField(_, _) => true
    case WideField(_, _) => true
    case Fixed64Field(_, _) => true
    case StringField(id, _) => id !in schema.messages
    case FormattedField(id, _) => id !in schema.messages
    case Message(id, body) => id in schema.messages && ConformsAll(body, schema.messages[id])
  }

  predicate ConformsAll(fields: seq<Field>, schema: Schema)
    decreases fields, 0
  {
    fields == [] || (Conforms(fields[0], schema) && ConformsAll(fields[1..], schema))
  }

  /** Writing a tree with back-filled lengths and reading it recovers the tree. */
  lemma {:induction false} TreeRoundTrip(fields: seq<Field>, schema: Schema)
    requires FitsAll(fields) && ConformsAll(fields, schema)
    ensures ReadTree(EncodeAll(fields), schema) == Some(MeaningAll(fields))
    decreases fields
  {
    if fields != [] {
      var f, rest := fields[0], EncodeAll(fields[1..]);
      ParseWritten(f, rest);
      TreeRoundTrip(fields[1..], schema);
      if f.Message? {
        TreeRoundTrip(f.body, schema.messages[f.id]);
      }
    }
  }

  /** The encoding loses nothing: trees that write the same bytes mean the same. */
  lemma EncodingIsInjective(a: seq<Field>, b: seq<Field>, schema: Schema)
    requires FitsAll(a) && ConformsAll(a, schema)
    requires FitsAll(b) && ConformsAll(b, schema)
    requires EncodeAll(a) == EncodeAll(b)
    ensures MeaningAll(a) == MeaningAll(b)
  {
    TreeRoundTrip(a, schema);
    TreeRoundTrip(b, schema);
  }
}
