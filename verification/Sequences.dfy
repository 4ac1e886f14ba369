/**
 Whole runs of one packet sequence: what the callbacks emit, what the reader replays,
 and exactly when names and times come back as they went in.
 */
module Sequences {
  import opened Prelude
  import opened Wire
  import opened Interning
  import opened Events
  import opened InternedData
  import opened PacketFormats
  import opened Packets

  /**
   One tracing callback: the clock value all its packets share and the packets it
   writes. `opening` and `setup` are used only if it is the sequence's first.
   */
  datatype Callback = Callback(raw: u64, opening: Opening, setup: seq<Body>, bodies: seq<Body>)

  /** One packet about to be written. */
  datatype Emission =
    | Initial(raw: u64, opening: Opening)
    | Ordinary(raw: u64, body: Body)

  function Ordinaries(raw: u64, bodies: seq<Body>): (r: seq<Emission>)
    ensures |r| == |bodies|
  {
    seq(|bodies|, i requires 0 <= i < |bodies| => Ordinary(raw, bodies[i]))
  }

  /** A callback that writes nothing does not even open its sequence. */
  function Emissions(started: bool, callback: Callback): seq<Emission> {
    if callback.bodies == [] then []
    else if started then Ordinaries(callback.raw, callback.bodies)
    else [Initial(callback.raw, callback.opening)] + Ordinaries(callback.raw, callback.setup + callback.bodies)
  }

  function RunEmissions(started: bool, run: seq<Callback>): seq<Emission>
    decreases |run|
  {
    if run == [] then []
    else Emissions(started, run[0]) + RunEmissions(started || run[0].bodies != [], run[1..])
  }

  /** Exactly the first packet of a sequence is initial. */
  predicate Ordered(started: bool, emissions: seq<Emission>) {
    forall i :: 0 <= i < |emissions| ==> (emissions[i].Initial? <==> i == 0 && !started)
  }

  lemma {:induction false} RunIsOrdered(started: bool, run: seq<Callback>)
    ensures Ordered(started, RunEmissions(started, run))
    decreases |run|
  {
    if run != [] {
      RunIsOrdered(started || run[0].bodies != [], run[1..]);
    }
  }

  /** The emissions after the first: the sequence has started. */
  lemma OrderedTail(started: bool, es: seq<Emission>)
    requires Ordered(started, es) && es != []
    ensures Ordered(true, es[1..]) && (es[0].Initial? <==> !started)
  {
  }

  // ------------------------------------------------------------ emitting

  /** The encoder's state between packets is clean. */
  ghost predicate Coherent(st: State) {
    TablesValid(st.tables) && NothingPending(st.tables)
  }

  lemma FreshIsCoherent()
    ensures Coherent(FRESH)
  {
    EmptyTablesAgree();
  }

  ghost function Emit(p: Params, st: State, e: Emission): (r: (State, seq<Field>))
    requires Coherent(st) && (e.Initial? || st.started)
    ensures Coherent(r.0) && r.0.started && r.0.last == e.raw
  {
    match e
    case Initial(raw, opening) =>
      EmptyTablesAgree();
      FirstPacket(p, raw, opening)
    case Ordinary(raw, body) => PacketFields(p, st, raw, body)
  }

  ghost function EmitAll(p: Params, st: State, es: seq<Emission>): (r: (State, seq<seq<Field>>))
    requires Coherent(st) && Ordered(st.started, es)
    ensures Coherent(r.0) && |r.1| == |es|
    decreases |es|
  {
    if es == [] then (st, [])
    else
      OrderedTail(st.started, es);
      var (st', fields) := Emit(p, st, es[0]);
      var (st'', others) := EmitAll(p, st', es[1..]);
      (st'', [fields] + others)
  }

  ghost predicate AllFit(packets: seq<seq<Field>>) {
    forall fields :: fields in packets ==> FitsAll(fields)
  }

  function Payloads(packets: seq<seq<Field>>): (r: seq<seq<byte>>)
    ensures |r| == |packets|
  {
    if packets == [] then [] else [EncodeAll(packets[0])] + Payloads(packets[1..])
  }

  // ------------------------------------------------------------ replaying

  function Replay(reader: Reader, payloads: seq<seq<byte>>): Option<(Reader, seq<Seen>)>
    decreases |payloads|
  {
    if payloads == [] then Some((reader, []))
    else
      match ReadPacket(reader, payloads[0])
      case None => None
      case Some((reader', seen)) =>
        match Replay(reader', payloads[1..])
        case None => None
        case Some((last, others)) => Some((last, [seen] + others))
  }

  /** The times of a run's packets: none for the first, which defines the clock. */
  ghost function Times(p: Params, st: State, es: seq<Emission>): (r: seq<Option<nat>>)
    requires Coherent(st) && Ordered(st.started, es)
    ensures |r| == |es|
    decreases |es|
  {
    if es == [] then []
    else
      OrderedTail(st.started, es);
      var st' := Emit(p, st, es[0]).0;
      [if es[0].Initial? then None else Some(st'.decoded)] + Times(p, st', es[1..])
  }

  predicate BodyKnown(ts: Tables, body: Body) {
    body.Event? ==> ItemsKnown(ts, body.items)
  }

  predicate EmissionsKnown(ts: Tables, es: seq<Emission>) {
    forall e :: e in es && e.Ordinary? ==> BodyKnown(ts, e.body)
  }

  function ShownEmission(p: Params, ts: Tables, e: Emission): Content
    requires e.Ordinary? ==> BodyKnown(ts, e.body)
  {
    match e
    case Initial(raw, opening) => Opened(p, raw, opening)
    case Ordinary(_, body) => Shown(p, ts, body)
  }

  /** What a reader of the whole run must see, strings resolved through its final tables. */
  function SeenAll(p: Params, ts: Tables, times: seq<Option<nat>>, es: seq<Emission>): (r: seq<Seen>)
    requires EmissionsKnown(ts, es) && |times| == |es|
    ensures |r| == |es|
  {
    if es == [] then []
    else [Seen(p.sequenceId, times[0], ShownEmission(p, ts, es[0]))] + SeenAll(p, ts, times[1..], es[1..])
  }

  /** Later interning never changes what an earlier packet says. */
  lemma ShownIsStable(p: Params, ts: Tables, ts': Tables, body: Body)
    requires AllExtend(ts, ts') && BodyKnown(ts, body)
    ensures BodyKnown(ts', body) && Shown(p, ts, body) == Shown(p, ts', body)
  {
    if body.Event? {
      SettledIsStable(ts, ts', body.items);
    }
  }

  lemma {:induction false} SettledIsStable(ts: Tables, ts': Tables, items: seq<Item>)
    requires AllExtend(ts, ts') && ItemsKnown(ts, items)
    ensures ItemsKnown(ts', items) && SettledAll(ts, items) == SettledAll(ts', items)
    decreases |items|
  {
    forall item | item in items
      ensures ItemKnown(ts', item) && Settled(ts', item) == Settled(ts, item)
    {
      ItemIsStable(ts, ts', item);
    }
    if items != [] {
      SettledIsStable(ts, ts', items[1..]);
    }
  }

  lemma ItemIsStable(ts: Tables, ts': Tables, item: Item)
    requires AllExtend(ts, ts') && ItemKnown(ts, item)
    ensures ItemKnown(ts', item) && Settled(ts', item) == Settled(ts, item)
  {
    var refs := Refs(item);
    forall ref | ref in refs
      ensures ref.key in ts'.Get(ref.space).entries
      ensures ts'.Get(ref.space).entries[ref.key] == ts.Get(ref.space).entries[ref.key]
    {
      assert Extends(ts.Get(ref.space), ts'.Get(ref.space));
    }
    assert FirstPayloads(ts', refs) == FirstPayloads(ts, refs);
  }

  /** The reader is new, or agrees with the encoder. */
  ghost predicate Follows(p: Params, reader: Reader, st: State) {
    Coherent(st) && (st.started ==> Agrees(p, reader, st))
  }

  lemma EmissionReads(p: Params, reader: Reader, st: State, e: Emission) returns (reader': Reader)
    requires Follows(p, reader, st) && (e.Initial? <==> !st.started)
    requires FitsAll(Emit(p, st, e).1)
    ensures var (st', fields) := Emit(p, st, e);
            && Agrees(p, reader', st')
            && (e.Ordinary? ==> AllExtend(st.tables, st'.tables) && BodyKnown(st'.tables, e.body))
            && ReadPacket(reader, EncodeAll(fields))
            == Some((reader',
                     Seen(p.sequenceId, if e.Initial? then None else Some(st'.decoded),
                          ShownEmission(p, st'.tables, e))))
  {
    match e
    case Initial(raw, opening) =>
      reader' := FirstPacketReads(p, reader, raw, opening);
    case Ordinary(raw, body) =>
      reader' := PacketReads(p, reader, st, raw, body);
  }

  lemma {:induction false} TablesGrow(p: Params, st: State, es: seq<Emission>)
    requires Coherent(st) && Ordered(st.started, es) && st.started
    ensures AllExtend(st.tables, EmitAll(p, st, es).0.tables)
    decreases |es|
  {
    if es != [] {
      OrderedTail(st.started, es);
      var st' := Emit(p, st, es[0]).0;
      PacketGrows(p, st, es[0].raw, es[0].body);
      TablesGrow(p, st', es[1..]);
      AllExtendTransitive(st.tables, st'.tables, EmitAll(p, st, es).0.tables);
    }
  }

  lemma PacketGrows(p: Params, st: State, raw: u64, body: Body)
    requires TablesValid(st.tables)
    ensures AllExtend(st.tables, PacketFields(p, st, raw, body).0.tables)
  {
    var ts := LowerBody(st.tables, body).0;
    if body.Event? {
      LowerAllGrows(st.tables, body.items);
    }
    FlushAllOthers(ts);
    AllExtendTransitive(st.tables, ts, FlushAll(ts));
  }

  lemma {:induction false} LowerAllGrows(ts: Tables, items: seq<Item>)
    requires TablesValid(ts)
    ensures AllExtend(ts, LowerAll(ts, items).0)
    decreases |items|
  {
    if items != [] {
      ReferAllKeeps(ts, Refs(items[0]));
      var ts' := Lower(ts, items[0]).0;
      LowerAllGrows(ts', items[1..]);
      AllExtendTransitive(ts, ts', LowerAll(ts, items).0);
    }
  }

  /** Replaying one packet and then the others. */
  lemma ReplayJoins(reader: Reader, fields: seq<Field>, others: seq<seq<Field>>)
    requires ReadPacket(reader, EncodeAll(fields)).Some?
    requires Replay(ReadPacket(reader, EncodeAll(fields)).value.0, Payloads(others)).Some?
    ensures var (next, seen) := ReadPacket(reader, EncodeAll(fields)).value;
            var (last, rest) := Replay(next, Payloads(others)).value;
            Replay(reader, Payloads([fields] + others)) == Some((last, [seen] + rest))
  {
    assert ([fields] + others)[1..] == others;
    assert Payloads([fields] + others)[1..] == Payloads(others);
  }

  /**
   Replaying a run, over any number of packets: the reader accepts every packet (so
   every iid resolves and none is defined twice), and each event says what was asked,
   each string being the one its address was first interned with.
   */
  lemma {:induction false} RunReplays(p: Params, reader: Reader, st: State, es: seq<Emission>, final: Tables)
    returns (reader': Reader)
    requires Follows(p, reader, st) && Ordered(st.started, es)
    requires AllFit(EmitAll(p, st, es).1)
    requires AllExtend(EmitAll(p, st, es).0.tables, final)
    ensures Follows(p, reader', EmitAll(p, st, es).0)
    ensures EmissionsKnown(final, es)
    ensures Replay(reader, Payloads(EmitAll(p, st, es).1))
         == Some((reader', SeenAll(p, final, Times(p, st, es), es)))
    decreases |es|
  {
    if es == [] {
      reader' := reader;
    } else {
      OrderedTail(st.started, es);
      var (st', fields) := Emit(p, st, es[0]);
      var (last, others) := EmitAll(p, st', es[1..]);
      var packets := EmitAll(p, st, es).1;
      assert packets == [fields] + others;
      assert fields in packets && forall f :: f in others ==> f in packets;
      var next := EmissionReads(p, reader, st, es[0]);
      reader' := RunReplays(p, next, st', es[1..], final);
      TablesGrow(p, st', es[1..]);
      AllExtendTransitive(st'.tables, last.tables, final);
      if es[0].Ordinary? {
        ShownIsStable(p, st'.tables, final, es[0].body);
      }
      ReplayJoins(reader, fields, others);
    }
  }
}
