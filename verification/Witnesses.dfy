/**
 Concrete runs of one sequence for what `Fidelity` says can go wrong: two names at one
 address, and a clock that steps back. Such runs fit the format and are replayed.
 */
module Witnesses {
  import opened Prelude
  import opened Varints
  import opened Wire
  import opened Interning
  import opened Events
  import opened InternedData
  import opened PacketFormats
  import opened Packets
  import opened Sequences
  import opened Fidelity

  // ------------------------------------------------------------ sizes

  const TAG_LEN: nat := 5

  /** A bound on a field's encoded length that needs no encoding. */
  function Bound(f: Field): nat
    decreases f, 1
  {
    match f
    case VarintField(_, _) => TAG_LEN + MAX_VARINT_LEN
    case WideField(_, _) => TAG_LEN + MAX_VARINT_LEN
    case Fixed64Field(_, _) => TAG_LEN + 8
    case StringField(_, text) => TAG_LEN + MAX_VARINT_LEN + |text|
    case FormattedField(_, text) => TAG_LEN + MESSAGE_LEN_PREFIX_SIZE + |text|
    case Message(_, body) => TAG_LEN + MESSAGE_LEN_PREFIX_SIZE + BoundAll(body)
  }

  function BoundAll(fields: seq<Field>): nat
    decreases fields, 0
  {
    if fields == [] then 0 else Bound(fields[0]) + BoundAll(fields[1..])
  }

  lemma {:induction false} BoundAllAppend(a: seq<Field>, b: seq<Field>)
    ensures BoundAll(a + b) == BoundAll(a) + BoundAll(b)
  {
    if a == [] {
      assert a + b == b;
    } else {
      assert (a + b)[1..] == a[1..] + b;
      BoundAllAppend(a[1..], b);
    }
  }

  lemma TagIsShort(id: FieldId, wireType: nat)
    requires wireType < 8
    ensures |Tag(id, wireType)| <= TAG_LEN
  {
    CapValues();
    assert Cap(5) == 128 * Cap(4);
    MinimalDigits(id * 8 + wireType, TAG_LEN, []);
  }

  /** A field within the bound fits, and is encoded within it. */
  lemma {:induction false} FieldWithinBound(f: Field)
    requires Bound(f) <= MAX_MESSAGE_LEN
    ensures Fits(f) && |EncodeField(f)| <= Bound(f)
    decreases f, 1
  {
    match f
    case VarintField(id, value) =>
      TagIsShort(id, VARINT);
      MinimalRoundTrip(value, []);
    case WideField(id, _) => TagIsShort(id, VARINT);
    case Fixed64Field(id, _) => TagIsShort(id, FIXED64);
    case StringField(id, text) =>
      TagIsShort(id, DELIMITED);
      MinimalRoundTrip(|text|, []);
    case FormattedField(id, _) => TagIsShort(id, DELIMITED);
    case Message(id, body) =>
      TagIsShort(id, DELIMITED);
      WithinBound(body);
  }

  lemma {:induction false} WithinBound(fields: seq<Field>)
    requires BoundAll(fields) <= MAX_MESSAGE_LEN
    ensures FitsAll(fields) && |EncodeAll(fields)| <= BoundAll(fields)
    decreases fields, 0
  {
    if fields != [] {
      FieldWithinBound(fields[0]);
      WithinBound(fields[1..]);
    }
  }

  lemma BoundOne(f: Field)
    ensures BoundAll([f]) == Bound(f)
  {
    assert [f][1..] == [];
  }

  lemma BoundTwo(f: Field, g: Field)
    ensures BoundAll([f, g]) == Bound(f) + Bound(g)
  {
    assert [f, g][1..] == [g];
    BoundOne(g);
  }

  lemma BoundThree(f: Field, g: Field, h: Field)
    ensures BoundAll([f, g, h]) == Bound(f) + Bound(g) + Bound(h)
  {
    assert [f, g, h][1..] == [g, h];
    BoundTwo(g, h);
  }

  // ------------------------------------------------------------ runs of named events

  /** A name short enough for its packet whatever else the packet holds. */
  predicate Short(name: StaticStr) {
    |name.text| <= 1000
  }

  /** An event at clock value `raw` that has a name and nothing else. */
  function NamedEvent(raw: u64, name: StaticStr): Emission {
    Ordinary(raw, Event([Named(name)]))
  }

  lemma LoweredName(ts: Tables, name: StaticStr)
    requires TablesValid(ts)
    ensures LowerAll(ts, [Named(name)]).0 == ReferTo(ts, StringRef(EventNames, name)).0
    ensures BoundAll(LowerAll(ts, [Named(name)]).1) == TAG_LEN + MAX_VARINT_LEN
  {
    var item := Named(name);
    var ref := StringRef(EventNames, name);
    assert Refs(item) == [ref] && [ref][1..] == [] && [item][1..] == [];
    ReferAllKeeps(ts, Refs(item));
    var (ts', iids) := ReferAll(ts, Refs(item));
    assert ReferAll(ReferTo(ts, ref).0, []).0 == ReferTo(ts, ref).0;
    assert ts' == ReferTo(ts, ref).0;
    var field := VarintField(NAME_IID, iids[0]);
    assert LowerAll(ts, [item]).1 == [field] + [] == [field];
    BoundOne(field);
  }

  /** Before the packet nothing was pending, so at most the name is. */
  lemma OnlyTheName(ts: Tables, name: StaticStr)
    requires NothingPending(ts)
    ensures var ts' := ReferTo(ts, StringRef(EventNames, name)).0;
            && (forall space :: space != EventNames ==> ts'.Get(space).pending == [])
            && |ts'.names.pending| <= 1 && forall e :: e in ts'.names.pending ==> e.payload.text == name.text
  {
    var ref := StringRef(EventNames, name);
    assert ts.Get(EventNames).pending == [];
    PutOthers(ts, EventNames, Refer(ts.names, EventNames, ref.key, ref.payload).0);
  }

  lemma PendingBound(ts: Tables, name: StaticStr)
    requires PendingFits(ts) && Short(name)
    requires forall space :: space != EventNames ==> ts.Get(space).pending == []
    requires |ts.names.pending| <= 1 && forall e :: e in ts.names.pending ==> e.payload.text == name.text
    ensures BoundAll(InternedPart(ts)) <= 1100
  {
    forall space | space != EventNames
      ensures SpaceFields(ts, space) == []
    {
      assert ts.Get(space).pending == [];
    }
    NamesBound(ts, name);
    SpacesConcat(ts);
    if !NothingPending(ts) {
      BoundOne(InternedPart(ts)[0]);
    }
  }

  lemma SpacesConcat(ts: Tables)
    requires PendingFits(ts) && forall space :: space != EventNames ==> SpaceFields(ts, space) == []
    ensures PendingFields(ts) == SpaceFields(ts, EventNames)
  {
    assert WRITE_ORDER[1..] == [EventNames, AnnotationNames, AnnotationValues, SourceLocations];
    assert WRITE_ORDER[1..][1..] == [AnnotationNames, AnnotationValues, SourceLocations];
    EmptySpaces(ts, WRITE_ORDER[1..][1..]);
    assert SpacesFields(ts, WRITE_ORDER[1..]) == SpaceFields(ts, EventNames) + [];
    assert SpaceFields(ts, Categories) == [];
  }

  lemma {:induction false} EmptySpaces(ts: Tables, spaces: seq<Space>)
    requires PendingFits(ts) && forall space :: space in spaces ==> SpaceFields(ts, space) == []
    ensures SpacesFields(ts, spaces) == []
    decreases |spaces|
  {
    if spaces != [] {
      assert spaces[0] in spaces;
      EmptySpaces(ts, spaces[1..]);
    }
  }

  lemma NamesBound(ts: Tables, name: StaticStr)
    requires PendingFits(ts) && Short(name)
    requires |ts.names.pending| <= 1 && forall e :: e in ts.names.pending ==> e.payload.text == name.text
    ensures BoundAll(SpaceFields(ts, EventNames)) <= 1050
  {
    var entries := ts.Get(EventNames).pending;
    assert EntriesFit(EventNames, entries);
    if entries != [] {
      var e := entries[0];
      assert EntryFields(EventNames, entries) == [EntryField(EventNames, e)] + [];
      BoundOne(EntryField(EventNames, e));
      BoundTwo(VarintField(IID, e.iid), StringField(TEXT, e.payload.text));
    }
  }

  lemma NamedFits(p: Params, st: State, raw: u64, name: StaticStr)
    requires Coherent(st) && Short(name)
    ensures FitsAll(PacketFields(p, st, raw, Event([Named(name)])).1)
  {
    var (ts, field) := LowerBody(st.tables, Event([Named(name)]));
    var head := Header(p, SaturatingSub(raw, st.last));
    LoweredName(st.tables, name);
    OnlyTheName(st.tables, name);
    PendingDoesFit(ts);
    PendingBound(ts, name);
    BoundThree(head[0], head[1], head[2]);
    assert head == [head[0], head[1], head[2]];
    BoundOne(field);
    BoundAllAppend(head, [field]);
    BoundAllAppend(head + [field], InternedPart(ts));
    WithinBound(head + [field] + InternedPart(ts));
  }

  /** The source snapshots at most three clocks besides the sequence's own. */
  predicate Modest(opening: Opening) {
    |opening.otherClocks| <= 3
  }

  lemma OpeningFits(p: Params, raw: u64, opening: Opening)
    requires Modest(opening)
    ensures FitsAll(FirstPacket(p, raw, opening).1)
  {
    var head, snapshot := FirstHeader(p, opening), SnapshotField(SaturatingSub(raw, p.anchor), opening);
    BoundThree(head[0], head[1], head[2]);
    BoundThree(head[3], head[4], head[5]);
    assert head == [head[0], head[1], head[2]] + [head[3], head[4], head[5]];
    BoundAllAppend([head[0], head[1], head[2]], [head[3], head[4], head[5]]);
    DefaultsBound(p);
    SnapshotBound(SaturatingSub(raw, p.anchor), opening);
    BoundOne(snapshot);
    BoundAllAppend(head, [snapshot]);
    WithinBound(head + [snapshot]);
  }

  lemma DefaultsBound(p: Params)
    ensures Bound(DefaultsField(p)) <= 100
  {
    var fields := DefaultsField(p).body;
    BoundTwo(fields[0], fields[1]);
    assert fields == [fields[0], fields[1]];
    BoundOne(fields[1].body[0]);
    assert fields[1].body == [fields[1].body[0]];
  }

  lemma ClockBound(clock: Clock)
    ensures Bound(ClockField(clock)) <= 100
  {
    var fields := ClockField(clock).body;
    if clock.id == CUSTOM_CLOCK_ID {
      BoundThree(fields[0], fields[1], fields[2]);
      assert fields == [fields[0], fields[1], fields[2]];
    } else {
      BoundTwo(fields[0], fields[1]);
    }
  }

  lemma {:induction false} ClocksBound(clocks: seq<Clock>)
    ensures BoundAll(ClockFields(clocks)) <= 100 * |clocks|
    decreases |clocks|
  {
    if clocks != [] {
      ClockBound(clocks[0]);
      ClocksBound(clocks[1..]);
      assert ClockFields(clocks)[1..] == ClockFields(clocks[1..]);
    }
  }

  lemma SnapshotBound(relative: u64, opening: Opening)
    requires Modest(opening)
    ensures Bound(SnapshotField(relative, opening)) <= 500
  {
    var fields := SnapshotField(relative, opening).body;
    var clock := ClockField(Clock(CUSTOM_CLOCK_ID, relative));
    ClockBound(Clock(CUSTOM_CLOCK_ID, relative));
    ClocksBound(opening.otherClocks);
    BoundTwo(fields[0], clock);
    assert fields == [fields[0], clock] + ClockFields(opening.otherClocks);
    BoundAllAppend([fields[0], clock], ClockFields(opening.otherClocks));
  }

  lemma ThreadTrackFits(p: Params, st: State, raw: u64, body: Body)
    requires Coherent(st) && body.ThreadTrack? && |body.name| <= 1000
    ensures FitsAll(PacketFields(p, st, raw, body).1)
  {
    var head, field := Header(p, SaturatingSub(raw, st.last)), BodyField(body);
    BoundThree(head[0], head[1], head[2]);
    assert head == [head[0], head[1], head[2]];
    var thread := field.body[1];
    BoundTwo(field.body[0], thread);
    assert field.body == [field.body[0], thread];
    BoundThree(thread.body[0], thread.body[1], thread.body[2]);
    assert thread.body == [thread.body[0], thread.body[1], thread.body[2]];
    BoundOne(field);
    BoundAllAppend(head, [field]);
    WithinBound(head + [field]);
    assert head + [field] + [] == head + [field];
  }

  // ------------------------------------------------------------ two callbacks

  /** Two callbacks of a new thread, each writing one named event. */
  datatype TwoNames = TwoNames(opening: Opening, thread: Body, raws: (u64, u64), first: StaticStr, second: StaticStr)
  {
    predicate Plain() {
      Modest(opening) && thread.ThreadTrack? && |thread.name| <= 1000 && Short(first) && Short(second)
    }

    function Run(): seq<Callback> {
      [Callback(raws.0, opening, [thread], [Event([Named(first)])]),
       Callback(raws.1, opening, [thread], [Event([Named(second)])])]
    }

    function Packets(): seq<Emission> {
      [Initial(raws.0, opening), Ordinary(raws.0, thread), NamedEvent(raws.0, first), NamedEvent(raws.1, second)]
    }

    lemma Writes()
      ensures RunEmissions(false, Run()) == Packets() && Ordered(false, Packets())
    {
      var run := Run();
      assert Ordinaries(raws.0, [thread] + run[0].bodies) == [Ordinary(raws.0, thread), NamedEvent(raws.0, first)];
      assert Ordinaries(raws.1, run[1].bodies) == [NamedEvent(raws.1, second)];
      assert run[1..] == [run[1]] && run[1..][1..] == [];
      assert RunEmissions(true, run[1..]) == [NamedEvent(raws.1, second)] + [];
    }

    lemma AllPacketsFit(p: Params)
      requires Coherent(FRESH) && Plain() && Ordered(false, Packets())
      ensures AllFit(EmitAll(p, FRESH, Packets()).1)
    {
      var es := Packets();
      OpeningFits(p, raws.0, opening);
      var a := Emit(p, FRESH, es[0]).0;
      ThreadTrackFits(p, a, raws.0, thread);
      var b := Emit(p, a, es[1]).0;
      NamedFits(p, b, raws.0, first);
      var c := Emit(p, b, es[2]).0;
      NamedFits(p, c, raws.1, second);
      FitsCons(p, c, es[3..]);
      FitsCons(p, b, es[2..]);
      FitsCons(p, a, es[1..]);
      FitsCons(p, FRESH, es);
    }
  }

  lemma FitsCons(p: Params, st: State, es: seq<Emission>)
    requires Coherent(st) && Ordered(st.started, es) && es != []
    requires FitsAll(Emit(p, st, es[0]).1) && Ordered(true, es[1..])
    requires AllFit(EmitAll(p, Emit(p, st, es[0]).0, es[1..]).1)
    ensures AllFit(EmitAll(p, st, es).1)
  {
  }

  lemma {:induction false} SaidAt(p: Params, times: seq<Option<nat>>, es: seq<Emission>, i: nat)
    requires |times| == |es| && i < |es|
    ensures SaidRun(p, times, es)[i].content == SaidEmission(p, es[i])
    decreases i
  {
    if i > 0 {
      SaidAt(p, times[1..], es[1..], i - 1);
      assert SaidRun(p, times, es)[i] == SaidRun(p, times[1..], es[1..])[i - 1];
    }
  }

  lemma NameSaid(p: Params, name: StaticStr)
    ensures SaidBody(p, Event([Named(name)])) == EventContent(p.threadTrack, [ReadName(name.text)])
  {
    assert [Named(name)][1..] == [] && EventTrack(p, []) == p.threadTrack;
    assert SaidAll([Named(name)]) == Said(Named(name)) + [];
  }

  lemma NameShown(p: Params, ts: Tables, name: StaticStr)
    requires BodyKnown(ts, Event([Named(name)]))
    ensures name.address in ts.names.entries
    ensures Shown(p, ts, Event([Named(name)]))
         == EventContent(p.threadTrack, [ReadName(ts.names.entries[name.address].payload.text)])
  {
    var item := Named(name);
    assert ItemKnown(ts, item) && Refs(item)[0] == StringRef(EventNames, name);
    assert [item][1..] == [] && EventTrack(p, []) == p.threadTrack;
    assert SettledAll(ts, [item]) == Settled(ts, item) + [];
  }

  lemma TrackLeavesTables(p: Params, st: State, raw: u64, body: Body)
    requires Coherent(st) && !body.Event?
    ensures PacketFields(p, st, raw, body).0.tables == FlushAll(st.tables)
  {
  }

  lemma NameIsDefined(p: Params, st: State, raw: u64, name: StaticStr)
    requires Coherent(st) && name.address !in st.tables.names.entries
    ensures var names := PacketFields(p, st, raw, Event([Named(name)])).0.tables.names;
            name.address in names.entries && names.entries[name.address].payload.text == name.text
  {
    LoweredName(st.tables, name);
    var ref := StringRef(EventNames, name);
    ReferExtends(st.tables.names, EventNames, ref.key, ref.payload);
  }

  lemma EmitThree(p: Params, es: seq<Emission>) returns (a: State, b: State, c: State)
    requires Coherent(FRESH) && Ordered(false, es) && |es| == 4
    ensures Coherent(a) && Coherent(b) && Coherent(c) && a.started && b.started && c.started
    ensures a == Emit(p, FRESH, es[0]).0 && b == Emit(p, a, es[1]).0 && c == Emit(p, b, es[2]).0
    ensures Ordered(true, es[3..]) && EmitAll(p, FRESH, es).0 == EmitAll(p, c, es[3..]).0
  {
    a := Emit(p, FRESH, es[0]).0;
    b := Emit(p, a, es[1]).0;
    c := Emit(p, b, es[2]).0;
    assert es[1..][1..] == es[2..] && es[2..][1..] == es[3..];
    assert EmitAll(p, b, es[2..]).0 == EmitAll(p, c, es[3..]).0;
    assert EmitAll(p, a, es[1..]).0 == EmitAll(p, b, es[2..]).0;
  }

  /** The second event's address was first used with the first event's text. */
  lemma FirstTextStays(p: Params, w: TwoNames)
    requires Coherent(FRESH) && Ordered(false, w.Packets()) && w.thread.ThreadTrack?
    ensures var names := EmitAll(p, FRESH, w.Packets()).0.tables.names;
            && w.first.address in names.entries
            && names.entries[w.first.address].payload.text == w.first.text
  {
    var a, b, c := EmitThree(p, w.Packets());
    TrackLeavesTables(p, a, w.raws.0, w.thread);
    NameIsDefined(p, b, w.raws.0, w.first);
    TablesGrow(p, c, w.Packets()[3..]);
    assert Extends(c.tables.Get(EventNames), EmitAll(p, c, w.Packets()[3..]).0.tables.Get(EventNames));
  }

  /**
   Two strings at one address, as a string and its prefix have: the run is replayed
   without an error, and its second event under the first one's name.
   */
  lemma SameAddressSameName(p: Params, w: TwoNames)
    requires Coherent(FRESH) && w.Plain() && w.first.address == w.second.address && w.first.text != w.second.text
    ensures var es := RunEmissions(false, w.Run());
            && Ordered(false, es) && AllFit(EmitAll(p, FRESH, es).1)
            && var replayed := Replayed(p, es);
               var said := SaidRun(p, Times(p, FRESH, es), es);
               && replayed.Some? && |replayed.value| == |said| == 4
               && replayed.value[3].content == EventContent(p.threadTrack, [ReadName(w.first.text)])
               && said[3].content == EventContent(p.threadTrack, [ReadName(w.second.text)])
               && replayed.value != said
  {
    w.Writes();
    var es := w.Packets();
    w.AllPacketsFit(p);
    var final := EmitAll(p, FRESH, es).0.tables;
    AllExtendReflexive(final);
    var _ := RunReplays(p, NEW_READER, FRESH, es, final);
    var times := Times(p, FRESH, es);
    SeenAt(p, final, times, es, 3);
    SaidAt(p, times, es, 3);
    assert es[3] in es && BodyKnown(final, es[3].body);
    NameShown(p, final, w.second);
    NameSaid(p, w.second);
    FirstTextStays(p, w);
  }

  /** "load" and its prefix "lo", at one address. */
  const LOAD: TwoNames := TwoNames(Opening(0, 1, 1, []), ThreadTrack(1, 1, 1, []), (1, 2),
                                   StaticStr(1, [108, 111, 97, 100]), StaticStr(1, [108, 111]))

  lemma PrefixSharesAddress(p: Params)
    requires Coherent(FRESH)
    ensures LOAD.second.text < LOAD.first.text && !AddressesAgree(RunEmissions(false, LOAD.Run()))
    ensures var es := RunEmissions(false, LOAD.Run());
            && Ordered(false, es) && AllFit(EmitAll(p, FRESH, es).1)
            && var replayed := Replayed(p, es);
               && replayed.Some? && |replayed.value| == 4
               && replayed.value[3].content == EventContent(p.threadTrack, [ReadName([108, 111, 97, 100])])
               && replayed.value != SaidRun(p, Times(p, FRESH, es), es)
  {
    assert LOAD.second.text == LOAD.first.text[..2];
    SameAddressSameName(p, LOAD);
    NamesAreExact(p, RunEmissions(false, LOAD.Run()));
  }

  /** A second callback whose clock reads less than the first's is replayed at the first's time. */
  lemma ClockStepsBack(p: Params, w: TwoNames)
    requires Coherent(FRESH) && w.Plain() && p.anchor <= w.raws.1 < w.raws.0
    ensures var es := RunEmissions(false, w.Run());
            && Ordered(false, es) && AllFit(EmitAll(p, FRESH, es).1) && !NeverBack(p.anchor, Raws(es))
            && var replayed := Replayed(p, es);
               && replayed.Some? && |replayed.value| == |es| == 4 && es[3].raw == w.raws.1
               && replayed.value[3].time == Some(w.raws.0 - p.anchor)
               && w.raws.0 - p.anchor > es[3].raw - p.anchor
  {
    w.Writes();
    w.AllPacketsFit(p);
    var es := w.Packets();
    BackwardTime(p, w);
    var _ := ReplayCarriesTimes(p, es);
  }

  lemma BackwardTime(p: Params, w: TwoNames)
    requires Coherent(FRESH) && Ordered(false, w.Packets()) && p.anchor <= w.raws.1 < w.raws.0
    ensures !NeverBack(p.anchor, Raws(w.Packets()))
    ensures Times(p, FRESH, w.Packets())[3] == Some(w.raws.0 - p.anchor)
  {
    var raws := Raws(w.Packets());
    TimeRunsAhead(p, w.Packets(), 3);
    assert raws[2] > raws[3];
    assert SteppedBack(raws, 1) == 0;
    assert SteppedBack(raws, 2) == 0;
  }
}
