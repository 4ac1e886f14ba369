/**
 Exactly when a replayed run says what its callbacks said: names need "the same address
 always holds the same string", times need a clock that never steps back.
 */
module Fidelity {
  import opened Prelude
  import opened Wire
  import opened Interning
  import opened Events
  import opened InternedData
  import opened PacketFormats
  import opened Packets
  import opened Sequences

  // ------------------------------------------------------------ names

  function ItemRefs(items: seq<Item>): set<Ref> {
    set item, ref | item in items && ref in Refs(item) :: ref
  }

  function BodyRefs(body: Body): set<Ref> {
    if body.Event? then ItemRefs(body.items) else {}
  }

  /** Every string and source location the run interns. */
  function RunRefs(es: seq<Emission>): set<Ref> {
    set e, ref | e in es && e.Ordinary? && ref in BodyRefs(e.body) :: ref
  }

  /** The same address never stands for two texts. */
  predicate Consistent(refs: set<Ref>) {
    forall a, b :: a in refs && b in refs && a.space == b.space && a.key == b.key ==> a.payload == b.payload
  }

  /** Every definition in the tables was asked for by one of the references. */
  ghost predicate Sourced(ts: Tables, refs: set<Ref>) {
    forall space, k :: k in ts.Get(space).entries ==> Ref(space, k, ts.Get(space).entries[k].payload) in refs
  }

  lemma ReferToSourced(ts: Tables, ref: Ref, refs: set<Ref>)
    requires Sourced(ts, refs) && ref in refs
    ensures Sourced(ReferTo(ts, ref).0, refs)
  {
    var t := Refer(ts.Get(ref.space), ref.space, ref.key, ref.payload).0;
    PutOthers(ts, ref.space, t);
    forall space, k | k in ReferTo(ts, ref).0.Get(space).entries
      ensures Ref(space, k, ReferTo(ts, ref).0.Get(space).entries[k].payload) in refs
    {
      if k in ts.Get(space).entries {
        assert Ref(space, k, ts.Get(space).entries[k].payload) in refs;
      } else {
        assert space == ref.space && k == ref.key;
      }
    }
  }

  lemma {:induction false} ReferAllSourced(ts: Tables, list: seq<Ref>, refs: set<Ref>)
    requires Sourced(ts, refs) && forall ref :: ref in list ==> ref in refs
    ensures Sourced(ReferAll(ts, list).0, refs)
    decreases |list|
  {
    if list != [] {
      ReferToSourced(ts, list[0], refs);
      ReferAllSourced(ReferTo(ts, list[0]).0, list[1..], refs);
    }
  }

  lemma {:induction false} LowerAllSourced(ts: Tables, items: seq<Item>, refs: set<Ref>)
    requires TablesValid(ts) && Sourced(ts, refs)
    requires forall item, ref :: item in items && ref in Refs(item) ==> ref in refs
    ensures Sourced(LowerAll(ts, items).0, refs)
    decreases |items|
  {
    if items != [] {
      assert items[0] in items;
      ReferAllSourced(ts, Refs(items[0]), refs);
      ReferAllKeeps(ts, Refs(items[0]));
      LowerAllSourced(Lower(ts, items[0]).0, items[1..], refs);
    }
  }

  lemma FlushSourced(ts: Tables, refs: set<Ref>)
    requires Sourced(ts, refs)
    ensures Sourced(FlushAll(ts), refs)
  {
    FlushAllOthers(ts);
    forall space, k | k in FlushAll(ts).Get(space).entries
      ensures Ref(space, k, FlushAll(ts).Get(space).entries[k].payload) in refs
    {
      assert Ref(space, k, ts.Get(space).entries[k].payload) in refs;
    }
  }

  lemma EmitSourced(p: Params, st: State, e: Emission, refs: set<Ref>)
    requires Coherent(st) && (e.Initial? || st.started) && Sourced(st.tables, refs)
    requires e.Ordinary? ==> BodyRefs(e.body) <= refs
    ensures Sourced(Emit(p, st, e).0.tables, refs)
  {
    match e
    case Initial(_, _) =>
      EmptySourced(refs);
    case Ordinary(_, body) =>
      if body.Event? {
        forall item, ref | item in body.items && ref in Refs(item)
          ensures ref in refs
        {
          assert ref in ItemRefs(body.items);
        }
        LowerAllSourced(st.tables, body.items, refs);
      }
      FlushSourced(LowerBody(st.tables, body).0, refs);
  }

  lemma EmptySourced(refs: set<Ref>)
    ensures Sourced(EMPTY_TABLES, refs)
  {
    assert forall space :: EMPTY_TABLES.Get(space) == EmptyTable(space);
  }

  lemma {:induction false} EmitAllSourced(p: Params, st: State, es: seq<Emission>, refs: set<Ref>)
    requires Coherent(st) && Ordered(st.started, es) && Sourced(st.tables, refs)
    requires forall e :: e in es && e.Ordinary? ==> BodyRefs(e.body) <= refs
    ensures Sourced(EmitAll(p, st, es).0.tables, refs)
    decreases |es|
  {
    if es != [] {
      OrderedTail(st.started, es);
      assert es[0] in es;
      EmitSourced(p, st, es[0], refs);
      EmitAllSourced(p, Emit(p, st, es[0]).0, es[1..], refs);
    }
  }

  function OwnPayloads(refs: seq<Ref>): seq<Payload> {
    seq(|refs|, i requires 0 <= i < |refs| => refs[i].payload)
  }

  /** What an item says in its own words. */
  function Said(item: Item): seq<Reading> {
    match item
    case Kind(kind) => [ReadKind(kind)]
    case OnTrack(uuid) => [ReadTrack(uuid)]
    case Named(name) => [ReadName(name.text)]
    case NamedInline(text) => [ReadName(text)]
    case NamedFormatted(text) => [ReadName(text)]
    case InCategory(target) => [ReadCategory(target.text)]
    case AtLocation(_, file, line) => [ReadLocation(file, line)]
    case AtLevel(level) => [ReadAnnotation(Ascii("level"), StringValue(Ascii(LevelWord(level))))]
    case Annotated(name, FormattedValue(text)) => [ReadAnnotation(name.text, StringValue(text))]
    case Annotated(name, value) => [ReadAnnotation(name.text, value)]
    case FlowStart(flow) => [ReadFlowStart(flow)]
    case FlowTerminate(flow) => [ReadFlowTerminate(flow)]
    case CounterI64(track, bits) => [ReadCounterTrack(track), ReadCounterValue(bits)]
    case CounterF64(track, bits) => [ReadDoubleCounterTrack(track), ReadDoubleCounterValue(bits)]
  }

  /** That is what it reads as when its references stand for its own strings. */
  lemma SaidIsOwn(item: Item)
    ensures Said(item) == Readings(item, OwnPayloads(Refs(item)))
  {
    if item.AtLevel? {
      LevelReads(item.level);
      assert OwnPayloads(Refs(item)) == [LevelRefs(item.level)[0].payload, LevelRefs(item.level)[1].payload];
    }
  }

  function SaidAll(items: seq<Item>): seq<Reading> {
    if items == [] then [] else Said(items[0]) + SaidAll(items[1..])
  }

  function SaidBody(p: Params, body: Body): Content {
    if body.Event? then EventContent(EventTrack(p, body.items), SaidAll(body.items)) else TrackContent(Described(body))
  }

  function SaidEmission(p: Params, e: Emission): Content {
    if e.Initial? then Opened(p, e.raw, e.opening) else SaidBody(p, e.body)
  }

  function SaidRun(p: Params, times: seq<Option<nat>>, es: seq<Emission>): (r: seq<Seen>)
    requires |times| == |es|
    ensures |r| == |es|
  {
    if es == [] then []
    else [Seen(p.sequenceId, times[0], SaidEmission(p, es[0]))] + SaidRun(p, times[1..], es[1..])
  }

  /** The reference's key was first used with the reference's own text. */
  predicate FaithfulRef(ts: Tables, ref: Ref) {
    && ref.key in ts.Get(ref.space).entries
    && ts.Get(ref.space).entries[ref.key].payload == ref.payload
  }

  /** All recorded payloads are of their space's kind. */
  predicate RecordedFit(ts: Tables) {
    forall space, k :: k in ts.Get(space).entries ==> PayloadFits(space, ts.Get(space).entries[k].payload)
  }

  lemma ItemFaithful(ts: Tables, item: Item)
    requires ItemKnown(ts, item) && RecordedFit(ts)
    ensures |Settled(ts, item)| == |Said(item)|
    ensures Settled(ts, item) == Said(item) <==> forall ref :: ref in Refs(item) ==> FaithfulRef(ts, ref)
  {
    var refs := Refs(item);
    SaidIsOwn(item);
    var firsts, owns := FirstPayloads(ts, refs), OwnPayloads(refs);
    if forall ref :: ref in refs ==> FaithfulRef(ts, ref) {
      forall i | 0 <= i < |refs|
        ensures firsts[i] == owns[i]
      {
        assert FaithfulRef(ts, refs[i]);
      }
      assert firsts == owns;
    }
    if Settled(ts, item) == Said(item) {
      forall i | 0 <= i < |refs|
        ensures FaithfulRef(ts, refs[i])
      {
        assert PayloadFits(refs[i].space, firsts[i]) && RefFits(refs[i]);
        SameReadings(item, firsts, owns, i);
      }
    }
  }

  lemma SameReadings(item: Item, a: seq<Payload>, b: seq<Payload>, i: nat)
    requires |a| == |b| == |Refs(item)| && i < |a| && Readings(item, a) == Readings(item, b)
    requires PayloadFits(Refs(item)[i].space, a[i]) && PayloadFits(Refs(item)[i].space, b[i])
    ensures a[i] == b[i]
  {
    assert Readings(item, a)[0] == Readings(item, b)[0];
  }

  lemma SplitEqual<T>(a: seq<T>, b: seq<T>, c: seq<T>, d: seq<T>)
    requires |a| == |c|
    ensures a + b == c + d <==> a == c && b == d
  {
    if a + b == c + d {
      assert a == (a + b)[..|a|] && c == (c + d)[..|a|];
      assert b == (a + b)[|a|..] && d == (c + d)[|a|..];
    }
  }

  lemma {:induction false} ItemsFaithful(ts: Tables, items: seq<Item>)
    requires ItemsKnown(ts, items) && RecordedFit(ts)
    ensures SettledAll(ts, items) == SaidAll(items) <==> forall ref :: ref in ItemRefs(items) ==> FaithfulRef(ts, ref)
    decreases |items|
  {
    if items != [] {
      var item, others := items[0], items[1..];
      ItemFaithful(ts, item);
      ItemsFaithful(ts, others);
      SplitEqual(Settled(ts, item), SettledAll(ts, others), Said(item), SaidAll(others));
      ItemRefsSplit(items);
    }
  }

  lemma ItemRefsSplit(items: seq<Item>)
    requires items != []
    ensures forall ref :: ref in ItemRefs(items) <==> ref in Refs(items[0]) || ref in ItemRefs(items[1..])
  {
  }

  lemma RunRefsSplit(es: seq<Emission>)
    requires es != []
    ensures forall ref :: ref in RunRefs(es)
              <==> (es[0].Ordinary? && ref in BodyRefs(es[0].body)) || ref in RunRefs(es[1..])
  {
  }

  lemma {:induction false} RunFaithful(p: Params, ts: Tables, times: seq<Option<nat>>, es: seq<Emission>)
    requires EmissionsKnown(ts, es) && RecordedFit(ts) && |times| == |es|
    ensures SeenAll(p, ts, times, es) == SaidRun(p, times, es) <==> forall ref :: ref in RunRefs(es) ==>
        FaithfulRef(ts, ref)
    decreases |es|
  {
    if es != [] {
      var e := es[0];
      assert e in es;
      RunFaithful(p, ts, times[1..], es[1..]);
      RunRefsSplit(es);
      if e.Ordinary? && e.body.Event? {
        ItemsFaithful(ts, e.body.items);
      }
      SplitEqual([Seen(p.sequenceId, times[0], ShownEmission(p, ts, e))], SeenAll(p, ts, times[1..], es[1..]),
                 [Seen(p.sequenceId, times[0], SaidEmission(p, e))], SaidRun(p, times[1..], es[1..]));
    }
  }

  /** Sourced tables hold every reference's own text exactly when the references agree. */
  lemma FaithfulIffConsistent(ts: Tables, refs: set<Ref>)
    requires Sourced(ts, refs) && forall ref :: ref in refs ==> ref.key in ts.Get(ref.space).entries
    ensures (forall ref :: ref in refs ==> FaithfulRef(ts, ref)) <==> Consistent(refs)
  {
    if Consistent(refs) {
      forall ref | ref in refs
        ensures FaithfulRef(ts, ref)
      {
        assert Ref(ref.space, ref.key, ts.Get(ref.space).entries[ref.key].payload) in refs;
      }
    }
    if forall ref :: ref in refs ==> FaithfulRef(ts, ref) {
      forall a, b | a in refs && b in refs && a.space == b.space && a.key == b.key
        ensures a.payload == b.payload
      {
        assert FaithfulRef(ts, a) && FaithfulRef(ts, b);
      }
    }
  }

  lemma RefsAreKnown(ts: Tables, es: seq<Emission>)
    requires EmissionsKnown(ts, es)
    ensures forall ref :: ref in RunRefs(es) ==> ref.key in ts.Get(ref.space).entries && RefFits(ref)
  {
    forall ref | ref in RunRefs(es)
      ensures ref.key in ts.Get(ref.space).entries && RefFits(ref)
    {
      var e :| e in es && e.Ordinary? && ref in BodyRefs(e.body);
      assert BodyKnown(ts, e.body);
      var item :| item in e.body.items && ref in Refs(item);
      assert ItemKnown(ts, item);
    }
  }

  /** Two items that intern in one space do so by address: at the same address they must say the same. */
  predicate Agree(x: Item, y: Item) {
    && (x.Named? && y.Named? && x.name.address == y.name.address ==> x.name.text == y.name.text)
    && (x.InCategory? && y.InCategory? && x.target.address == y.target.address ==> x.target.text == y.target.text)
    && (x.Annotated? && y.Annotated? && x.name.address == y.name.address ==> x.name.text == y.name.text)
    && (x.AtLocation? && y.AtLocation? && x.callsite == y.callsite ==> x.file == y.file && x.line == y.line)
  }

  function RunItems(es: seq<Emission>): set<Item> {
    set e, item | e in es && e.Ordinary? && e.body.Event? && item in e.body.items :: item
  }

  predicate AddressesAgree(es: seq<Emission>) {
    forall x, y :: x in RunItems(es) && y in RunItems(es) ==> Agree(x, y)
  }

  lemma RefsOfItems(es: seq<Emission>)
    ensures forall ref :: ref in RunRefs(es) <==> exists item :: item in RunItems(es) && ref in Refs(item)
  {
    forall ref | ref in RunRefs(es)
      ensures exists item :: item in RunItems(es) && ref in Refs(item)
    {
      var e :| e in es && e.Ordinary? && ref in BodyRefs(e.body);
      var item :| item in e.body.items && ref in Refs(item);
      assert item in RunItems(es);
    }
    forall item, ref | item in RunItems(es) && ref in Refs(item)
      ensures ref in RunRefs(es)
    {
      var e :| e in es && e.Ordinary? && e.body.Event? && item in e.body.items;
      assert ref in ItemRefs(e.body.items) && ref in BodyRefs(e.body);
    }
  }

  lemma AgreeOnRefs(x: Item, y: Item, a: Ref, b: Ref)
    requires Agree(x, y) && a in Refs(x) && b in Refs(y) && a.space == b.space && a.key == b.key
    ensures a.payload == b.payload
  {
  }

  lemma ConsistentIffAgree(es: seq<Emission>)
    ensures Consistent(RunRefs(es)) <==> AddressesAgree(es)
  {
    RefsOfItems(es);
    if AddressesAgree(es) {
      forall a, b | a in RunRefs(es) && b in RunRefs(es) && a.space == b.space && a.key == b.key
        ensures a.payload == b.payload
      {
        var x :| x in RunItems(es) && a in Refs(x);
        var y :| y in RunItems(es) && b in Refs(y);
        AgreeOnRefs(x, y, a, b);
      }
    }
    if Consistent(RunRefs(es)) {
      forall x, y | x in RunItems(es) && y in RunItems(es)
        ensures Agree(x, y)
      {
        RefsAgree(RunRefs(es), x, y);
      }
    }
  }

  lemma RefsAgree(refs: set<Ref>, x: Item, y: Item)
    requires Consistent(refs) && forall ref :: ref in Refs(x) || ref in Refs(y) ==> ref in refs
    ensures Agree(x, y)
  {
    if |Refs(x)| > 0 && |Refs(y)| > 0 {
      assert Refs(x)[0] in refs && Refs(y)[0] in refs;
    }
  }

  /** What a new reader sees of a whole run. */
  ghost function Replayed(p: Params, es: seq<Emission>): Option<seq<Seen>>
    requires Ordered(false, es) && Coherent(FRESH)
  {
    match Replay(NEW_READER, Payloads(EmitAll(p, FRESH, es).1))
    case None => None
    case Some((_, seen)) => Some(seen)
  }

  /**
   Names come back as they went in exactly when no address of the run has two texts: the
   interner looks at addresses only. Everything else about the run - that it can be
   replayed at all - holds either way.
   */
  lemma NamesAreExact(p: Params, es: seq<Emission>)
    requires Ordered(false, es) && Coherent(FRESH) && AllFit(EmitAll(p, FRESH, es).1)
    ensures Replayed(p, es).Some?
    ensures Replayed(p, es).value == SaidRun(p, Times(p, FRESH, es), es) <==> AddressesAgree(es)
  {
    var final := EmitAll(p, FRESH, es).0.tables;
    var refs := RunRefs(es);
    AllExtendReflexive(final);
    var _ := RunReplays(p, NEW_READER, FRESH, es, final);
    EmptySourced(refs);
    forall e | e in es && e.Ordinary?
      ensures BodyRefs(e.body) <= refs
    {
      assert forall ref :: ref in BodyRefs(e.body) ==> ref in refs;
    }
    EmitAllSourced(p, FRESH, es, refs);
    RefsAreKnown(final, es);
    RecordedFitSourced(final, refs);
    RunFaithful(p, final, Times(p, FRESH, es), es);
    FaithfulIffConsistent(final, refs);
    ConsistentIffAgree(es);
  }

  lemma RecordedFitSourced(ts: Tables, refs: set<Ref>)
    requires Sourced(ts, refs) && forall ref :: ref in refs ==> RefFits(ref)
    ensures RecordedFit(ts)
  {
    forall space, k | k in ts.Get(space).entries
      ensures PayloadFits(space, ts.Get(space).entries[k].payload)
    {
      assert RefFits(Ref(space, k, ts.Get(space).entries[k].payload));
    }
  }

  lemma AllExtendReflexive(ts: Tables)
    ensures AllExtend(ts, ts)
  {
  }

  // ------------------------------------------------------------ times

  function Raws(es: seq<Emission>): (raws: seq<u64>)
    ensures |raws| == |es|
  {
    seq(|es|, i requires 0 <= i < |es| => es[i].raw)
  }

  /** The time the reader has reached after packet `i`. */
  function Decoded(anchor: u64, raws: seq<u64>, i: nat): nat
    requires i < |raws|
  {
    if i == 0 then SaturatingSub(raws[0], anchor)
    else Decoded(anchor, raws, i - 1) + SaturatingSub(raws[i], raws[i - 1])
  }

  /** How far the clock has stepped back, in all, up to packet `i`. */
  function SteppedBack(raws: seq<u64>, i: nat): nat
    requires i < |raws|
  {
    if i == 0 then 0 else SteppedBack(raws, i - 1) + SaturatingSub(raws[i - 1], raws[i])
  }

  predicate NeverBack(anchor: u64, raws: seq<u64>) {
    && (raws != [] ==> anchor <= raws[0])
    && forall i :: 0 < i < |raws| ==> raws[i - 1] <= raws[i]
  }

  lemma {:induction false} DecodedClosedForm(anchor: u64, raws: seq<u64>, i: nat)
    requires i < |raws|
    ensures Decoded(anchor, raws, i)
         == SaturatingSub(raws[0], anchor) + (raws[i] as int - raws[0]) + SteppedBack(raws, i)
  {
    if i > 0 {
      DecodedClosedForm(anchor, raws, i - 1);
    }
  }

  lemma {:induction false} NoStepsBack(raws: seq<u64>, i: nat)
    requires i < |raws|
    ensures SteppedBack(raws, i) == 0 <==> forall j :: 0 < j <= i ==> raws[j - 1] <= raws[j]
  {
    if i > 0 {
      NoStepsBack(raws, i - 1);
    }
  }

  lemma DecodedExactly(anchor: u64, raws: seq<u64>)
    ensures (forall i :: 0 <= i < |raws| ==> Decoded(anchor, raws, i) == raws[i] - anchor) <==> NeverBack(anchor, raws)
  {
    if raws != [] {
      forall i | 0 <= i < |raws|
        ensures anchor <= raws[0] ==> (Decoded(anchor, raws, i) == raws[i] - anchor <==> SteppedBack(raws, i) == 0)
        ensures SteppedBack(raws, i) == 0 <==> forall j :: 0 < j <= i ==> raws[j - 1] <= raws[j]
      {
        DecodedClosedForm(anchor, raws, i);
        NoStepsBack(raws, i);
      }
      assert Decoded(anchor, raws, 0) == SaturatingSub(raws[0], anchor);
      if anchor <= raws[0] && forall i :: 0 <= i < |raws| ==> Decoded(anchor, raws, i) == raws[i] - anchor {
        assert SteppedBack(raws, |raws| - 1) == 0;
      }
    }
  }

  /** The first time of a run, and the rest of it. */
  lemma TimesStep(p: Params, st: State, es: seq<Emission>)
    requires Coherent(st) && st.started && Ordered(true, es) && es != []
    ensures var st' := Emit(p, st, es[0]).0;
            && Coherent(st') && st'.started && st'.last == es[0].raw && Ordered(true, es[1..])
            && st'.decoded == st.decoded + SaturatingSub(es[0].raw, st.last)
            && Times(p, st, es) == [Some(st'.decoded)] + Times(p, st', es[1..])
  {
    OrderedTail(true, es);
  }

  /** The clock values from `from` on are the emissions'. */
  predicate ClockOf(es: seq<Emission>, raws: seq<u64>, from: nat) {
    from + |es| == |raws| && forall j: nat :: j < |es| ==> raws[from + j] == es[j].raw
  }

  lemma ClockShift(es: seq<Emission>, raws: seq<u64>, from: nat)
    requires es != [] && ClockOf(es, raws, from)
    ensures ClockOf(es[1..], raws, from + 1) && raws[from] == es[0].raw
  {
    assert raws[from + 0] == es[0].raw;
    forall j: nat | j < |es[1..]|
      ensures raws[from + 1 + j] == es[1..][j].raw
    {
      assert raws[from + (j + 1)] == es[j + 1].raw;
    }
  }

  /** One packet on: its time, and the rest of the run from the state after it. */
  lemma TimesShift(p: Params, st: State, es: seq<Emission>) returns (st': State)
    requires Coherent(st) && st.started && Ordered(true, es) && es != []
    ensures Coherent(st') && st'.started && Ordered(true, es[1..])
    ensures st'.last == es[0].raw && st'.decoded == st.decoded + SaturatingSub(es[0].raw, st.last)
    ensures Times(p, st, es) == [Some(st'.decoded)] + Times(p, st', es[1..])
  {
    TimesStep(p, st, es);
    st' := Emit(p, st, es[0]).0;
  }

  /** The times of packets after the first depend on the clock values alone. */
  function ClockTimes(last: u64, decoded: nat, es: seq<Emission>): (times: seq<Option<nat>>)
    ensures |times| == |es|
    decreases |es|
  {
    if es == [] then []
    else
      var now := decoded + SaturatingSub(es[0].raw, last);
      [Some(now)] + ClockTimes(es[0].raw, now, es[1..])
  }

  lemma {:induction false} TimesAreClockTimes(p: Params, st: State, es: seq<Emission>)
    requires Coherent(st) && st.started && Ordered(true, es)
    ensures Times(p, st, es) == ClockTimes(st.last, st.decoded, es)
    decreases |es|
  {
    if es != [] {
      var st' := TimesShift(p, st, es);
      TimesAreClockTimes(p, st', es[1..]);
      ClockTimesShift(st.last, st.decoded, es);
    }
  }

  lemma ClockTimesShift(last: u64, decoded: nat, es: seq<Emission>)
    requires es != []
    ensures var now := decoded + SaturatingSub(es[0].raw, last);
            ClockTimes(last, decoded, es) == [Some(now)] + ClockTimes(es[0].raw, now, es[1..])
  {
  }

  lemma {:induction false} TimesFrom(anchor: u64, es: seq<Emission>, raws: seq<u64>, at: nat, i: nat)
    requires at < |raws| && ClockOf(es, raws, at + 1) && i < |es|
    ensures ClockTimes(raws[at], Decoded(anchor, raws, at), es)[i] == Some(Decoded(anchor, raws, at + 1 + i))
    decreases i
  {
    ClockShift(es, raws, at + 1);
    if i > 0 {
      TimesFrom(anchor, es[1..], raws, at + 1, i - 1);
    }
  }

  /** A whole run's packets carry the decoded times; the first only defines the clock. */
  lemma RunTimes(p: Params, es: seq<Emission>)
    requires Ordered(false, es) && Coherent(FRESH)
    ensures var times := Times(p, FRESH, es);
            && (es != [] ==> times[0] == None)
            && forall i :: 0 < i < |es| ==> times[i] == Some(Decoded(p.anchor, Raws(es), i))
  {
    if es != [] {
      OrderedTail(false, es);
      var st' := Emit(p, FRESH, es[0]).0;
      var raws, times := Raws(es), Times(p, FRESH, es);
      assert times == [None] + Times(p, st', es[1..]);
      assert ClockOf(es[1..], raws, 1);
      TimesAreClockTimes(p, st', es[1..]);
      forall i | 0 < i < |es|
        ensures times[i] == Some(Decoded(p.anchor, raws, i))
      {
        TimesFrom(p.anchor, es[1..], raws, 0, i - 1);
      }
    }
  }

  lemma {:induction false} TrackByItems(p: Params, items: seq<Item>, j: nat)
    requires j <= |items| && forall k: nat :: k < j ==> !items[k].OnTrack?
    requires j < |items| ==> items[j].OnTrack?
    ensures EventTrack(p, items) == if j < |items| then items[j].uuid else p.threadTrack
    decreases j
  {
    if j > 0 {
      TrackByItems(p, items[1..], j - 1);
    }
  }

  /**
   In any run, every packet but the first is replayed with a time on the sequence's own
   clock, and every event on the track it first names, `j` being where; if it names none
   (`j` is the number of its items), on the thread's track that the first packet announced.
   */
  lemma EventsAreOnTheirTracks(p: Params, es: seq<Emission>, i: nat, j: nat)
    requires Ordered(false, es) && Coherent(FRESH) && AllFit(EmitAll(p, FRESH, es).1)
    requires i < |es| && es[i].Ordinary? && es[i].body.Event?
    requires j <= |es[i].body.items| && forall k: nat :: k < j ==> !es[i].body.items[k].OnTrack?
    requires j < |es[i].body.items| ==> es[i].body.items[j].OnTrack?
    ensures var replayed := Replayed(p, es);
            && replayed.Some? && |replayed.value| == |es|
            && replayed.value[i].time.Some? && replayed.value[i].content.EventContent?
            && replayed.value[i].content.track
            == if j < |es[i].body.items| then es[i].body.items[j].uuid else p.threadTrack
  {
    var final, times := EmitAll(p, FRESH, es).0.tables, Times(p, FRESH, es);
    AllExtendReflexive(final);
    var _ := RunReplays(p, NEW_READER, FRESH, es, final);
    SeenAt(p, final, times, es, i);
    RunTimes(p, es);
    TrackByItems(p, es[i].body.items, j);
  }

  /** What a reader of the whole run sees carries the run's times, packet by packet. */
  lemma ReplayCarriesTimes(p: Params, es: seq<Emission>) returns (seen: seq<Seen>)
    requires Ordered(false, es) && Coherent(FRESH) && AllFit(EmitAll(p, FRESH, es).1)
    ensures Replayed(p, es) == Some(seen) && |seen| == |es|
    ensures forall i :: 0 <= i < |es| ==> seen[i].time == Times(p, FRESH, es)[i]
  {
    var final := EmitAll(p, FRESH, es).0.tables;
    AllExtendReflexive(final);
    var _ := RunReplays(p, NEW_READER, FRESH, es, final);
    seen := SeenAll(p, final, Times(p, FRESH, es), es);
    forall i | 0 <= i < |es|
      ensures seen[i].time == Times(p, FRESH, es)[i]
    {
      SeenAt(p, final, Times(p, FRESH, es), es, i);
    }
  }

  lemma {:induction false} SeenAt(p: Params, ts: Tables, times: seq<Option<nat>>, es: seq<Emission>, i: nat)
    requires EmissionsKnown(ts, es) && |times| == |es| && i < |es|
    ensures SeenAll(p, ts, times, es)[i] == Seen(p.sequenceId, times[i], ShownEmission(p, ts, es[i]))
    decreases i
  {
    if i > 0 {
      SeenAt(p, ts, times[1..], es[1..], i - 1);
      assert SeenAll(p, ts, times, es)[i] == SeenAll(p, ts, times[1..], es[1..])[i - 1];
    }
  }

  /**
   With a clock that starts at or after the anchor, the replayed times of a run never
   decrease and run ahead of the true ones by exactly the sum of the backward steps.
   */
  lemma DecodedRunsAhead(p: Params, run: seq<Callback>, i: nat)
    requires Coherent(FRESH) && Ordered(false, RunEmissions(false, run))
    requires AllFit(EmitAll(p, FRESH, RunEmissions(false, run)).1)
    requires 0 < i < |RunEmissions(false, run)| && p.anchor <= RunEmissions(false, run)[0].raw
    ensures var es := RunEmissions(false, run);
            var replayed := Replayed(p, es);
            && replayed.Some? && |replayed.value| == |es|
            && replayed.value[i].time == Some(es[i].raw - p.anchor + SteppedBack(Raws(es), i))
            && (i > 1 ==> TimesRise(replayed.value[i - 1], replayed.value[i]))
  {
    EmittedRunsAhead(p, RunEmissions(false, run), i);
  }

  lemma EmittedRunsAhead(p: Params, es: seq<Emission>, i: nat)
    requires Coherent(FRESH) && Ordered(false, es) && AllFit(EmitAll(p, FRESH, es).1)
    requires 0 < i < |es| && p.anchor <= es[0].raw
    ensures var replayed := Replayed(p, es);
            && replayed.Some? && |replayed.value| == |es|
            && replayed.value[i].time == Some(es[i].raw - p.anchor + SteppedBack(Raws(es), i))
            && (i > 1 ==> TimesRise(replayed.value[i - 1], replayed.value[i]))
  {
    var seen := ReplayCarriesTimes(p, es);
    TimeRunsAhead(p, es, i);
    if i > 1 {
      TimesDoRise(p, es, seen, i);
    }
  }

  predicate TimesRise(before: Seen, after: Seen) {
    before.time.Some? && after.time.Some? && before.time.value <= after.time.value
  }

  lemma TimesDoRise(p: Params, es: seq<Emission>, seen: seq<Seen>, i: nat)
    requires Coherent(FRESH) && Ordered(false, es) && 1 < i < |es| == |seen| && p.anchor <= es[0].raw
    requires seen[i].time == Times(p, FRESH, es)[i] && seen[i - 1].time == Times(p, FRESH, es)[i - 1]
    ensures TimesRise(seen[i - 1], seen[i])
  {
    TimeRunsAhead(p, es, i);
    TimeRunsAhead(p, es, i - 1);
    assert SteppedBack(Raws(es), i) == SteppedBack(Raws(es), i - 1) + SaturatingSub(es[i - 1].raw, es[i].raw);
  }

  lemma TimeRunsAhead(p: Params, es: seq<Emission>, i: nat)
    requires Coherent(FRESH) && Ordered(false, es) && 0 < i < |es| && p.anchor <= es[0].raw
    ensures Times(p, FRESH, es)[i] == Some(es[i].raw - p.anchor + SteppedBack(Raws(es), i))
  {
    RunTimes(p, es);
    DecodedClosedForm(p.anchor, Raws(es), i);
  }

  /** The packets a run has written before its callback `k`. */
  function Offset(run: seq<Callback>, k: nat): nat
    requires k <= |run|
  {
    |RunEmissions(false, run[..k])|
  }

  /** Callback `k`'s packets lie between its own offset and the next one's, with its clock value. */
  lemma {:induction false} CallbackSpan(started: bool, run: seq<Callback>, k: nat)
    requires k < |run|
    ensures var es := RunEmissions(started, run);
            var (from, to) := (|RunEmissions(started, run[..k])|, |RunEmissions(started, run[..k + 1])|);
            && from <= to <= |es| && (run[k].bodies != [] ==> to - from >= |run[k].bodies|)
            && forall i :: from <= i < to ==> es[i].raw == run[k].raw
    decreases k
  {
    var first, later := Emissions(started, run[0]), started || run[0].bodies != [];
    assert RunEmissions(started, run) == first + RunEmissions(later, run[1..]);
    assert run[..k + 1][0] == run[0] && run[..k + 1][1..] == run[1..][..k];
    assert RunEmissions(started, run[..k + 1]) == first + RunEmissions(later, run[1..][..k]);
    if k == 0 {
      assert run[1..][..0] == [] && run[..0] == [];
    } else {
      assert run[..k][0] == run[0] && run[..k][1..] == run[1..][..k - 1];
      CallbackSpan(later, run[1..], k - 1);
    }
  }

  /** All packets of one callback are replayed at one time; a run's very first carries none. */
  lemma OneCallbackOneTime(p: Params, run: seq<Callback>, k: nat) returns (time: nat)
    requires Coherent(FRESH) && Ordered(false, RunEmissions(false, run)) && k < |run|
    requires AllFit(EmitAll(p, FRESH, RunEmissions(false, run)).1)
    ensures var replayed := Replayed(p, RunEmissions(false, run));
            && replayed.Some? && Offset(run, k) <= Offset(run, k + 1) <= |replayed.value|
            && forall i :: Offset(run, k) <= i < Offset(run, k + 1) ==>
                 replayed.value[i].time == if i == 0 then None else Some(time)
  {
    var es := RunEmissions(false, run);
    var seen := ReplayCarriesTimes(p, es);
    var from, to := Offset(run, k), Offset(run, k + 1);
    CallbackSpan(false, run, k);
    RunTimes(p, es);
    time := if from == to then 0 else Decoded(p.anchor, Raws(es), from);
    forall i | from <= i < to
      ensures seen[i].time == if i == 0 then None else Some(time)
    {
      SameClockSameTime(p.anchor, Raws(es), from, i);
    }
  }

  lemma {:induction false} SameClockSameTime(anchor: u64, raws: seq<u64>, from: nat, i: nat)
    requires from <= i < |raws| && forall k :: from <= k <= i ==> raws[k] == raws[from]
    ensures Decoded(anchor, raws, i) == Decoded(anchor, raws, from)
    decreases i
  {
    if from < i {
      SameClockSameTime(anchor, raws, from, i - 1);
      assert raws[i] == raws[i - 1];
    }
  }

  /**
   A run's decoded times are exact, at every packet, if and only if the clock never
   reads less than the anchor or than its previous value.
   */
  lemma TimesAreExact(p: Params, run: seq<Callback>)
    requires Coherent(FRESH)
    ensures var es := RunEmissions(false, run);
            && Ordered(false, es)
            && ((forall i :: 0 < i < |es| ==>
                   Times(p, FRESH, es)[i].Some? && Times(p, FRESH, es)[i].value == es[i].raw - p.anchor)
                <==> NeverBack(p.anchor, Raws(es)))
  {
    RunIsOrdered(false, run);
    var es := RunEmissions(false, run);
    var raws := Raws(es);
    RunTimes(p, es);
    DecodedExactly(p.anchor, raws);
    if es != [] {
      FirstCallbackRepeatsItsClock(run);
      assert Decoded(p.anchor, raws, 1) == Decoded(p.anchor, raws, 0);
    }
  }

  lemma {:induction false} FirstCallbackRepeatsItsClock(run: seq<Callback>)
    requires RunEmissions(false, run) != []
    ensures var es := RunEmissions(false, run); |es| >= 2 && es[0].raw == es[1].raw
    decreases |run|
  {
    if run[0].bodies == [] {
      FirstCallbackRepeatsItsClock(run[1..]);
      assert RunEmissions(false, run) == RunEmissions(false, run[1..]);
    }
  }
}
