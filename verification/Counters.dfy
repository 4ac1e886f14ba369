/**
 Counter tracks across sequences: one uuid per name address for the whole process, and a
 descriptor on every sequence before its first sample there.
 */
module Counters {
  import opened Prelude
  import opened Interning
  import opened Events
  import opened PacketFormats
  import opened Packets
  import opened Visitors
  import opened EventVisitors

  /**
   A sequence: the counter tracks it has described, the packets it has written and, as
   history, the names the tracks were described for.
   */
  datatype Sequence = Sequence(tracks: CounterTracks, bodies: seq<Body>, texts: map<Address, Text>)

  /** `shared` is the process-wide map; it is only ever read and extended under its lock. */
  datatype World = World(process: u64, shared: CounterTracks, sequences: seq<Sequence>)

  /** One atomic action on sequence `sequence`: declare a counter, or write an event. */
  datatype Action =
    | Declare(sequence: nat, name: StaticStr, uuid: u64)
    | Emit(sequence: nat, config: Config, before: seq<Item>, fields: seq<EventField>, name: StaticStr)

  predicate IsSilent(items: seq<Item>) {
    forall item :: item in items ==> !IsCounterItem(item)
  }

  /** Declaring is for counters the sequence has not described, with a uuid used by no other counter. */
  predicate Enabled(w: World, action: Action) {
    && action.sequence < |w.sequences|
    && match action
       case Declare(i, name, uuid) =>
         IsCounterName(name.text) && name.address !in w.sequences[i].tracks && uuid !in w.shared.Values
       case Emit(_, _, before, _, _) => IsSilent(before)
  }

  /** The displayed name drops the prefix. */
  function DisplayName(name: Text): Text
    requires IsCounterName(name)
  {
    name[|COUNTER_PREFIX|..]
  }

  function Apply(w: World, action: Action): World
    requires Enabled(w, action)
  {
    var s := w.sequences[action.sequence];
    match action
    case Declare(i, name, uuid) =>
      var track := if name.address in w.shared then w.shared[name.address] else uuid;
      var descriptor := CounterTrack(track, DisplayName(name.text), w.process);
      w.(shared := w.shared[name.address := track],
         sequences := w.sequences[i := Sequence(s.tracks[name.address := track], s.bodies + [descriptor],
                                                s.texts[name.address := name.text])])
    case Emit(i, config, before, fields, name) =>
      var items := before + NamedItems(config, s.tracks, fields, name);
      w.(sequences := w.sequences[i := s.(bodies := s.bodies + [Event(items)])])
  }

  function Run(w: World, actions: seq<Action>): World
    decreases |actions|
  {
    if actions == [] || !Enabled(w, actions[0]) then w else Run(Apply(w, actions[0]), actions[1..])
  }

  // ------------------------------------------------------------ the invariant

  predicate DeclaredAt(bodies: seq<Body>, track: u64, j: nat) {
    j < |bodies| && bodies[j].CounterTrack? && bodies[j].uuid == track
  }

  /** A counter's descriptor is among the first `n` packets. */
  ghost predicate Declared(bodies: seq<Body>, track: u64, n: nat) {
    exists j: nat :: j < n && DeclaredAt(bodies, track, j)
  }

  function TrackIn(item: Item): u64
    requires IsCounterItem(item)
  {
    item.track
  }

  /** Every sample comes after its track's descriptor. */
  ghost predicate UsesDeclared(bodies: seq<Body>, k: nat)
    requires k < |bodies|
  {
    bodies[k].Event? ==> forall item :: item in bodies[k].items && IsCounterItem(item) ==>
        Declared(bodies, TrackIn(item), k)
  }

  ghost predicate SequenceOk(s: Sequence, shared: CounterTracks) {
    && (forall a :: a in s.tracks ==>
        a in shared && shared[a] == s.tracks[a] && Declared(s.bodies, s.tracks[a], |s.bodies|))
    && (forall k: nat :: k < |s.bodies| ==> UsesDeclared(s.bodies, k))
  }

  ghost predicate WorldOk(w: World) {
    && (forall i: nat :: i < |w.sequences| ==> SequenceOk(w.sequences[i], w.shared))
    && (forall a, b :: a in w.shared && b in w.shared && w.shared[a] == w.shared[b] ==> a == b)
  }

  lemma DeclaredLater(bodies: seq<Body>, more: seq<Body>, track: u64, n: nat)
    requires Declared(bodies, track, n) && n <= |bodies|
    ensures forall m: nat :: n <= m ==> Declared(bodies + more, track, m)
  {
    var j: nat :| j < n && DeclaredAt(bodies, track, j);
    assert DeclaredAt(bodies + more, track, j);
  }

  /** Earlier packets are undisturbed by later ones. */
  lemma StillUsesDeclared(bodies: seq<Body>, more: seq<Body>, k: nat)
    requires k < |bodies| && UsesDeclared(bodies, k)
    ensures UsesDeclared(bodies + more, k)
  {
    if bodies[k].Event? {
      forall item | item in bodies[k].items && IsCounterItem(item)
        ensures Declared(bodies + more, TrackIn(item), k)
      {
        DeclaredLater(bodies, more, TrackIn(item), k);
      }
    }
  }

  /** The visitor's samples are of tracks the sequence knows. */
  lemma {:induction false} SamplesAreKnown(config: Config, tracks: CounterTracks, fields: seq<EventField>)
    ensures forall item :: item in Visited(config, tracks, fields) && IsCounterItem(item) ==>
        TrackIn(item) in tracks.Values
    decreases |fields|
  {
    if fields != [] {
      var front, f := fields[..|fields| - 1], fields[|fields| - 1];
      SamplesAreKnown(config, tracks, front);
      assert fields == front + [f];
      VisitedPush(config, tracks, front, f);
    }
  }

  lemma DeclareKeeps(w: World, action: Action)
    requires WorldOk(w) && Enabled(w, action) && action.Declare?
    ensures WorldOk(Apply(w, action))
  {
    var w' := Apply(w, action);
    var i, a := action.sequence, action.name.address;
    var s, s' := w.sequences[i], w'.sequences[i];
    var more := [CounterTrack(w'.shared[a], DisplayName(action.name.text), w.process)];
    assert SequenceOk(s, w.shared);
    assert DeclaredAt(s'.bodies, w'.shared[a], |s.bodies|);
    forall b | b in s'.tracks
      ensures Declared(s'.bodies, s'.tracks[b], |s'.bodies|)
    {
      if b != a {
        DeclaredLater(s.bodies, more, s.tracks[b], |s.bodies|);
      }
    }
    forall k: nat | k < |s'.bodies|
      ensures UsesDeclared(s'.bodies, k)
    {
      if k < |s.bodies| {
        StillUsesDeclared(s.bodies, more, k);
      }
    }
    forall j: nat | j < |w'.sequences| && j != i
      ensures SequenceOk(w'.sequences[j], w'.shared)
    {
      assert SequenceOk(w.sequences[j], w.shared);
    }
  }

  lemma EmitKeeps(w: World, action: Action)
    requires WorldOk(w) && Enabled(w, action) && action.Emit?
    ensures WorldOk(Apply(w, action))
  {
    var w' := Apply(w, action);
    var s, s' := w.sequences[action.sequence], w'.sequences[action.sequence];
    var items := action.before + NamedItems(action.config, s.tracks, action.fields, action.name);
    var more := [Event(items)];
    assert SequenceOk(s, w.shared);
    SamplesAreKnown(action.config, s.tracks, action.fields);
    forall a | a in s.tracks
      ensures Declared(s'.bodies, s.tracks[a], |s.bodies|) && Declared(s'.bodies, s.tracks[a], |s'.bodies|)
    {
      DeclaredLater(s.bodies, more, s.tracks[a], |s.bodies|);
    }
    forall k: nat | k < |s'.bodies|
      ensures UsesDeclared(s'.bodies, k)
    {
      if k < |s.bodies| {
        StillUsesDeclared(s.bodies, more, k);
      } else {
        forall item | item in items && IsCounterItem(item)
          ensures Declared(s'.bodies, TrackIn(item), k)
        {
          assert item in Visited(action.config, s.tracks, action.fields);
          var a :| a in s.tracks && s.tracks[a] == TrackIn(item);
        }
      }
    }
    forall j: nat | j < |w'.sequences| && j != action.sequence
      ensures SequenceOk(w'.sequences[j], w'.shared)
    {
      assert SequenceOk(w.sequences[j], w.shared);
    }
  }

  lemma {:induction false} RunKeeps(w: World, actions: seq<Action>)
    requires WorldOk(w)
    ensures WorldOk(Run(w, actions))
    decreases |actions|
  {
    if actions != [] && Enabled(w, actions[0]) {
      match actions[0] {
        case Declare(_, _, _) => DeclareKeeps(w, actions[0]);
        case Emit(_, _, _, _, _) => EmitKeeps(w, actions[0]);
      }
      RunKeeps(Apply(w, actions[0]), actions[1..]);
    }
  }

  function Initial(process: u64, sequences: nat): World {
    World(process, map[], seq(sequences, i => Sequence(map[], [], map[])))
  }

  // ------------------------------------------------------------ what a descriptor says

  /** A packet describes a counter by this name, less the prefix, below the process. */
  predicate Describes(body: Body, track: u64, text: Text, process: u64) {
    && body.CounterTrack? && body.uuid == track && body.parent == process
    && Ascii("counter.") + body.name == text
  }

  ghost predicate NamedOk(w: World) {
    forall i: nat, a :: i < |w.sequences| && a in w.sequences[i].tracks ==>
      && a in w.sequences[i].texts
      && exists j: nat :: j < |w.sequences[i].bodies|
           && Describes(w.sequences[i].bodies[j], w.sequences[i].tracks[a], w.sequences[i].texts[a], w.process)
  }

  lemma DisplayDropsPrefix(text: Text)
    requires IsCounterName(text)
    ensures Ascii("counter.") + DisplayName(text) == text
  {
    KnownTexts();
  }

  lemma StepKeepsNames(w: World, action: Action)
    requires NamedOk(w) && Enabled(w, action)
    ensures NamedOk(Apply(w, action)) && Apply(w, action).process == w.process
  {
    var w' := Apply(w, action);
    forall i: nat, a | i < |w'.sequences| && a in w'.sequences[i].tracks
      ensures a in w'.sequences[i].texts
      ensures exists j: nat ::
                j < |w'.sequences[i].bodies|
                && Describes(w'.sequences[i].bodies[j], w'.sequences[i].tracks[a], w'.sequences[i].texts[a], w.process)
    {
      var s, s' := w.sequences[i], w'.sequences[i];
      if action.Declare? && action.sequence == i && action.name.address == a {
        DisplayDropsPrefix(action.name.text);
        assert Describes(s'.bodies[|s.bodies|], s'.tracks[a], s'.texts[a], w.process);
      } else {
        var j: nat :| j < |s.bodies| && Describes(s.bodies[j], s.tracks[a], s.texts[a], w.process);
        assert s'.bodies[j] == s.bodies[j];
      }
    }
  }

  lemma {:induction false} RunKeepsNames(w: World, actions: seq<Action>)
    requires NamedOk(w)
    ensures NamedOk(Run(w, actions)) && Run(w, actions).process == w.process
    decreases |actions|
  {
    if actions != [] && Enabled(w, actions[0]) {
      StepKeepsNames(w, actions[0]);
      RunKeepsNames(Apply(w, actions[0]), actions[1..]);
    }
  }

  /**
   Every counter track a sequence knows is described on it by the name it was declared
   for, less "counter.", as a child of the process track.
   */
  lemma CountersAreNamed(w: World, process: u64, sequences: nat, actions: seq<Action>, i: nat, a: Address)
    requires w == Run(Initial(process, sequences), actions)
    requires i < |w.sequences| && a in w.sequences[i].tracks
    ensures a in w.sequences[i].texts
    ensures exists j: nat :: j < |w.sequences[i].bodies|
              && Describes(w.sequences[i].bodies[j], w.sequences[i].tracks[a], w.sequences[i].texts[a], process)
  {
    RunKeepsNames(Initial(process, sequences), actions);
  }

  // ------------------------------------------------------------ main results

  /**
   In every interleaving, on every sequence: each counter sample's track was described by
   an earlier packet of the same sequence; all sequences agree on the track of a name's
   address, and distinct addresses have distinct tracks.
   */
  lemma CountersAreDeclared(w: World, process: u64, sequences: nat, actions: seq<Action>)
    requires w == Run(Initial(process, sequences), actions)
    ensures forall i: nat :: i < |w.sequences| ==> forall k: nat :: k < |w.sequences[i].bodies| ==>
        UsesDeclared(w.sequences[i].bodies, k)
    ensures forall i: nat, j: nat, a ::
              i < |w.sequences| && j < |w.sequences| && a in w.sequences[i].tracks && a in w.sequences[j].tracks ==>
              w.sequences[i].tracks[a] == w.sequences[j].tracks[a]
    ensures forall i: nat, j: nat, a, b ::
              i < |w.sequences| && j < |w.sequences| && a in w.sequences[i].tracks && b in w.sequences[j].tracks ==>
              (w.sequences[i].tracks[a] == w.sequences[j].tracks[b] <==> a == b)
  {
    RunKeeps(Initial(process, sequences), actions);
    forall i: nat | i < |w.sequences|
      ensures SequenceOk(w.sequences[i], w.shared)
    {
    }
  }

  /** An event is written behind all before it: what precedes the fields, then theirs and the name. */
  lemma EmitIsExact(w: World, i: nat, config: Config, before: seq<Item>, fields: seq<EventField>, name: StaticStr)
    requires Enabled(w, Emit(i, config, before, fields, name))
    ensures var (s, w') := (w.sequences[i], Apply(w, Emit(i, config, before, fields, name)));
            var s' := w'.sequences[i];
            && w'.shared == w.shared && s'.tracks == s.tracks && |s'.bodies| == |s.bodies| + 1
            && s'.bodies[..|s.bodies|] == s.bodies && s'.bodies[|s.bodies|].Event?
            && var items := s'.bodies[|s.bodies|].items;
               && |before| <= |items| && items[..|before|] == before
               && items[|before|..] == NamedItems(config, s.tracks, fields, name)
  {
  }

  // ------------------------------------------------------------ which counters an event samples

  /** `on_event` declares the first eight counter fields of the metadata. */
  function DeclareFirst(tracks: CounterTracks, names: seq<StaticStr>, budget: nat,
                        uuids: map<Address, u64>): CounterTracks
    decreases |names|
  {
    if names == [] || budget == 0 then tracks
    else if !IsCounterName(names[0].text) then DeclareFirst(tracks, names[1..], budget, uuids)
    else if names[0].address in tracks || names[0].address !in uuids then
      DeclareFirst(tracks, names[1..], budget - 1, uuids)
    else DeclareFirst(tracks[names[0].address := uuids[names[0].address]], names[1..], budget - 1, uuids)
  }

  function CounterNamesIn(names: seq<StaticStr>): nat {
    if names == [] then 0 else CounterNamesIn(names[1..]) + if IsCounterName(names[0].text) then 1 else 0
  }

  /** One of the first `budget` counters of the list is at this address. */
  ghost predicate AmongFirst(names: seq<StaticStr>, budget: nat, a: Address) {
    exists k: nat :: k < |names| && IsAmong(names, budget, a, k)
  }

  predicate IsAmong(names: seq<StaticStr>, budget: nat, a: Address, k: nat)
    requires k < |names|
  {
    names[k].address == a && IsCounterName(names[k].text) && CounterNamesIn(names[..k]) < budget
  }

  lemma AmongTail(names: seq<StaticStr>, budget: nat, a: Address)
    requires names != []
    ensures var counts := IsCounterName(names[0].text);
            AmongFirst(names, budget, a)
            <==> (counts && budget > 0 && names[0].address == a)
                 || (counts && budget > 0 && AmongFirst(names[1..], budget - 1, a))
                 || (!counts && AmongFirst(names[1..], budget, a))
  {
    var counts := IsCounterName(names[0].text);
    var left := if counts && budget > 0 then budget - 1 else budget;
    forall k: nat | 0 < k < |names|
      ensures CounterNamesIn(names[..k]) == (if counts then 1 else 0) + CounterNamesIn(names[1..][..k - 1])
    {
      assert names[..k][0] == names[0] && names[..k][1..] == names[1..][..k - 1];
    }
    if AmongFirst(names, budget, a) {
      var k: nat :| k < |names| && IsAmong(names, budget, a, k);
      assert k > 0 ==> IsAmong(names[1..], left, a, k - 1);
    }
    if AmongFirst(names[1..], left, a) && (counts ==> budget > 0) {
      var k: nat :| k < |names[1..]| && IsAmong(names[1..], left, a, k);
      assert IsAmong(names, budget, a, k + 1);
    }
    if counts && budget > 0 && names[0].address == a {
      assert names[..0] == [] && IsAmong(names, budget, a, 0);
    }
  }

  /** Exactly the first counters of the list are declared, and none that was known is declared anew. */
  lemma {:induction false} DeclaredExactly(tracks: CounterTracks, names: seq<StaticStr>, budget: nat,
                                           uuids: map<Address, u64>, a: Address)
    ensures var known := DeclareFirst(tracks, names, budget, uuids);
            && (a in known <==> a in tracks || (a in uuids && AmongFirst(names, budget, a)))
            && (a in known ==> known[a] == if a in tracks then tracks[a] else uuids[a])
    decreases |names|
  {
    if names != [] {
      AmongTail(names, budget, a);
      if budget > 0 {
        var counts := IsCounterName(names[0].text);
        var next := if counts && names[0].address !in tracks && names[0].address in uuids
            then tracks[names[0].address := uuids[names[0].address]] else tracks;
        DeclaredExactly(next, names[1..], if counts then budget - 1 else budget, uuids, a);
      } else {
        NoneAmong(names, a);
      }
    }
  }

  lemma NoneAmong(names: seq<StaticStr>, a: Address)
    ensures !AmongFirst(names, 0, a)
  {
  }

  lemma {:induction false} DeclaredFirst(tracks: CounterTracks, names: seq<StaticStr>, budget: nat,
                                         uuids: map<Address, u64>)
    requires forall name :: name in names ==> name.address in uuids
    ensures forall a :: a in tracks ==> a in DeclareFirst(tracks, names, budget, uuids)
    ensures CounterNamesIn(names) <= budget ==>
              forall name :: name in names && IsCounterName(name.text) ==>
                  name.address in DeclareFirst(tracks, names, budget, uuids)
    decreases |names|
  {
    if names != [] && budget > 0 {
      assert forall name :: name in names[1..] ==> name in names;
      var counts := IsCounterName(names[0].text);
      var next := if counts && names[0].address !in tracks then tracks[names[0].address := uuids[names[0].address]]
          else tracks;
      DeclaredFirst(next, names[1..], if counts then budget - 1 else budget, uuids);
      assert forall name :: name in names ==> name == names[0] || name in names[1..];
    } else if names != [] {
      NoCounters(names);
    }
  }

  lemma {:induction false} NoCounters(names: seq<StaticStr>)
    ensures CounterNamesIn(names) == 0 ==> forall name :: name in names ==> !IsCounterName(name.text)
  {
    if names != [] {
      NoCounters(names[1..]);
      assert forall name :: name in names ==> name == names[0] || name in names[1..];
    }
  }

  function CountersIn(config: Config, fields: seq<EventField>): nat {
    if fields == [] then 0
    else CountersIn(config, fields[..|fields| - 1]) + if IsCounter(config, fields[|fields| - 1]) then 1 else 0
  }

  lemma {:induction false} KnownCounters(config: Config, tracks: CounterTracks, fields: seq<EventField>)
    requires forall f :: f in fields && IsCounter(config, f) ==> f.name.address in tracks
    ensures SamplesIn(config, tracks, fields) == CountersIn(config, fields)
    decreases |fields|
  {
    if fields != [] {
      KnownCounters(config, tracks, fields[..|fields| - 1]);
    }
  }

  /**
   An event whose callsite has at most eight counter fields samples every number recorded
   in them, up to the limit of eight.
   */
  lemma FewCountersAreAllSampled(config: Config, tracks: CounterTracks, names: seq<StaticStr>, uuids: map<Address, u64>,
                                 fields: seq<EventField>)
    requires forall name :: name in names ==> name.address in uuids
    requires forall f :: f in fields ==> f.name in names
    requires CounterNamesIn(names) <= MAX_EXTRA_COUNTERS
    ensures var known := DeclareFirst(tracks, names, MAX_EXTRA_COUNTERS, uuids);
            CountCounters(Visited(config, known, fields)) == Min(MAX_EXTRA_COUNTERS, CountersIn(config, fields))
  {
    var known := DeclareFirst(tracks, names, MAX_EXTRA_COUNTERS, uuids);
    DeclaredFirst(tracks, names, MAX_EXTRA_COUNTERS, uuids);
    KnownCounters(config, known, fields);
    SamplesAreBounded(config, known, fields);
  }
}
