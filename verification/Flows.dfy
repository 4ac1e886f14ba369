/**
 `follows_from` flows: two endpoints queued on two spans, each written by its span's next
 boundary. A span is named by its instance; a flow by its position in allocation order.
 `Apply` interleaves the callbacks' atomic steps, the fast-path flag consulted if `gated`.
 */
module Flows {
  import opened Prelude

  datatype Endpoint = Start(flow: nat) | Terminate(flow: nat)

  /** Whether the span has a lifetime track, and the endpoints waiting for its next event. */
  datatype Span = Span(track: bool, pending: seq<Endpoint>)

  datatype Boundary = Entering | Leaving

  /** What has become of an endpoint. */
  datatype Where = Waiting(span: nat) | Carried(actor: nat) | Emitted | Dropped

  datatype Pc =
    | Idle
    | Starting(flow: nat, predecessor: nat, dependent: nat)
    | Terminating(flow: nat, dependent: nat)
    | Guarding(span: nat, boundary: Boundary)
    | Loaded(span: nat, boundary: Boundary, includes: bool)
    | Closing(span: nat, track: bool, pending: seq<Endpoint>)

  /**
   `flag` is `has_follows_from`. History: the instances born, where each endpoint is and
   on which span it was queued, what was written and by whom, and the spans that closed
   without a lifetime slice to write on.
   */
  datatype State = State(
    threadSlices: bool, gated: bool, flag: bool, spans: map<nat, Span>, pcs: seq<Pc>, nextFlow: nat,
    born: set<nat>, fates: map<Endpoint, Where>, owners: map<Endpoint, nat>, written: seq<(nat, Endpoint)>,
    lossy: set<nat>)

  datatype Action =
    | NewSpan(span: nat, track: bool)
    | AllocatePoll
    | Follow(dependent: nat, predecessor: nat)
    | Reach(span: nat, boundary: Boundary)
    | Close(span: nat)
    | Advance(acquired: bool)

  datatype Label = Label(actor: nat, action: Action)

  function Initial(threadSlices: bool, gated: bool, actors: nat): State {
    State(threadSlices, gated, false, map[], seq(actors, i requires 0 <= i < actors => Idle), 0, {}, map[],
          map[], [], {})
  }

  predicate Holds(pc: Pc, span: nat) {
    (pc.Guarding? || pc.Loaded?) && pc.span == span
  }

  /** Nobody holds a guard on the span's state. */
  predicate Unguarded(s: State, span: nat) {
    forall b: nat :: b < |s.pcs| ==> !Holds(s.pcs[b], span)
  }

  /** An exit writes flows only onto thread slices. */
  function Consults(s: State, boundary: Boundary): bool {
    boundary.Entering? || s.threadSlices
  }

  predicate Enabled(s: State, l: Label) {
    && l.actor < |s.pcs|
    && var pc := s.pcs[l.actor];
       match l.action
       case NewSpan(span, _) => pc.Idle? && span !in s.born
       case AllocatePoll => pc.Idle?
       case Follow(_, _) => pc.Idle?
       case Reach(span, _) => pc.Idle? && span in s.spans && Unguarded(s, span)
       case Close(span) => pc.Idle? && span in s.spans && Unguarded(s, span)
       case Advance(_) =>
         match pc
         case Idle => false
         case Starting(_, predecessor, _) => Unguarded(s, predecessor)
         case Terminating(_, dependent) => Unguarded(s, dependent)
         case _ => true
  }

  function Go(s: State, a: nat, pc: Pc): State
    requires a < |s.pcs|
  {
    s.(pcs := s.pcs[a := pc])
  }

  /** Queues an endpoint on a span that has state; a span without is passed over. */
  function Queue(s: State, span: nat, e: Endpoint): State {
    if span in s.spans then
      s.(spans := s.spans[span := s.spans[span].(pending := s.spans[span].pending + [e])],
         fates := s.fates[e := Waiting(span)], owners := s.owners[e := span])
    else s
  }

  function Settled(fates: map<Endpoint, Where>, endpoints: seq<Endpoint>, fate: Where): map<Endpoint, Where>
    decreases |endpoints|
  {
    if endpoints == [] then fates else Settled(fates[endpoints[0] := fate], endpoints[1..], fate)
  }

  function By(span: nat, endpoints: seq<Endpoint>): seq<(nat, Endpoint)> {
    seq(|endpoints|, i requires 0 <= i < |endpoints| => (span, endpoints[i]))
  }

  /** One packet carries all of a span's waiting endpoints. */
  function Write(s: State, span: nat, endpoints: seq<Endpoint>): State {
    s.(written := s.written + By(span, endpoints), fates := Settled(s.fates, endpoints, Emitted))
  }

  function Apply(s: State, l: Label): State
    requires Enabled(s, l)
  {
    var a, pc := l.actor, s.pcs[l.actor];
    match l.action
    case NewSpan(span, track) => s.(spans := s.spans[span := Span(track, [])], born := s.born + {span})
    case AllocatePoll => s.(nextFlow := s.nextFlow + 1)
    case Follow(dependent, predecessor) => BeginFollow(s, a, dependent, predecessor)
    case Reach(span, boundary) => Go(s, a, Guarding(span, boundary))
    case Close(span) => BeginClose(s, a, span)
    case Advance(acquired) => Step(s, a, pc, acquired)
  }

  /** `on_follows_from` raises the flag and draws the edge's flow. */
  function BeginFollow(s: State, a: nat, dependent: nat, predecessor: nat): State
    requires a < |s.pcs|
  {
    Go(s.(flag := true, nextFlow := s.nextFlow + 1), a, Starting(s.nextFlow, predecessor, dependent))
  }

  /** `on_close` removes the span's state, and carries what waits in it. */
  function BeginClose(s: State, a: nat, span: nat): State
    requires a < |s.pcs| && span in s.spans
  {
    var state := s.spans[span];
    Go(s.(spans := s.spans - {span}, fates := Settled(s.fates, state.pending, Carried(a))), a,
       Closing(span, state.track, state.pending))
  }

  /** A callback's step: one program counter, and no span comes or goes. */
  predicate Plainly(s: State, s': State, a: nat) {
    && a < |s.pcs| == |s'.pcs| && s'.pcs == s.pcs[a := s'.pcs[a]]
    && s'.born == s.born && s'.nextFlow == s.nextFlow && s'.threadSlices == s.threadSlices
    && s'.spans.Keys == s.spans.Keys
    && !s'.pcs[a].Starting? && !s'.pcs[a].Closing?
  }

  /** The predecessor's end is queued, and the dependent's is next; without state neither is. */
  function QueueStart(s: State, a: nat, flow: nat, predecessor: nat, dependent: nat): (s': State)
    requires a < |s.pcs|
    ensures Plainly(s, s', a)
  {
    if predecessor in s.spans then Go(Queue(s, predecessor, Start(flow)), a, Terminating(flow, dependent))
       else Go(s, a, Idle)
  }

  function QueueTerminate(s: State, a: nat, flow: nat, dependent: nat): (s': State)
    requires a < |s.pcs|
    ensures Plainly(s, s', a) && s'.pcs[a] == Idle
  {
    Go(Queue(s, dependent, Terminate(flow)), a, Idle)
  }

  function LoadFlag(s: State, a: nat, span: nat, boundary: Boundary): (s': State)
    requires a < |s.pcs|
    ensures Plainly(s, s', a) && s'.owners == s.owners && s'.fates == s.fates && s'.pcs[a].Loaded?
  {
    Go(s, a, Loaded(span, boundary, Consults(s, boundary) && (s.gated ==> s.flag)))
  }

  /** A boundary's packet is written, with the endpoints if they are included. */
  function WriteBoundary(s: State, a: nat, span: nat, includes: bool): (s': State)
    requires a < |s.pcs|
    ensures Plainly(s, s', a) && s'.owners == s.owners && s'.pcs[a] == Idle
  {
    if includes && span in s.spans then
      var pending := s.spans[span].pending;
      Go(Write(s.(spans := s.spans[span := s.spans[span].(pending := [])]), span, pending), a, Idle)
    else Go(s, a, Idle)
  }

  /** The lifetime slice's end carries what still waits, if there is one to write. */
  function FinishClose(s: State, a: nat, span: nat, track: bool, pending: seq<Endpoint>, acquired: bool): (s': State)
    requires a < |s.pcs|
    ensures Plainly(s, s', a) && s'.owners == s.owners && s'.pcs[a] == Idle
    ensures s'.fates == Settled(s.fates, pending, if track && acquired then Emitted else Dropped)
  {
    if track && acquired then Go(Write(s, span, pending), a, Idle)
    else Go(s.(fates := Settled(s.fates, pending, Dropped), lossy := s.lossy + {span}), a, Idle)
  }

  function Step(s: State, a: nat, pc: Pc, acquired: bool): (s': State)
    requires a < |s.pcs|
    ensures pc != Idle ==> Plainly(s, s', a)
  {
    match pc
    case Idle => s
    case Starting(flow, predecessor, dependent) => QueueStart(s, a, flow, predecessor, dependent)
    case Terminating(flow, dependent) => QueueTerminate(s, a, flow, dependent)
    case Guarding(span, boundary) => LoadFlag(s, a, span, boundary)
    case Loaded(span, _, includes) => WriteBoundary(s, a, span, includes)
    case Closing(span, track, pending) => FinishClose(s, a, span, track, pending, acquired)
  }

  function Run(s: State, labels: seq<Label>): State
    decreases |labels|
  {
    if labels == [] || !Enabled(s, labels[0]) then s else Run(Apply(s, labels[0]), labels[1..])
  }

  // ------------------------------------------------------------ the invariant

  predicate Distinct(endpoints: seq<Endpoint>) {
    forall i: nat, j: nat :: i < j < |endpoints| ==> endpoints[i] != endpoints[j]
  }

  function Count(written: seq<(nat, Endpoint)>, e: Endpoint): nat {
    if written == [] then 0 else Count(written[..|written| - 1], e) + if written[|written| - 1].1 == e then 1 else 0
  }

  /** The endpoints an actor carries, having taken its span's state. */
  function InHand(pc: Pc): seq<Endpoint> {
    if pc.Closing? then pc.pending else []
  }

  /** Waiting and carried endpoints are where their fate says, once. */
  ghost predicate PlacesOk(s: State) {
    && (forall span, e :: span in s.spans ==>
        (e in s.spans[span].pending <==> e in s.fates && s.fates[e] == Waiting(span)))
    && (forall a: nat, e :: a < |s.pcs| ==> (e in InHand(s.pcs[a]) <==> e in s.fates && s.fates[e] == Carried(a)))
    && (forall span :: span in s.spans ==> Distinct(s.spans[span].pending))
    && (forall a: nat :: a < |s.pcs| ==> Distinct(InHand(s.pcs[a])))
    && (forall e :: e in s.fates && s.fates[e].Waiting? ==> s.fates[e].span in s.spans)
    && (forall e :: e in s.fates && s.fates[e].Carried? ==> s.fates[e].actor < |s.pcs|)
  }

  /** An endpoint is written once if its fate says so, and not at all otherwise. */
  ghost predicate WrittenOk(s: State) {
    forall e :: Count(s.written, e) == if e in s.fates && s.fates[e] == Emitted then 1 else 0
  }

  /** It is its own span that waits with it, carries it, writes it or drops it. */
  ghost predicate OwnersOk(s: State) {
    && s.owners.Keys == s.fates.Keys
    && (forall e :: e in s.fates && s.fates[e].Waiting? ==> s.owners[e] == s.fates[e].span)
    && (forall a: nat, e :: a < |s.pcs| && e in InHand(s.pcs[a]) ==> e in s.owners && s.owners[e] == s.pcs[a].span)
    && (forall i: nat :: i < |s.written| ==> s.written[i].1 in s.owners && s.written[i].0 == s.owners[s.written[i].1])
    && (forall e :: e in s.fates && s.fates[e] == Dropped ==> s.owners[e] in s.lossy)
  }

  /** Flow ids are fresh until their endpoints are queued. */
  ghost predicate FreshOk(s: State) {
    && (forall e :: e in s.fates ==> e.flow < s.nextFlow)
    && (forall a: nat :: a < |s.pcs| && s.pcs[a].Starting? ==>
          s.pcs[a].flow < s.nextFlow && Start(s.pcs[a].flow) !in s.fates && Terminate(s.pcs[a].flow) !in s.fates)
    && (forall a: nat :: a < |s.pcs| && s.pcs[a].Terminating? ==>
          s.pcs[a].flow < s.nextFlow && Terminate(s.pcs[a].flow) !in s.fates)
    && (forall a: nat, b: nat :: a < |s.pcs| && b < |s.pcs| && a != b && FlowOf(s.pcs[a]).Some? ==>
        FlowOf(s.pcs[a]) != FlowOf(s.pcs[b]))
  }

  function FlowOf(pc: Pc): Option<nat> {
    match pc
    case Starting(flow, _, _) => Some(flow)
    case Terminating(flow, _) => Some(flow)
    case _ => None
  }

  /** A queued endpoint, or one about to be, means the flag is set. */
  ghost predicate FlagOk(s: State) {
    && (s.fates != map[] ==> s.flag)
    && (forall a: nat :: a < |s.pcs| && FlowOf(s.pcs[a]).Some? ==> s.flag)
  }

  /** A boundary that skips the flows of a span it should consult has none to write. */
  ghost predicate SkipsOk(s: State) {
    && (forall a: nat :: a < |s.pcs| && s.pcs[a].Loaded? && Consults(s, s.pcs[a].boundary) && !s.pcs[a].includes ==>
          s.pcs[a].span in s.spans && s.spans[s.pcs[a].span].pending == [])
    && (forall a: nat :: a < |s.pcs| && s.pcs[a].Loaded? && s.pcs[a].includes ==> Consults(s, s.pcs[a].boundary))
    && (forall a: nat :: a < |s.pcs| && (s.pcs[a].Guarding? || s.pcs[a].Loaded?) ==> s.pcs[a].span in s.spans)
    && (forall a: nat, b: nat :: a < |s.pcs| && b < |s.pcs| && a != b && (s.pcs[a].Guarding? || s.pcs[a].Loaded?) ==>
        !Holds(s.pcs[b], s.pcs[a].span))
  }

  ghost predicate BornOk(s: State) {
    && s.spans.Keys <= s.born
    && (forall e :: e in s.owners ==> s.owners[e] in s.born)
    && (forall a: nat :: a < |s.pcs| && s.pcs[a].Closing? ==> s.pcs[a].span in s.born)
  }

  ghost predicate Inv(s: State) {
    PlacesOk(s) && WrittenOk(s) && OwnersOk(s) && FreshOk(s) && FlagOk(s) && SkipsOk(s) && BornOk(s)
  }

  // ------------------------------------------------------------ parts of steps

  lemma {:induction false} SettledFates(fates: map<Endpoint, Where>, endpoints: seq<Endpoint>, fate: Where)
    ensures forall e :: e in Settled(fates, endpoints, fate) <==> e in fates || e in endpoints
    ensures forall e :: e in Settled(fates, endpoints, fate) ==>
              Settled(fates, endpoints, fate)[e] == if e in endpoints then fate else fates[e]
    decreases |endpoints|
  {
    if endpoints != [] {
      SettledFates(fates[endpoints[0] := fate], endpoints[1..], fate);
      assert forall e :: e in endpoints <==> e == endpoints[0] || e in endpoints[1..];
    }
  }

  lemma {:induction false} CountBy(written: seq<(nat, Endpoint)>, span: nat, endpoints: seq<Endpoint>, e: Endpoint)
    requires Distinct(endpoints)
    ensures Count(written + By(span, endpoints), e) == Count(written, e) + if e in endpoints then 1 else 0
    decreases |endpoints|
  {
    if endpoints == [] {
      assert written + By(span, []) == written;
    } else {
      var front, last := endpoints[..|endpoints| - 1], endpoints[|endpoints| - 1];
      assert By(span, endpoints) == By(span, front) + [(span, last)];
      var all := written + By(span, endpoints);
      assert all[..|all| - 1] == written + By(span, front);
      CountBy(written, span, front, e);
      assert endpoints == front + [last];
      assert last !in front;
    }
  }

  // ------------------------------------------------------------ queueing

  lemma QueuePlaces(s: State, span: nat, e: Endpoint)
    requires PlacesOk(s) && WrittenOk(s) && e !in s.fates
    ensures PlacesOk(Queue(s, span, e)) && WrittenOk(Queue(s, span, e))
  {
    if span in s.spans {
      var s' := Queue(s, span, e);
      var pending := s.spans[span].pending;
      assert e !in pending;
      assert Distinct(pending + [e]);
      forall other, x | other in s'.spans
        ensures x in s'.spans[other].pending <==> x in s'.fates && s'.fates[x] == Waiting(other)
      {
      }
    }
  }

  /** Everything but the places of endpoints. */
  ghost predicate RestOk(s: State) {
    OwnersOk(s) && FreshOk(s) && FlagOk(s) && SkipsOk(s) && BornOk(s)
  }

  lemma StartingKeeps(s: State, a: nat, flow: nat, predecessor: nat, dependent: nat)
    requires Inv(s) && a < |s.pcs| && s.pcs[a] == Starting(flow, predecessor, dependent) && Unguarded(s, predecessor)
    ensures Inv(Step(s, a, s.pcs[a], false))
  {
    QueuePlaces(s, predecessor, Start(flow));
    if predecessor in s.spans {
      QueuedRest(s, a, predecessor, Start(flow), Terminating(flow, dependent));
      GoPlaces(Queue(s, predecessor, Start(flow)), a, Terminating(flow, dependent));
    } else {
      GoPlaces(s, a, Idle);
      IdleRest(s, a);
    }
  }

  lemma TerminatingKeeps(s: State, a: nat, flow: nat, dependent: nat)
    requires Inv(s) && a < |s.pcs| && s.pcs[a] == Terminating(flow, dependent) && Unguarded(s, dependent)
    ensures Inv(Step(s, a, s.pcs[a], false))
  {
    QueuePlaces(s, dependent, Terminate(flow));
    if dependent in s.spans {
      QueuedRest(s, a, dependent, Terminate(flow), Idle);
      GoPlaces(Queue(s, dependent, Terminate(flow)), a, Idle);
    } else {
      GoPlaces(s, a, Idle);
      IdleRest(s, a);
    }
  }

  ghost predicate Queues(s: State, a: nat, span: nat, e: Endpoint, pc: Pc) {
    && a < |s.pcs| && span in s.spans && Unguarded(s, span) && FlowOf(s.pcs[a]) == Some(e.flow) && e !in s.fates
    && (pc == Idle || (s.pcs[a].Starting? && e == Start(e.flow) && pc == Terminating(e.flow, s.pcs[a].dependent)))
  }

  lemma QueuedOwners(s: State, a: nat, span: nat, e: Endpoint, pc: Pc)
    requires OwnersOk(s) && Queues(s, a, span, e, pc)
    ensures OwnersOk(Go(Queue(s, span, e), a, pc))
  {
    var s' := Go(Queue(s, span, e), a, pc);
    assert e !in s.owners;
    forall b: nat, x | b < |s'.pcs| && x in InHand(s'.pcs[b])
      ensures x in s'.owners && s'.owners[x] == s'.pcs[b].span
    {
      assert x in InHand(s.pcs[b]);
    }
    forall i: nat | i < |s'.written|
      ensures s'.written[i].1 in s'.owners && s'.written[i].0 == s'.owners[s'.written[i].1]
    {
      assert s.written[i].1 in s.owners;
    }
  }

  lemma QueuedFresh(s: State, a: nat, span: nat, e: Endpoint, pc: Pc)
    requires FreshOk(s) && Queues(s, a, span, e, pc)
    ensures FreshOk(Go(Queue(s, span, e), a, pc))
  {
    var s' := Go(Queue(s, span, e), a, pc);
    forall b: nat | b < |s'.pcs| && b != a
      ensures FlowOf(s'.pcs[b]).Some? ==> FlowOf(s'.pcs[b]) != Some(e.flow)
    {
      assert FlowOf(s.pcs[a]) != FlowOf(s.pcs[b]);
    }
  }

  lemma QueuedSkips(s: State, a: nat, span: nat, e: Endpoint, pc: Pc)
    requires SkipsOk(s) && FlagOk(s) && BornOk(s) && Queues(s, a, span, e, pc)
    ensures SkipsOk(Go(Queue(s, span, e), a, pc)) && FlagOk(Go(Queue(s, span, e), a, pc))
    ensures BornOk(Go(Queue(s, span, e), a, pc))
  {
    var s' := Go(Queue(s, span, e), a, pc);
    forall b: nat | b < |s'.pcs| && s'.pcs[b].Loaded?
      ensures s'.pcs[b].span != span
    {
      assert !Holds(s.pcs[b], span);
    }
  }

  lemma QueuedRest(s: State, a: nat, span: nat, e: Endpoint, pc: Pc)
    requires RestOk(s) && Queues(s, a, span, e, pc)
    ensures RestOk(Go(Queue(s, span, e), a, pc))
  {
    QueuedOwners(s, a, span, e, pc);
    QueuedFresh(s, a, span, e, pc);
    QueuedSkips(s, a, span, e, pc);
  }

  /** A callback that is done, or moves on holding the same endpoints. */
  lemma GoPlaces(s: State, a: nat, pc: Pc)
    requires PlacesOk(s) && WrittenOk(s) && a < |s.pcs| && InHand(pc) == InHand(s.pcs[a])
    ensures PlacesOk(Go(s, a, pc)) && WrittenOk(Go(s, a, pc))
  {
  }

  lemma IdleRest(s: State, a: nat)
    requires RestOk(s) && a < |s.pcs| && InHand(s.pcs[a]) == []
    ensures RestOk(Go(s, a, Idle))
  {
    PlainOwners(s, Go(s, a, Idle), a);
    PlainSkips(s, Go(s, a, Idle), a);
    IdleFresh(s, a);
  }

  lemma IdleFresh(s: State, a: nat)
    requires FreshOk(s) && FlagOk(s) && a < |s.pcs|
    ensures FreshOk(Go(s, a, Idle)) && FlagOk(Go(s, a, Idle))
  {
  }

  // ------------------------------------------------------------ boundaries

  lemma GuardingKeeps(s: State, a: nat, span: nat, boundary: Boundary)
    requires Inv(s) && a < |s.pcs| && s.pcs[a] == Guarding(span, boundary)
    ensures Inv(Go(s, a, Loaded(span, boundary, Consults(s, boundary) && (s.gated ==> s.flag))))
  {
    var pc := Loaded(span, boundary, Consults(s, boundary) && (s.gated ==> s.flag));
    GoPlaces(s, a, pc);
    if !s.flag {
      NothingQueued(s, span);
    }
    LoadedRest(s, a, pc);
  }

  lemma LoadedRest(s: State, a: nat, pc: Pc)
    requires RestOk(s) && a < |s.pcs| && s.pcs[a].Guarding? && pc.Loaded? && pc.span == s.pcs[a].span
    requires pc.boundary == s.pcs[a].boundary
    requires pc.includes ==> Consults(s, pc.boundary)
    requires Consults(s, pc.boundary) && !pc.includes ==> pc.span in s.spans && s.spans[pc.span].pending == []
    ensures RestOk(Go(s, a, pc))
  {
    var s' := Go(s, a, pc);
    PlainOwners(s, s', a);
    LoadedFresh(s, a, pc);
    LoadedSkips(s, a, pc);
  }

  lemma LoadedFresh(s: State, a: nat, pc: Pc)
    requires FreshOk(s) && FlagOk(s) && BornOk(s) && a < |s.pcs| && FlowOf(pc) == None && pc.Loaded?
    ensures FreshOk(Go(s, a, pc)) && FlagOk(Go(s, a, pc)) && BornOk(Go(s, a, pc))
  {
  }

  lemma LoadedSkips(s: State, a: nat, pc: Pc)
    requires SkipsOk(s) && a < |s.pcs| && s.pcs[a].Guarding? && pc.Loaded? && pc.span == s.pcs[a].span
    requires pc.includes ==> Consults(s, pc.boundary)
    requires Consults(s, pc.boundary) && !pc.includes ==> pc.span in s.spans && s.spans[pc.span].pending == []
    ensures SkipsOk(Go(s, a, pc))
  {
    var s' := Go(s, a, pc);
    forall b: nat, c: nat | b < |s'.pcs| && c < |s'.pcs| && b != c && (s'.pcs[b].Guarding? || s'.pcs[b].Loaded?)
      ensures !Holds(s'.pcs[c], s'.pcs[b].span)
    {
      assert !Holds(s.pcs[c], s.pcs[b].span);
    }
  }

  /** Before the flag is set nothing has been queued. */
  lemma NothingQueued(s: State, span: nat)
    requires Inv(s) && !s.flag && span in s.spans
    ensures s.spans[span].pending == []
  {
    if s.spans[span].pending != [] {
      FirstWaits(s, span);
      assert false;
    }
  }

  lemma FirstWaits(s: State, span: nat)
    requires PlacesOk(s) && span in s.spans && s.spans[span].pending != []
    ensures s.spans[span].pending[0] in s.fates
  {
    assert s.spans[span].pending[0] in s.spans[span].pending;
  }

  /** Writing a guarded span's endpoints. */
  lemma WrittenPlaces(s: State, a: nat, span: nat)
    requires PlacesOk(s) && a < |s.pcs| && InHand(s.pcs[a]) == [] && span in s.spans
    ensures var emptied := s.(spans := s.spans[span := s.spans[span].(pending := [])]);
            PlacesOk(Go(Write(emptied, span, s.spans[span].pending), a, Idle))
  {
    var pending := s.spans[span].pending;
    var s' := Go(Write(s.(spans := s.spans[span := s.spans[span].(pending := [])]), span, pending), a, Idle);
    SettledFates(s.fates, pending, Emitted);
    assert forall e :: e in pending ==> e in s.fates && s.fates[e] == Waiting(span);
    forall other, e | other in s'.spans
      ensures e in s'.spans[other].pending <==> e in s'.fates && s'.fates[e] == Waiting(other)
    {
      assert e in s.spans[other].pending <==> e in s.fates && s.fates[e] == Waiting(other);
    }
    SettledHands(s, s', a, pending);
    assert forall other :: other in s'.spans ==> Distinct(s'.spans[other].pending);
  }

  /** Nobody else carries an endpoint that was waiting on a span. */
  lemma SettledHands(s: State, s': State, a: nat, endpoints: seq<Endpoint>)
    requires PlacesOk(s) && a < |s.pcs| && InHand(s.pcs[a]) == [] && s'.pcs == s.pcs[a := Idle]
    requires s'.fates == Settled(s.fates, endpoints, Emitted)
    requires forall e :: e in endpoints ==> e in s.fates && s.fates[e].Waiting?
    ensures forall b: nat, e :: b < |s'.pcs| ==>
        (e in InHand(s'.pcs[b]) <==> e in s'.fates && s'.fates[e] == Carried(b))
    ensures forall b: nat :: b < |s'.pcs| ==> Distinct(InHand(s'.pcs[b]))
    ensures forall e :: e in s'.fates && s'.fates[e].Carried? ==> s'.fates[e].actor < |s'.pcs|
  {
    SettledFates(s.fates, endpoints, Emitted);
    forall b: nat, e | b < |s'.pcs|
      ensures e in InHand(s'.pcs[b]) <==> e in s'.fates && s'.fates[e] == Carried(b)
    {
      assert e in InHand(s.pcs[b]) <==> e in s.fates && s.fates[e] == Carried(b);
    }
  }

  lemma WrittenOnce(s: State, span: nat, endpoints: seq<Endpoint>)
    requires WrittenOk(s) && Distinct(endpoints)
    requires forall e :: e in endpoints ==> e in s.fates && s.fates[e] != Emitted
    ensures WrittenOk(Write(s, span, endpoints))
  {
    SettledFates(s.fates, endpoints, Emitted);
    forall e
      ensures Count(Write(s, span, endpoints).written, e) == if e in Write(s, span, endpoints).fates
              && Write(s, span, endpoints).fates[e] == Emitted then 1 else 0
    {
      CountBy(s.written, span, endpoints, e);
    }
  }

  /** The endpoints belong to the span that writes them. */
  ghost predicate OwnedBy(s: State, span: nat, endpoints: seq<Endpoint>) {
    forall e :: e in endpoints ==> e in s.owners && s.owners[e] == span && e in s.fates
  }

  lemma WrittenOwners(s: State, s': State, a: nat, span: nat, endpoints: seq<Endpoint>)
    requires OwnersOk(s) && OwnedBy(s, span, endpoints) && a < |s.pcs| && s'.pcs == s.pcs[a := Idle]
    requires s'.owners == s.owners && s'.written == s.written + By(span, endpoints)
    requires s'.fates == Settled(s.fates, endpoints, Emitted)
    requires s'.lossy == s.lossy
    ensures OwnersOk(s')
  {
    SettledFates(s.fates, endpoints, Emitted);
    forall i: nat | i < |s'.written|
      ensures s'.written[i].1 in s'.owners && s'.written[i].0 == s'.owners[s'.written[i].1]
    {
      if i < |s.written| {
        assert s.written[i].1 in s.owners;
      } else {
        assert s'.written[i] == (span, endpoints[i - |s.written|]);
        assert endpoints[i - |s.written|] in endpoints;
      }
    }
    forall b: nat, e | b < |s'.pcs| && e in InHand(s'.pcs[b])
      ensures e in s'.owners && s'.owners[e] == s'.pcs[b].span
    {
      assert e in InHand(s.pcs[b]);
    }
  }

  /** Freshness, the flag, skipping and births do not mind endpoints being settled. */
  lemma SettledRest(s: State, s': State, a: nat, endpoints: seq<Endpoint>, fate: Where)
    requires FreshOk(s) && FlagOk(s) && SkipsOk(s) && BornOk(s) && a < |s.pcs| && s'.pcs == s.pcs[a := Idle]
    requires s'.fates == Settled(s.fates, endpoints, fate) && forall e :: e in endpoints ==> e in s.fates
    requires s'.flag == s.flag && s'.nextFlow == s.nextFlow && s'.owners == s.owners && s'.born == s.born
    requires s'.threadSlices == s.threadSlices
    requires s'.spans.Keys == s.spans.Keys
    requires forall span :: span in s.spans ==>
        s'.spans[span].pending == s.spans[span].pending || s'.spans[span].pending == []
    ensures FreshOk(s') && FlagOk(s') && SkipsOk(s') && BornOk(s')
  {
    SettledFates(s.fates, endpoints, fate);
    SettledFresh(s, s', a);
    assert s.fates == map[] ==> s'.fates == map[];
  }

  lemma SettledFresh(s: State, s': State, a: nat)
    requires FreshOk(s) && a < |s.pcs| && s'.pcs == s.pcs[a := Idle] && s'.nextFlow == s.nextFlow
    requires s'.fates.Keys == s.fates.Keys
    ensures FreshOk(s')
  {
    assert forall e :: e in s'.fates <==> e in s.fates;
  }

  lemma LoadedKeeps(s: State, a: nat, span: nat, boundary: Boundary, includes: bool, acquired: bool)
    requires Inv(s) && a < |s.pcs| && s.pcs[a] == Loaded(span, boundary, includes)
    ensures Inv(Step(s, a, s.pcs[a], acquired))
  {
    if includes {
      var pending := s.spans[span].pending;
      var emptied := s.(spans := s.spans[span := s.spans[span].(pending := [])]);
      var s' := Go(Write(emptied, span, pending), a, Idle);
      assert forall e :: e in pending ==> e in s.fates && s.fates[e] == Waiting(span);
      WrittenPlaces(s, a, span);
      WrittenOnce(emptied, span, pending);
      WrittenOwners(s, s', a, span, pending);
      SettledRest(s, s', a, pending, Emitted);
    } else {
      GoPlaces(s, a, Idle);
      IdleRest(s, a);
    }
  }

  // ------------------------------------------------------------ closing

  lemma ClosePlaces(s: State, a: nat, span: nat)
    requires PlacesOk(s) && a < |s.pcs| && s.pcs[a] == Idle && span in s.spans
    ensures var state := s.spans[span];
            PlacesOk(Go(s.(spans := s.spans - {span}, fates := Settled(s.fates, state.pending, Carried(a))), a,
                        Closing(span, state.track, state.pending)))
  {
    var pending := s.spans[span].pending;
    var s' := Go(s.(spans := s.spans - {span}, fates := Settled(s.fates, pending, Carried(a))), a,
                 Closing(span, s.spans[span].track, pending));
    SettledFates(s.fates, pending, Carried(a));
    assert forall e :: e in pending <==> e in s.fates && s.fates[e] == Waiting(span);
    assert InHand(s.pcs[a]) == [];
    TakenWaiting(s, s', a, span);
    TakenHands(s, s', a, span);
  }

  /** What waited on the span is in the callback's hand; everything else stays where it was. */
  ghost predicate HandTaken(s: State, s': State, a: nat, span: nat) {
    && a < |s.pcs| == |s'.pcs| && s'.pcs == s.pcs[a := s'.pcs[a]] && span in s.spans && s'.spans == s.spans - {span}
    && InHand(s.pcs[a]) == [] && InHand(s'.pcs[a]) == s.spans[span].pending
    && (forall e :: e in s'.fates <==> e in s.fates)
    && (forall e :: e in s.fates ==>
          s'.fates[e] == if s.fates[e] == Waiting(span) then Carried(a) else s.fates[e])
  }

  lemma TakenWaiting(s: State, s': State, a: nat, span: nat)
    requires PlacesOk(s) && HandTaken(s, s', a, span)
    ensures forall other, e :: other in s'.spans ==>
              (e in s'.spans[other].pending <==> e in s'.fates && s'.fates[e] == Waiting(other))
    ensures forall other :: other in s'.spans ==> Distinct(s'.spans[other].pending)
    ensures forall e :: e in s'.fates && s'.fates[e].Waiting? ==> s'.fates[e].span in s'.spans
  {
    forall other, e | other in s'.spans
      ensures e in s'.spans[other].pending <==> e in s'.fates && s'.fates[e] == Waiting(other)
    {
      assert e in s.spans[other].pending <==> e in s.fates && s.fates[e] == Waiting(other);
    }
  }

  lemma TakenHands(s: State, s': State, a: nat, span: nat)
    requires PlacesOk(s) && HandTaken(s, s', a, span)
    ensures forall b: nat, e :: b < |s'.pcs| ==>
              (e in InHand(s'.pcs[b]) <==> e in s'.fates && s'.fates[e] == Carried(b))
    ensures forall b: nat :: b < |s'.pcs| ==> Distinct(InHand(s'.pcs[b]))
    ensures forall e :: e in s'.fates && s'.fates[e].Carried? ==> s'.fates[e].actor < |s'.pcs|
  {
    forall b: nat, e | b < |s'.pcs|
      ensures e in InHand(s'.pcs[b]) <==> e in s'.fates && s'.fates[e] == Carried(b)
    {
      assert e in InHand(s.pcs[b]) <==> e in s.fates && s.fates[e] == Carried(b);
      assert e in s.spans[span].pending <==> e in s.fates && s.fates[e] == Waiting(span);
    }
  }

  lemma CloseOwners(s: State, a: nat, span: nat)
    requires OwnersOk(s) && PlacesOk(s) && WrittenOk(s) && a < |s.pcs| && s.pcs[a] == Idle && span in s.spans
    ensures var state := s.spans[span];
            var s' := Go(s.(spans := s.spans - {span}, fates := Settled(s.fates, state.pending, Carried(a))), a,
                         Closing(span, state.track, state.pending));
            OwnersOk(s') && WrittenOk(s')
  {
    var pending := s.spans[span].pending;
    SettledFates(s.fates, pending, Carried(a));
    assert forall e :: e in pending ==> e in s.fates && s.fates[e] == Waiting(span);
  }

  lemma CloseRest(s: State, a: nat, span: nat)
    requires FreshOk(s) && FlagOk(s) && SkipsOk(s) && BornOk(s) && PlacesOk(s)
    requires a < |s.pcs| && s.pcs[a] == Idle && span in s.spans && Unguarded(s, span)
    ensures var state := s.spans[span];
            var s' := Go(s.(spans := s.spans - {span}, fates := Settled(s.fates, state.pending, Carried(a))), a,
                         Closing(span, state.track, state.pending));
            FreshOk(s') && FlagOk(s') && SkipsOk(s') && BornOk(s')
  {
    var pending := s.spans[span].pending;
    var s' := Go(s.(spans := s.spans - {span}, fates := Settled(s.fates, pending, Carried(a))), a,
                 Closing(span, s.spans[span].track, pending));
    SettledFates(s.fates, pending, Carried(a));
    assert forall e :: e in pending ==> e in s.fates;
    assert s'.fates.Keys == s.fates.Keys;
    ClosedFresh(s, s', a);
    ClosedSkips(s, s', a, span);
  }

  lemma ClosedFresh(s: State, s': State, a: nat)
    requires FreshOk(s) && FlagOk(s) && a < |s.pcs| == |s'.pcs| && s'.pcs == s.pcs[a := s'.pcs[a]] && s'.pcs[a].Closing?
    requires s'.nextFlow == s.nextFlow && s'.fates.Keys == s.fates.Keys && s'.flag == s.flag
    ensures FreshOk(s') && FlagOk(s')
  {
    assert forall e :: e in s'.fates <==> e in s.fates;
    if s'.fates != map[] {
      assert s.fates != map[];
    }
  }

  lemma ClosedSkips(s: State, s': State, a: nat, span: nat)
    requires SkipsOk(s) && BornOk(s) && a < |s.pcs| == |s'.pcs| && s'.pcs == s.pcs[a := s'.pcs[a]] && s'.pcs[a].Closing?
    requires s'.pcs[a].span == span
    requires span in s.spans && Unguarded(s, span) && s'.spans == s.spans - {span} && s'.threadSlices == s.threadSlices
    requires s'.owners == s.owners && s'.born == s.born
    ensures SkipsOk(s') && BornOk(s')
  {
    forall b: nat | b < |s'.pcs| && (s'.pcs[b].Guarding? || s'.pcs[b].Loaded?)
      ensures s'.pcs[b].span in s'.spans
    {
      assert !Holds(s.pcs[b], span);
    }
  }

  /** Dropping the endpoints of a span that cannot write them. */
  lemma DroppedPlaces(s: State, a: nat, pending: seq<Endpoint>, fate: Where)
    requires PlacesOk(s) && a < |s.pcs| && InHand(s.pcs[a]) == pending && (fate == Emitted || fate == Dropped)
    ensures PlacesOk(Go(s.(fates := Settled(s.fates, pending, fate)), a, Idle))
  {
    var s' := Go(s.(fates := Settled(s.fates, pending, fate)), a, Idle);
    SettledFates(s.fates, pending, fate);
    assert forall e :: e in pending <==> e in s.fates && s.fates[e] == Carried(a);
    DroppedWaiting(s, s', a);
    DroppedHands(s, s', a);
  }

  /** What the callback carried is settled; everything else stays where it was. */
  ghost predicate HandSettled(s: State, s': State, a: nat) {
    && a < |s.pcs| && s'.pcs == s.pcs[a := Idle] && s'.spans == s.spans
    && (forall e :: e in s'.fates <==> e in s.fates)
    && (forall e :: e in s.fates ==>
          if s.fates[e] == Carried(a) then s'.fates[e] == Emitted || s'.fates[e] == Dropped
          else s'.fates[e] == s.fates[e])
  }

  lemma DroppedWaiting(s: State, s': State, a: nat)
    requires PlacesOk(s) && HandSettled(s, s', a)
    ensures forall span, e :: span in s'.spans ==>
              (e in s'.spans[span].pending <==> e in s'.fates && s'.fates[e] == Waiting(span))
    ensures forall span :: span in s'.spans ==> Distinct(s'.spans[span].pending)
    ensures forall e :: e in s'.fates && s'.fates[e].Waiting? ==> s'.fates[e].span in s'.spans
  {
    forall span, e | span in s'.spans
      ensures e in s'.spans[span].pending <==> e in s'.fates && s'.fates[e] == Waiting(span)
    {
      assert e in s.spans[span].pending <==> e in s.fates && s.fates[e] == Waiting(span);
    }
  }

  lemma DroppedHands(s: State, s': State, a: nat)
    requires PlacesOk(s) && HandSettled(s, s', a)
    ensures forall b: nat, e :: b < |s'.pcs| ==>
              (e in InHand(s'.pcs[b]) <==> e in s'.fates && s'.fates[e] == Carried(b))
    ensures forall b: nat :: b < |s'.pcs| ==> Distinct(InHand(s'.pcs[b]))
    ensures forall e :: e in s'.fates && s'.fates[e].Carried? ==> s'.fates[e].actor < |s'.pcs|
  {
    forall b: nat, e | b < |s'.pcs|
      ensures e in InHand(s'.pcs[b]) <==> e in s'.fates && s'.fates[e] == Carried(b)
    {
      assert e in InHand(s.pcs[b]) <==> e in s.fates && s.fates[e] == Carried(b);
    }
  }

  lemma SamePlaces(s: State, s': State)
    requires PlacesOk(s) && s'.spans == s.spans && s'.pcs == s.pcs && s'.fates == s.fates
    ensures PlacesOk(s')
  {
  }

  lemma ClosingKeeps(s: State, a: nat, span: nat, track: bool, pending: seq<Endpoint>, acquired: bool)
    requires Inv(s) && a < |s.pcs| && s.pcs[a] == Closing(span, track, pending)
    ensures Inv(Step(s, a, s.pcs[a], acquired))
  {
    assert InHand(s.pcs[a]) == pending;
    if track && acquired {
      ClosingWrites(s, a, span, pending);
    } else {
      ClosingDrops(s, a, span, pending);
    }
  }

  lemma CarriedOwned(s: State, a: nat, span: nat, pending: seq<Endpoint>)
    requires PlacesOk(s) && OwnersOk(s) && a < |s.pcs| && s.pcs[a].Closing? && s.pcs[a].span == span
    requires InHand(s.pcs[a]) == pending
    ensures forall e :: e in pending ==>
        e in s.fates && s.fates[e] == Carried(a) && e in s.owners && s.owners[e] == span
  {
  }

  lemma ClosingWrites(s: State, a: nat, span: nat, pending: seq<Endpoint>)
    requires Inv(s) && a < |s.pcs| && s.pcs[a].Closing? && s.pcs[a].span == span && InHand(s.pcs[a]) == pending
    ensures Inv(Go(Write(s, span, pending), a, Idle))
  {
    var s' := Go(Write(s, span, pending), a, Idle);
    CarriedOwned(s, a, span, pending);
    DroppedPlaces(s, a, pending, Emitted);
    SamePlaces(Go(s.(fates := Settled(s.fates, pending, Emitted)), a, Idle), s');
    WrittenOnce(s, span, pending);
    WrittenOwners(s, s', a, span, pending);
    SettledRest(s, s', a, pending, Emitted);
  }

  lemma ClosingDrops(s: State, a: nat, span: nat, pending: seq<Endpoint>)
    requires Inv(s) && a < |s.pcs| && s.pcs[a].Closing? && s.pcs[a].span == span && InHand(s.pcs[a]) == pending
    ensures Inv(Go(s.(fates := Settled(s.fates, pending, Dropped), lossy := s.lossy + {span}), a, Idle))
  {
    var s' := Go(s.(fates := Settled(s.fates, pending, Dropped), lossy := s.lossy + {span}), a, Idle);
    CarriedOwned(s, a, span, pending);
    DroppedPlaces(s, a, pending, Dropped);
    SamePlaces(Go(s.(fates := Settled(s.fates, pending, Dropped)), a, Idle), s');
    DroppedOwners(s, a, span, pending);
    SettledRest(s, s', a, pending, Dropped);
  }

  lemma DroppedOwners(s: State, a: nat, span: nat, pending: seq<Endpoint>)
    requires OwnersOk(s) && WrittenOk(s) && a < |s.pcs|
    requires forall e :: e in pending ==> e in s.fates && s.fates[e] == Carried(a) && s.owners[e] == span
    ensures var s' := Go(s.(fates := Settled(s.fates, pending, Dropped), lossy := s.lossy + {span}), a, Idle);
            OwnersOk(s') && WrittenOk(s')
  {
    var s' := Go(s.(fates := Settled(s.fates, pending, Dropped), lossy := s.lossy + {span}), a, Idle);
    SettledFates(s.fates, pending, Dropped);
    forall b: nat, e | b < |s'.pcs| && e in InHand(s'.pcs[b])
      ensures e in s'.owners && s'.owners[e] == s'.pcs[b].span
    {
      assert e in InHand(s.pcs[b]);
    }
  }

  // ------------------------------------------------------------ the rest, and every run

  lemma NewSpanKeeps(s: State, span: nat, track: bool)
    requires Inv(s) && span !in s.born
    ensures Inv(s.(spans := s.spans[span := Span(track, [])], born := s.born + {span}))
  {
    var s' := s.(spans := s.spans[span := Span(track, [])], born := s.born + {span});
    NewSpanPlaces(s, s', span, track);
    NewSpanSkips(s, s', span, track);
    NewSpanRest(s, s', span, track);
  }

  lemma NewSpanRest(s: State, s': State, span: nat, track: bool)
    requires WrittenOk(s) && OwnersOk(s) && FreshOk(s) && FlagOk(s)
    requires s' == s.(spans := s.spans[span := Span(track, [])], born := s.born + {span})
    ensures WrittenOk(s') && OwnersOk(s') && FreshOk(s') && FlagOk(s')
  {
  }

  lemma NewSpanPlaces(s: State, s': State, span: nat, track: bool)
    requires PlacesOk(s) && span !in s.spans && s'.spans == s.spans[span := Span(track, [])] && s'.pcs == s.pcs
    requires s'.fates == s.fates
    ensures PlacesOk(s')
  {
  }

  lemma NewSpanSkips(s: State, s': State, span: nat, track: bool)
    requires SkipsOk(s) && BornOk(s) && span !in s.born && s'.spans == s.spans[span := Span(track, [])]
    requires s'.pcs == s.pcs
    requires s'.threadSlices == s.threadSlices && s'.owners == s.owners && s'.born == s.born + {span}
    ensures SkipsOk(s') && BornOk(s')
  {
  }

  /** A callback that touches neither endpoints nor flows. */
  lemma PlainOwners(s: State, s': State, a: nat)
    requires OwnersOk(s) && a < |s.pcs| == |s'.pcs| && s'.pcs == s.pcs[a := s'.pcs[a]] && InHand(s'.pcs[a]) == []
    requires s'.owners == s.owners && s'.fates == s.fates && s'.written == s.written && s'.lossy == s.lossy
    ensures OwnersOk(s')
  {
    forall b: nat, e | b < |s'.pcs| && e in InHand(s'.pcs[b])
      ensures e in s'.owners && s'.owners[e] == s'.pcs[b].span
    {
      assert e in InHand(s.pcs[b]);
    }
  }

  lemma PlainSkips(s: State, s': State, a: nat)
    requires SkipsOk(s) && BornOk(s) && a < |s.pcs| == |s'.pcs| && s'.pcs == s.pcs[a := s'.pcs[a]]
    requires !s'.pcs[a].Loaded? && !s'.pcs[a].Closing?
    requires (s'.pcs[a].Guarding? ==> s'.pcs[a].span in s.spans && Unguarded(s, s'.pcs[a].span))
    requires s'.spans == s.spans && s'.threadSlices == s.threadSlices && s'.owners == s.owners && s'.born == s.born
    ensures SkipsOk(s') && BornOk(s')
  {
    forall b: nat, c: nat | b < |s'.pcs| && c < |s'.pcs| && b != c && (s'.pcs[b].Guarding? || s'.pcs[b].Loaded?)
      ensures !Holds(s'.pcs[c], s'.pcs[b].span)
    {
      assert c != a ==> !Holds(s.pcs[c], s'.pcs[b].span) || b != a;
      if b == a {
        assert !Holds(s.pcs[c], s'.pcs[a].span);
      } else if c == a && s'.pcs[a].Guarding? {
        assert !Holds(s.pcs[b], s'.pcs[a].span);
      }
    }
  }

  lemma FollowKeeps(s: State, a: nat, dependent: nat, predecessor: nat)
    requires Inv(s) && a < |s.pcs| && s.pcs[a] == Idle
    ensures Inv(BeginFollow(s, a, dependent, predecessor))
  {
    FollowPlaces(s, a, dependent, predecessor);
    FollowFresh(s, a, dependent, predecessor);
    FollowRest(s, a, dependent, predecessor);
  }

  lemma FollowPlaces(s: State, a: nat, dependent: nat, predecessor: nat)
    requires PlacesOk(s) && WrittenOk(s) && a < |s.pcs| && s.pcs[a] == Idle
    ensures PlacesOk(BeginFollow(s, a, dependent, predecessor)) && WrittenOk(BeginFollow(s, a, dependent, predecessor))
  {
    var s1 := s.(flag := true, nextFlow := s.nextFlow + 1);
    SamePlaces(s, s1);
    GoPlaces(s1, a, Starting(s.nextFlow, predecessor, dependent));
  }

  lemma FollowRest(s: State, a: nat, dependent: nat, predecessor: nat)
    requires OwnersOk(s) && SkipsOk(s) && BornOk(s) && a < |s.pcs| && s.pcs[a] == Idle
    ensures var s' := BeginFollow(s, a, dependent, predecessor); OwnersOk(s') && SkipsOk(s') && BornOk(s')
  {
    PlainOwners(s, BeginFollow(s, a, dependent, predecessor), a);
    PlainSkips(s, BeginFollow(s, a, dependent, predecessor), a);
  }

  lemma FollowFresh(s: State, a: nat, dependent: nat, predecessor: nat)
    requires FreshOk(s) && FlagOk(s) && a < |s.pcs| && s.pcs[a] == Idle
    ensures FreshOk(BeginFollow(s, a, dependent, predecessor)) && FlagOk(BeginFollow(s, a, dependent, predecessor))
  {
    var s' := BeginFollow(s, a, dependent, predecessor);
    assert Start(s.nextFlow) !in s.fates && Terminate(s.nextFlow) !in s.fates;
    forall b: nat | b < |s'.pcs| && FlowOf(s'.pcs[b]).Some? && b != a
      ensures FlowOf(s'.pcs[b]).value < s.nextFlow
    {
    }
  }

  lemma ReachKeeps(s: State, a: nat, span: nat, boundary: Boundary)
    requires Inv(s) && a < |s.pcs| && s.pcs[a] == Idle && span in s.spans && Unguarded(s, span)
    ensures Inv(Go(s, a, Guarding(span, boundary)))
  {
    var s' := Go(s, a, Guarding(span, boundary));
    GoPlaces(s, a, Guarding(span, boundary));
    PlainOwners(s, s', a);
    PlainSkips(s, s', a);
    ReachFresh(s, a, span, boundary);
  }

  lemma ReachFresh(s: State, a: nat, span: nat, boundary: Boundary)
    requires FreshOk(s) && FlagOk(s) && a < |s.pcs| && s.pcs[a] == Idle
    ensures FreshOk(Go(s, a, Guarding(span, boundary))) && FlagOk(Go(s, a, Guarding(span, boundary)))
  {
  }

  lemma CloseKeeps(s: State, l: Label)
    requires Inv(s) && Enabled(s, l) && l.action.Close?
    ensures Inv(Apply(s, l))
  {
    ClosePlaces(s, l.actor, l.action.span);
    CloseOwners(s, l.actor, l.action.span);
    CloseRest(s, l.actor, l.action.span);
  }

  lemma StepKeeps(s: State, l: Label)
    requires Inv(s) && Enabled(s, l)
    ensures Inv(Apply(s, l))
  {
    if l.action.Advance? {
      AdvanceKeeps(s, l.actor, l.action.acquired);
    } else if l.action.Close? {
      CloseKeeps(s, l);
    } else if l.action.NewSpan? {
      BornKeeps(s, l);
    } else if l.action.AllocatePoll? {
      AllocatingKeeps(s, l);
    } else if l.action.Follow? {
      FollowingKeeps(s, l);
    } else {
      ReachingKeeps(s, l);
    }
  }

  lemma BornKeeps(s: State, l: Label)
    requires Inv(s) && Enabled(s, l) && l.action.NewSpan?
    ensures Inv(Apply(s, l))
  {
    NewSpanKeeps(s, l.action.span, l.action.track);
  }

  lemma AllocatingKeeps(s: State, l: Label)
    requires Inv(s) && Enabled(s, l) && l.action.AllocatePoll?
    ensures Inv(Apply(s, l))
  {
    AllocatedKeeps(s, Apply(s, l));
  }

  lemma AllocatedKeeps(s: State, s': State)
    requires Inv(s) && s' == s.(nextFlow := s.nextFlow + 1)
    ensures Inv(s')
  {
    SamePlaces(s, s');
    AllocatedFresh(s, s');
    AllocatedSkips(s, s');
  }

  lemma AllocatedFresh(s: State, s': State)
    requires FreshOk(s) && OwnersOk(s) && s' == s.(nextFlow := s.nextFlow + 1)
    ensures FreshOk(s') && OwnersOk(s')
  {
  }

  lemma AllocatedSkips(s: State, s': State)
    requires SkipsOk(s) && WrittenOk(s) && s' == s.(nextFlow := s.nextFlow + 1)
    ensures SkipsOk(s') && WrittenOk(s')
  {
  }

  lemma FollowingKeeps(s: State, l: Label)
    requires Inv(s) && Enabled(s, l) && l.action.Follow?
    ensures Inv(Apply(s, l))
  {
    FollowKeeps(s, l.actor, l.action.dependent, l.action.predecessor);
  }

  lemma ReachingKeeps(s: State, l: Label)
    requires Inv(s) && Enabled(s, l) && l.action.Reach?
    ensures Inv(Apply(s, l))
  {
    ReachKeeps(s, l.actor, l.action.span, l.action.boundary);
  }

  lemma AdvanceKeeps(s: State, a: nat, acquired: bool)
    requires Inv(s) && Enabled(s, Label(a, Advance(acquired)))
    ensures Inv(Step(s, a, s.pcs[a], acquired))
  {
    match s.pcs[a]
    case Starting(flow, predecessor, dependent) => StartingKeeps(s, a, flow, predecessor, dependent);
    case Terminating(flow, dependent) => TerminatingKeeps(s, a, flow, dependent);
    case Guarding(span, boundary) => GuardingKeeps(s, a, span, boundary);
    case Loaded(span, boundary, includes) => LoadedKeeps(s, a, span, boundary, includes, acquired);
    case Closing(span, track, pending) => ClosingKeeps(s, a, span, track, pending, acquired);
  }

  lemma InitialHolds(threadSlices: bool, gated: bool, actors: nat)
    ensures Inv(Initial(threadSlices, gated, actors))
  {
  }

  lemma {:induction false} RunKeeps(s: State, labels: seq<Label>)
    requires Inv(s)
    ensures Inv(Run(s, labels))
    decreases |labels|
  {
    if labels != [] && Enabled(s, labels[0]) {
      StepKeeps(s, labels[0]);
      RunKeeps(Apply(s, labels[0]), labels[1..]);
    }
  }

  // ------------------------------------------------------------ main results

  /** A span's instance is over: it has no state and nobody is closing it. */
  predicate Over(s: State, span: nat) {
    span !in s.spans && forall a: nat :: a < |s.pcs| ==> !(s.pcs[a].Closing? && s.pcs[a].span == span)
  }

  /**
   In every interleaving: a queued endpoint is never written twice, and only by the span
   it was queued on. Once that span is over, it has been written exactly once, if and
   only if it was not dropped; and it is dropped only if the span closed without a
   lifetime track or without a context.
   */
  lemma EndpointsAreDeliveredOnce(s: State, threadSlices: bool, gated: bool, actors: nat, labels: seq<Label>,
                                  e: Endpoint)
    requires s == Run(Initial(threadSlices, gated, actors), labels) && e in s.owners
    ensures Count(s.written, e) <= 1 && e in s.fates
    ensures forall i: nat :: i < |s.written| && s.written[i].1 == e ==> s.written[i].0 == s.owners[e]
    ensures Over(s, s.owners[e]) ==> (Count(s.written, e) == 1 <==> s.fates[e] != Dropped)
    ensures Over(s, s.owners[e]) && s.owners[e] !in s.lossy ==> Count(s.written, e) == 1
  {
    InitialHolds(threadSlices, gated, actors);
    RunKeeps(Initial(threadSlices, gated, actors), labels);
    if s.fates[e].Carried? {
      var a := s.fates[e].actor;
      assert e in InHand(s.pcs[a]);
      assert s.owners[e] == s.pcs[a].span;
    }
  }

  // ------------------------------------------------------------ the fast path is invisible

  /** What remains of a program counter when the gate's answer is forgotten. */
  function Forgotten(threadSlices: bool, pc: Pc): Pc {
    match pc
    case Loaded(span, boundary, _) => Loaded(span, boundary, boundary.Entering? || threadSlices)
    case _ => pc
  }

  /** Two layers, with and without the gate, are in the same state but for it. */
  ghost predicate Alike(s: State, t: State) {
    && s.threadSlices == t.threadSlices && s.spans == t.spans && s.nextFlow == t.nextFlow && s.born == t.born
    && s.fates == t.fates && s.owners == t.owners && s.written == t.written && s.lossy == t.lossy
    && |s.pcs| == |t.pcs|
    && forall a: nat :: a < |s.pcs| ==> Forgotten(s.threadSlices, s.pcs[a]) == Forgotten(t.threadSlices, t.pcs[a])
  }

  lemma AlikeEnabled(s: State, t: State, l: Label)
    requires Alike(s, t)
    ensures Enabled(s, l) <==> Enabled(t, l)
  {
    forall b: nat, span: nat | b < |s.pcs|
      ensures Holds(s.pcs[b], span) <==> Holds(t.pcs[b], span)
    {
      assert Forgotten(s.threadSlices, s.pcs[b]) == Forgotten(t.threadSlices, t.pcs[b]);
    }
    assert forall span: nat :: Unguarded(s, span) <==> Unguarded(t, span);
    if l.actor < |s.pcs| {
      assert Forgotten(s.threadSlices, s.pcs[l.actor]) == Forgotten(t.threadSlices, t.pcs[l.actor]);
    }
  }

  lemma WritingNothing(s: State, span: nat)
    requires span in s.spans && s.spans[span].pending == []
    ensures Write(s.(spans := s.spans[span := s.spans[span].(pending := [])]), span, []) == s
  {
    assert s.written + By(span, []) == s.written;
    assert Settled(s.fates, [], Emitted) == s.fates;
  }

  /** A boundary acts as if the gate had been open. */
  lemma LoadedAsIfOpen(s: State, a: nat, acquired: bool)
    requires SkipsOk(s) && a < |s.pcs| && s.pcs[a].Loaded?
    ensures Step(s, a, s.pcs[a], acquired) == Step(s, a, Forgotten(s.threadSlices, s.pcs[a]), acquired)
  {
    if Consults(s, s.pcs[a].boundary) && !s.pcs[a].includes {
      WritingNothing(s, s.pcs[a].span);
    }
  }

  lemma AlikeGo(s: State, t: State, a: nat, pc: Pc, pc': Pc)
    requires Alike(s, t) && a < |s.pcs| && Forgotten(s.threadSlices, pc) == Forgotten(t.threadSlices, pc')
    ensures Alike(Go(s, a, pc), Go(t, a, pc'))
  {
  }

  lemma AlikeStarting(s: State, t: State, a: nat, flow: nat, predecessor: nat, dependent: nat)
    requires Alike(s, t) && a < |s.pcs|
    ensures Alike(QueueStart(s, a, flow, predecessor, dependent), QueueStart(t, a, flow, predecessor, dependent))
  {
    if predecessor in s.spans {
      AlikeGo(Queue(s, predecessor, Start(flow)), Queue(t, predecessor, Start(flow)), a,
              Terminating(flow, dependent), Terminating(flow, dependent));
    } else {
      AlikeGo(s, t, a, Idle, Idle);
    }
  }

  lemma AlikeTerminating(s: State, t: State, a: nat, flow: nat, dependent: nat)
    requires Alike(s, t) && a < |s.pcs|
    ensures Alike(QueueTerminate(s, a, flow, dependent), QueueTerminate(t, a, flow, dependent))
  {
    AlikeGo(Queue(s, dependent, Terminate(flow)), Queue(t, dependent, Terminate(flow)), a, Idle, Idle);
  }

  lemma AlikeClosing(s: State, t: State, a: nat, span: nat, track: bool, pending: seq<Endpoint>, acquired: bool)
    requires Alike(s, t) && a < |s.pcs|
    ensures Alike(FinishClose(s, a, span, track, pending, acquired), FinishClose(t, a, span, track, pending, acquired))
  {
    if track && acquired {
      AlikeGo(Write(s, span, pending), Write(t, span, pending), a, Idle, Idle);
    } else {
      AlikeGo(s.(fates := Settled(s.fates, pending, Dropped), lossy := s.lossy + {span}),
              t.(fates := Settled(t.fates, pending, Dropped), lossy := t.lossy + {span}), a, Idle, Idle);
    }
  }

  lemma AlikeGuarding(s: State, t: State, a: nat, span: nat, boundary: Boundary)
    requires Alike(s, t) && a < |s.pcs|
    ensures Alike(LoadFlag(s, a, span, boundary), LoadFlag(t, a, span, boundary))
  {
    AlikeGo(s, t, a, Loaded(span, boundary, Consults(s, boundary) && (s.gated ==> s.flag)),
            Loaded(span, boundary, Consults(t, boundary) && (t.gated ==> t.flag)));
  }

  lemma AlikeLoaded(s: State, t: State, a: nat, acquired: bool)
    requires SkipsOk(s) && SkipsOk(t) && Alike(s, t) && a < |s.pcs| && s.pcs[a].Loaded? && t.pcs[a].Loaded?
    requires Forgotten(s.threadSlices, s.pcs[a]) == Forgotten(t.threadSlices, t.pcs[a])
    ensures Alike(Step(s, a, s.pcs[a], acquired), Step(t, a, t.pcs[a], acquired))
  {
    LoadedAsIfOpen(s, a, acquired);
    LoadedAsIfOpen(t, a, acquired);
    AlikeOpen(s, t, a, s.pcs[a].span, s.pcs[a].boundary.Entering? || s.threadSlices);
  }

  lemma AlikeOpen(s: State, t: State, a: nat, span: nat, includes: bool)
    requires Alike(s, t) && a < |s.pcs|
    ensures Alike(WriteBoundary(s, a, span, includes), WriteBoundary(t, a, span, includes))
  {
    if includes && span in s.spans {
      var pending := s.spans[span].pending;
      AlikeGo(Write(s.(spans := s.spans[span := s.spans[span].(pending := [])]), span, pending),
              Write(t.(spans := t.spans[span := t.spans[span].(pending := [])]), span, pending), a, Idle, Idle);
    } else {
      AlikeGo(s, t, a, Idle, Idle);
    }
  }

  lemma AlikeStep(s: State, t: State, a: nat, acquired: bool)
    requires SkipsOk(s) && SkipsOk(t) && Alike(s, t) && a < |s.pcs|
    ensures Alike(Step(s, a, s.pcs[a], acquired), Step(t, a, t.pcs[a], acquired))
  {
    assert Forgotten(s.threadSlices, s.pcs[a]) == Forgotten(t.threadSlices, t.pcs[a]);
    match s.pcs[a]
    case Loaded(_, _, _) => AlikeLoaded(s, t, a, acquired);
    case Guarding(span, boundary) => AlikeGuarding(s, t, a, span, boundary);
    case Starting(flow, predecessor, dependent) => AlikeStarting(s, t, a, flow, predecessor, dependent);
    case Terminating(flow, dependent) => AlikeTerminating(s, t, a, flow, dependent);
    case Closing(span, track, pending) => AlikeClosing(s, t, a, span, track, pending, acquired);
    case Idle =>
  }

  lemma AlikeClose(s: State, t: State, a: nat, span: nat)
    requires Alike(s, t) && a < |s.pcs| && span in s.spans
    ensures Alike(BeginClose(s, a, span), BeginClose(t, a, span))
  {
    var state := s.spans[span];
    AlikeGo(s.(spans := s.spans - {span}, fates := Settled(s.fates, state.pending, Carried(a))),
            t.(spans := t.spans - {span}, fates := Settled(t.fates, state.pending, Carried(a))),
            a, Closing(span, state.track, state.pending), Closing(span, state.track, state.pending));
  }

  lemma AlikeBegin(s: State, t: State, l: Label)
    requires Alike(s, t) && Enabled(s, l) && Enabled(t, l) && !l.action.Advance? && !l.action.Close?
    ensures Alike(Apply(s, l), Apply(t, l))
  {
    match l.action
    case NewSpan(_, _) =>
    case AllocatePoll =>
    case Follow(dependent, predecessor) => AlikeFollow(s, t, l.actor, dependent, predecessor);
    case Reach(span, boundary) => AlikeGo(s, t, l.actor, Guarding(span, boundary), Guarding(span, boundary));
  }

  lemma AlikeFollow(s: State, t: State, a: nat, dependent: nat, predecessor: nat)
    requires Alike(s, t) && a < |s.pcs| && a < |t.pcs|
    ensures Alike(BeginFollow(s, a, dependent, predecessor), BeginFollow(t, a, dependent, predecessor))
  {
    AlikeGo(s.(flag := true, nextFlow := s.nextFlow + 1), t.(flag := true, nextFlow := t.nextFlow + 1), a,
            Starting(s.nextFlow, predecessor, dependent), Starting(t.nextFlow, predecessor, dependent));
  }

  lemma AlikeApply(s: State, t: State, l: Label)
    requires Inv(s) && Inv(t) && Alike(s, t) && Enabled(s, l) && Enabled(t, l)
    ensures Alike(Apply(s, l), Apply(t, l))
  {
    if l.action.Advance? {
      AlikeStep(s, t, l.actor, l.action.acquired);
    } else if l.action.Close? {
      AlikeClose(s, t, l.actor, l.action.span);
    } else {
      AlikeBegin(s, t, l);
    }
  }

  lemma {:induction false} AlikeRuns(s: State, t: State, labels: seq<Label>)
    requires Inv(s) && Inv(t) && Alike(s, t)
    ensures Alike(Run(s, labels), Run(t, labels))
    decreases |labels|
  {
    if labels != [] {
      AlikeEnabled(s, t, labels[0]);
      if Enabled(s, labels[0]) {
        StepKeeps(s, labels[0]);
        StepKeeps(t, labels[0]);
        AlikeApply(s, t, labels[0]);
        AlikeRuns(Apply(s, labels[0]), Apply(t, labels[0]), labels[1..]);
      }
    }
  }

  /**
   The gate is invisible: in every interleaving, a layer that consults the flag writes,
   queues and drops exactly what one that always writes and clears its flows does.
   */
  lemma GateIsInvisible(threadSlices: bool, actors: nat, labels: seq<Label>)
    ensures Alike(Run(Initial(threadSlices, true, actors), labels), Run(Initial(threadSlices, false, actors), labels))
  {
    InitialHolds(threadSlices, true, actors);
    InitialHolds(threadSlices, false, actors);
    AlikeRuns(Initial(threadSlices, true, actors), Initial(threadSlices, false, actors), labels);
  }
}
