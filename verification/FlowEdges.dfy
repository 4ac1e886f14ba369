/**
 Flows edge by edge: the history of every `on_follows_from` call, of every close and of
 what boundaries wrote, and exactly which endpoints are delivered.
 */
module FlowEdges {
  import opened Prelude
  import opened Flows
  import opened Ids

  /** One call: its flow, the span it starts from and the span that depends on it. */
  datatype Edge = Edge(flow: nat, predecessor: nat, dependent: nat)

  /**
   A run and its history: the calls in order, the poll flows, which born spans were given a
   lifetime track, whether each closed span had both that and a context, the endpoints some
   boundary has written, and, call by call, whether each end's span had state when the
   call came to queue on it.
   */
  datatype Tracked = Tracked(
    s: State, edges: seq<Edge>, polls: seq<nat>, tracks: map<nat, bool>, closed: map<nat, bool>,
    early: set<Endpoint>, starts: map<nat, bool>, ends: map<nat, bool>)

  function Initially(threadSlices: bool, gated: bool, actors: nat): Tracked {
    Tracked(Initial(threadSlices, gated, actors), [], [], map[], map[], {}, map[], map[])
  }

  /** The endpoints a boundary's step writes. */
  function WrittenBy(s: State, pc: Pc): set<Endpoint> {
    if pc.Loaded? && pc.includes && pc.span in s.spans then set e | e in s.spans[pc.span].pending else {}
  }

  function Track(h: Tracked, l: Label): Tracked
    requires Enabled(h.s, l)
  {
    var s', pc := Apply(h.s, l), h.s.pcs[l.actor];
    match l.action
    case Follow(dependent, predecessor) => h.(s := s', edges := h.edges + [Edge(h.s.nextFlow, predecessor, dependent)])
    case AllocatePoll => h.(s := s', polls := h.polls + [h.s.nextFlow])
    case NewSpan(span, track) => h.(s := s', tracks := h.tracks[span := track])
    case Advance(acquired) => TrackStep(h, pc, s', acquired)
    case _ => h.(s := s')
  }

  function TrackStep(h: Tracked, pc: Pc, s': State, acquired: bool): (h': Tracked)
    ensures h'.s == s' && h'.edges == h.edges && h'.polls == h.polls && h'.tracks == h.tracks
    ensures h'.closed == (if pc.Closing? then h.closed[pc.span := pc.track && acquired] else h.closed)
    ensures h'.early == h.early + WrittenBy(h.s, pc)
    ensures FlowOf(pc).None? ==> h'.starts == h.starts && h'.ends == h.ends
  {
    match pc
    case Closing(span, track, _) => h.(s := s', closed := h.closed[span := track && acquired])
    case Loaded(_, _, _) => h.(s := s', early := h.early + WrittenBy(h.s, pc))
    case Starting(flow, predecessor, _) => h.(s := s', starts := h.starts[flow := predecessor in h.s.spans])
    case Terminating(flow, dependent) => h.(s := s', ends := h.ends[flow := dependent in h.s.spans])
    case _ => h.(s := s')
  }

  function RunTracked(h: Tracked, labels: seq<Label>): Tracked
    decreases |labels|
  {
    if labels == [] || !Enabled(h.s, labels[0]) then h else RunTracked(Track(h, labels[0]), labels[1..])
  }

  /** The history changes nothing about the run. */
  lemma {:induction false} TracksTheRun(h: Tracked, labels: seq<Label>)
    ensures RunTracked(h, labels).s == Run(h.s, labels)
    decreases |labels|
  {
    if labels != [] && Enabled(h.s, labels[0]) {
      TracksTheRun(Track(h, labels[0]), labels[1..]);
    }
  }

  // ------------------------------------------------------------ the invariant

  /** The span at an endpoint's end of an edge. */
  function EndOf(edge: Edge, e: Endpoint): nat {
    if e.Start? then edge.predecessor else edge.dependent
  }

  /** An endpoint known to belong to an edge of the history. */
  ghost predicate HasEdge(edges: seq<Edge>, e: Endpoint, span: nat) {
    exists edge :: edge in edges && edge.flow == e.flow && EndOf(edge, e) == span
  }

  /** Flows are handed out in increasing order, to calls and polls alike. */
  ghost predicate OrderOk(h: Tracked) {
    && (forall i: nat, j: nat :: i < j < |h.edges| ==> h.edges[i].flow < h.edges[j].flow)
    && (forall i: nat, j: nat :: i < j < |h.polls| ==> h.polls[i] < h.polls[j])
    && (forall i: nat, j: nat :: i < |h.edges| && j < |h.polls| ==> h.edges[i].flow != h.polls[j])
    && (forall i: nat :: i < |h.edges| ==> h.edges[i].flow < h.s.nextFlow)
    && (forall j: nat :: j < |h.polls| ==> h.polls[j] < h.s.nextFlow)
  }

  /** Calls in progress know their edge, and endpoints are queued on its ends. */
  ghost predicate EdgesOk(h: Tracked) {
    && (forall a: nat :: a < |h.s.pcs| && h.s.pcs[a].Starting? ==>
          Edge(h.s.pcs[a].flow, h.s.pcs[a].predecessor, h.s.pcs[a].dependent) in h.edges)
    && (forall a: nat :: a < |h.s.pcs| && h.s.pcs[a].Terminating? ==>
          exists p: nat :: Edge(h.s.pcs[a].flow, p, h.s.pcs[a].dependent) in h.edges)
    && (forall e :: e in h.s.owners ==> HasEdge(h.edges, e, h.s.owners[e]))
  }

  /** A born span is live, being closed by exactly one callback, or closed. */
  ghost predicate LivesOk(h: Tracked) {
    && (forall span :: span in h.closed ==> span in h.s.born && span !in h.s.spans)
    && (forall a: nat :: a < |h.s.pcs| && h.s.pcs[a].Closing? ==>
        h.s.pcs[a].span !in h.closed && h.s.pcs[a].span !in h.s.spans)
    && (forall a: nat, b: nat ::
          a < |h.s.pcs| && b < |h.s.pcs| && a != b && h.s.pcs[a].Closing? && h.s.pcs[b].Closing? ==>
          h.s.pcs[a].span != h.s.pcs[b].span)
    && (forall span :: span in h.s.born ==>
          span in h.s.spans || span in h.closed
          || exists a: nat :: a < |h.s.pcs| && h.s.pcs[a].Closing? && h.s.pcs[a].span == span)
  }

  /** An endpoint is written by a boundary or by its span's guarded close, or dropped by an unguarded one. */
  ghost predicate DeliveryOk(h: Tracked) {
    && (forall e :: e in h.early ==> e in h.s.fates && h.s.fates[e] == Emitted)
    && (forall e :: e in h.s.fates && e in h.s.owners && h.s.fates[e] == Emitted && e !in h.early ==>
          h.s.owners[e] in h.closed && h.closed[h.s.owners[e]])
    && (forall e :: e in h.s.fates && e in h.s.owners && h.s.fates[e] == Dropped ==>
          h.s.owners[e] in h.closed && !h.closed[h.s.owners[e]])
  }

  ghost predicate HistoryOk(h: Tracked) {
    Inv(h.s) && OrderOk(h) && EdgesOk(h) && LivesOk(h) && DeliveryOk(h)
  }

  // ------------------------------------------------------------ every step keeps it

  lemma OrderKept(h: Tracked, l: Label)
    requires OrderOk(h) && Enabled(h.s, l)
    ensures OrderOk(Track(h, l))
  {
    if l.action.Advance? {
      OrderSame(h, Track(h, l));
    } else if l.action.Follow? || l.action.AllocatePoll? {
      OrderGrows(h, Track(h, l));
    } else {
      OrderSame(h, Track(h, l));
    }
  }

  lemma OrderSame(h: Tracked, h': Tracked)
    requires OrderOk(h) && h'.edges == h.edges && h'.polls == h.polls && h'.s.nextFlow == h.s.nextFlow
    ensures OrderOk(h')
  {
  }

  lemma OrderGrows(h: Tracked, h': Tracked)
    requires OrderOk(h) && h'.s.nextFlow == h.s.nextFlow + 1
    requires (exists p: nat, d: nat :: h'.edges == h.edges + [Edge(h.s.nextFlow, p, d)] && h'.polls == h.polls)
             || (h'.edges == h.edges && h'.polls == h.polls + [h.s.nextFlow])
    ensures OrderOk(h')
  {
  }

  /** A step that queues at most one endpoint, at its edge's end. */
  lemma QueuedEdges(h: Tracked, h': Tracked, a: nat, e: Endpoint)
    requires EdgesOk(h) && h'.edges == h.edges && Plainly(h.s, h'.s, a)
    requires forall x :: x in h'.s.owners && x != e ==> x in h.s.owners && h'.s.owners[x] == h.s.owners[x]
    requires e in h'.s.owners ==> HasEdge(h.edges, e, h'.s.owners[e])
    requires h'.s.pcs[a].Terminating? ==> exists p: nat :: Edge(h'.s.pcs[a].flow, p, h'.s.pcs[a].dependent) in h.edges
    ensures EdgesOk(h')
  {
    forall x | x in h'.s.owners
      ensures HasEdge(h'.edges, x, h'.s.owners[x])
    {
      assert x != e ==> HasEdge(h.edges, x, h.s.owners[x]);
    }
    forall b: nat | b < |h'.s.pcs| && h'.s.pcs[b].Terminating?
      ensures exists p: nat :: Edge(h'.s.pcs[b].flow, p, h'.s.pcs[b].dependent) in h'.edges
    {
      assert b != a ==> h'.s.pcs[b] == h.s.pcs[b];
    }
  }

  lemma StartEdges(h: Tracked, a: nat, flow: nat, predecessor: nat, dependent: nat)
    requires EdgesOk(h) && a < |h.s.pcs| && h.s.pcs[a] == Starting(flow, predecessor, dependent)
    ensures EdgesOk(h.(s := QueueStart(h.s, a, flow, predecessor, dependent)))
  {
    var h' := h.(s := QueueStart(h.s, a, flow, predecessor, dependent));
    var edge := Edge(flow, predecessor, dependent);
    assert edge in h.edges && EndOf(edge, Start(flow)) == predecessor;
    assert predecessor !in h.s.spans && Start(flow) in h.s.owners ==>
        HasEdge(h.edges, Start(flow), h.s.owners[Start(flow)]);
    QueuedEdges(h, h', a, Start(flow));
  }

  lemma TerminateEdges(h: Tracked, a: nat, flow: nat, dependent: nat)
    requires EdgesOk(h) && a < |h.s.pcs| && h.s.pcs[a] == Terminating(flow, dependent)
    ensures EdgesOk(h.(s := QueueTerminate(h.s, a, flow, dependent)))
  {
    var h' := h.(s := QueueTerminate(h.s, a, flow, dependent));
    var p: nat :| Edge(flow, p, dependent) in h.edges;
    assert EndOf(Edge(flow, p, dependent), Terminate(flow)) == dependent;
    assert dependent !in h.s.spans && Terminate(flow) in h.s.owners ==>
        HasEdge(h.edges, Terminate(flow), h.s.owners[Terminate(flow)]);
    QueuedEdges(h, h', a, Terminate(flow));
  }

  lemma SameOwnersEdges(h: Tracked, h': Tracked, a: nat)
    requires EdgesOk(h) && h'.edges == h.edges && Plainly(h.s, h'.s, a) && h'.s.owners == h.s.owners
    requires !h'.s.pcs[a].Terminating?
    ensures EdgesOk(h')
  {
    forall x | x in h'.s.owners
      ensures HasEdge(h'.edges, x, h'.s.owners[x])
    {
      assert HasEdge(h.edges, x, h.s.owners[x]);
    }
    forall b: nat | b < |h'.s.pcs| && h'.s.pcs[b].Terminating?
      ensures exists p: nat :: Edge(h'.s.pcs[b].flow, p, h'.s.pcs[b].dependent) in h'.edges
    {
      assert h'.s.pcs[b] == h.s.pcs[b];
    }
  }

  /** Only the run's state matters to edges, not what is closed or early. */
  lemma EdgesKeptByStep(h: Tracked, a: nat, acquired: bool)
    requires EdgesOk(h) && Enabled(h.s, Label(a, Advance(acquired)))
    ensures EdgesOk(Track(h, Label(a, Advance(acquired))))
  {
    var h' := Track(h, Label(a, Advance(acquired)));
    match h.s.pcs[a]
    case Starting(flow, predecessor, dependent) =>
      StartEdges(h, a, flow, predecessor, dependent);
      SameRun(h.(s := h'.s), h');
    case Terminating(flow, dependent) =>
      TerminateEdges(h, a, flow, dependent);
      SameRun(h.(s := h'.s), h');
    case _ => SameOwnersEdges(h, h', a);
  }

  lemma SameRun(h: Tracked, h': Tracked)
    requires EdgesOk(h) && h'.s == h.s && h'.edges == h.edges
    ensures EdgesOk(h')
  {
    forall x | x in h'.s.owners
      ensures HasEdge(h'.edges, x, h'.s.owners[x])
    {
      assert HasEdge(h.edges, x, h.s.owners[x]);
    }
  }

  lemma EdgesKept(h: Tracked, l: Label)
    requires EdgesOk(h) && Enabled(h.s, l)
    ensures EdgesOk(Track(h, l))
  {
    if l.action.Advance? {
      EdgesKeptByStep(h, l.actor, l.action.acquired);
    } else {
      EdgesKeptAtStart(h, l);
    }
  }

  lemma EdgesKeptAtStart(h: Tracked, l: Label)
    requires EdgesOk(h) && Enabled(h.s, l) && !l.action.Advance?
    ensures EdgesOk(Track(h, l))
  {
    var h' := Track(h, l);
    assert h'.s.owners == h.s.owners && forall edge :: edge in h.edges ==> edge in h'.edges;
    forall b: nat | b < |h'.s.pcs| && h'.s.pcs[b].Terminating?
      ensures exists p: nat :: Edge(h'.s.pcs[b].flow, p, h'.s.pcs[b].dependent) in h'.edges
    {
      assert h'.s.pcs[b] == h.s.pcs[b];
      var p: nat :| Edge(h.s.pcs[b].flow, p, h.s.pcs[b].dependent) in h.edges;
    }
    forall e | e in h'.s.owners
      ensures HasEdge(h'.edges, e, h'.s.owners[e])
    {
      var edge :| edge in h.edges && edge.flow == e.flow && EndOf(edge, e) == h.s.owners[e];
    }
    if l.action.Follow? {
      assert Edge(h.s.nextFlow, l.action.predecessor, l.action.dependent) in h'.edges;
    }
  }

  lemma LivesKeptByStep(h: Tracked, a: nat, acquired: bool)
    requires Inv(h.s) && LivesOk(h) && Enabled(h.s, Label(a, Advance(acquired)))
    ensures LivesOk(Track(h, Label(a, Advance(acquired))))
  {
    var h', pc := Track(h, Label(a, Advance(acquired))), h.s.pcs[a];
    assert Plainly(h.s, h'.s, a);
    forall span | span in h'.s.born
      ensures span in h'.s.spans || span in h'.closed
              || exists b: nat :: b < |h'.s.pcs| && h'.s.pcs[b].Closing? && h'.s.pcs[b].span == span
    {
      if span !in h.s.spans && span !in h.closed {
        var b: nat :| b < |h.s.pcs| && h.s.pcs[b].Closing? && h.s.pcs[b].span == span;
        if b != a {
          assert h'.s.pcs[b] == h.s.pcs[b];
        }
      }
    }
  }

  lemma LivesKept(h: Tracked, l: Label)
    requires Inv(h.s) && LivesOk(h) && Enabled(h.s, l)
    ensures LivesOk(Track(h, l))
  {
    var h' := Track(h, l);
    if l.action.Advance? {
      LivesKeptByStep(h, l.actor, l.action.acquired);
    } else if l.action.Close? {
      ClosingLives(h, l);
    } else {
      StartingLives(h, l);
    }
  }

  lemma StartingLives(h: Tracked, l: Label)
    requires Inv(h.s) && LivesOk(h) && Enabled(h.s, l) && !l.action.Advance? && !l.action.Close?
    ensures LivesOk(Track(h, l))
  {
    match l.action
    case NewSpan(span, track) => BornLives(h, Track(h, l), span);
    case AllocatePoll => SameLives(h, Track(h, l), l.actor);
    case Follow(_, _) => SameLives(h, Track(h, l), l.actor);
    case Reach(_, _) => SameLives(h, Track(h, l), l.actor);
  }

  /** No span is born, closed or being closed by the step. */
  lemma SameLives(h: Tracked, h': Tracked, a: nat)
    requires LivesOk(h) && a < |h.s.pcs| == |h'.s.pcs| && h'.s.pcs == h.s.pcs[a := h'.s.pcs[a]]
    requires !h.s.pcs[a].Closing? && !h'.s.pcs[a].Closing?
    requires h'.s.spans.Keys == h.s.spans.Keys && h'.s.born == h.s.born && h'.closed == h.closed
    ensures LivesOk(h')
  {
    forall span | span in h'.s.born
      ensures span in h'.s.spans || span in h'.closed
              || exists b: nat :: b < |h'.s.pcs| && h'.s.pcs[b].Closing? && h'.s.pcs[b].span == span
    {
      if span !in h.s.spans && span !in h.closed {
        var b: nat :| b < |h.s.pcs| && h.s.pcs[b].Closing? && h.s.pcs[b].span == span;
        assert h'.s.pcs[b] == h.s.pcs[b];
      }
    }
  }

  lemma BornLives(h: Tracked, h': Tracked, span: nat)
    requires Inv(h.s) && LivesOk(h) && span !in h.s.born && h'.s.pcs == h.s.pcs && h'.closed == h.closed
    requires h'.s.born == h.s.born + {span} && h'.s.spans.Keys == h.s.spans.Keys + {span}
    ensures LivesOk(h')
  {
  }

  lemma ClosingLives(h: Tracked, l: Label)
    requires Inv(h.s) && LivesOk(h) && Enabled(h.s, l) && l.action.Close?
    ensures LivesOk(Track(h, l))
  {
    var h' := Track(h, l);
    assert h'.s.pcs[l.actor].Closing? && h'.s.pcs[l.actor].span == l.action.span;
    forall span | span in h'.s.born
      ensures span in h'.s.spans || span in h'.closed
              || exists b: nat :: b < |h'.s.pcs| && h'.s.pcs[b].Closing? && h'.s.pcs[b].span == span
    {
      if span !in h.s.spans && span !in h.closed {
        var b: nat :| b < |h.s.pcs| && h.s.pcs[b].Closing? && h.s.pcs[b].span == span;
        assert h'.s.pcs[b] == h.s.pcs[b];
      }
    }
  }

  lemma DeliveryKept(h: Tracked, l: Label)
    requires Inv(h.s) && LivesOk(h) && DeliveryOk(h) && Enabled(h.s, l)
    ensures DeliveryOk(Track(h, l))
  {
    if l.action.Advance? {
      match h.s.pcs[l.actor]
      case Loaded(_, _, _) => LoadedDelivers(h, l);
      case Closing(_, _, _) => ClosingDelivers(h, l);
      case _ => QueueDelivers(h, l);
    } else if l.action.Close? {
      CloseDelivers(h, l);
    }
  }

  lemma LoadedDelivers(h: Tracked, l: Label)
    requires Inv(h.s) && DeliveryOk(h) && Enabled(h.s, l) && l.action.Advance? && h.s.pcs[l.actor].Loaded?
    ensures DeliveryOk(Track(h, l))
  {
    var pc, h' := h.s.pcs[l.actor], Track(h, l);
    if pc.includes && pc.span in h.s.spans {
      var pending := h.s.spans[pc.span].pending;
      assert forall e :: e in pending ==> e in h.s.fates && h.s.fates[e] == Waiting(pc.span);
      EarlyDelivers(h, h', pending);
    }
  }

  lemma EarlyDelivers(h: Tracked, h': Tracked, pending: seq<Endpoint>)
    requires DeliveryOk(h) && forall e :: e in pending ==> e in h.s.fates
    requires h'.early == h.early + set e | e in pending
    requires h'.s.fates == Settled(h.s.fates, pending, Emitted) && h'.s.owners == h.s.owners && h'.closed == h.closed
    ensures DeliveryOk(h')
  {
    SettledFates(h.s.fates, pending, Emitted);
  }

  lemma ClosingDelivers(h: Tracked, l: Label)
    requires Inv(h.s) && LivesOk(h) && DeliveryOk(h) && Enabled(h.s, l) && l.action.Advance?
    requires h.s.pcs[l.actor].Closing?
    ensures DeliveryOk(Track(h, l))
  {
    var a, pc := l.actor, h.s.pcs[l.actor];
    var fate := if pc.track && l.action.acquired then Emitted else Dropped;
    var h' := Track(h, l);
    CarriedOwned(h.s, a, pc.span, pc.pending);
    SettledFates(h.s.fates, pc.pending, fate);
    assert h'.s == FinishClose(h.s, a, pc.span, pc.track, pc.pending, l.action.acquired);
    SettledDelivers(h, h', pc.span, pc.pending, fate);
  }

  lemma SettledDelivers(h: Tracked, h': Tracked, span: nat, pending: seq<Endpoint>, fate: Where)
    requires DeliveryOk(h) && h'.early == h.early && h'.s.owners == h.s.owners && span !in h.closed
    requires fate == Emitted || fate == Dropped
    requires h'.closed == h.closed[span := fate == Emitted] && h'.s.fates == Settled(h.s.fates, pending, fate)
    requires forall e :: e in pending ==>
        e in h.s.fates && h.s.fates[e].Carried? && e in h.s.owners && h.s.owners[e] == span
    ensures DeliveryOk(h')
  {
    SettledFates(h.s.fates, pending, fate);
  }

  lemma QueueDelivers(h: Tracked, l: Label)
    requires Inv(h.s) && DeliveryOk(h) && Enabled(h.s, l) && l.action.Advance? && !h.s.pcs[l.actor].Loaded?
    requires !h.s.pcs[l.actor].Closing?
    ensures DeliveryOk(Track(h, l))
  {
    match h.s.pcs[l.actor]
    case Starting(_, _, _) => StartDelivers(h, l);
    case Terminating(_, _) => TerminateDelivers(h, l);
    case Guarding(_, _) =>
  }

  lemma StartDelivers(h: Tracked, l: Label)
    requires FreshOk(h.s) && DeliveryOk(h) && Enabled(h.s, l) && l.action.Advance? && h.s.pcs[l.actor].Starting?
    ensures DeliveryOk(Track(h, l))
  {
    QueuedDelivers(h, Track(h, l), Start(h.s.pcs[l.actor].flow));
  }

  lemma TerminateDelivers(h: Tracked, l: Label)
    requires FreshOk(h.s) && DeliveryOk(h) && Enabled(h.s, l) && l.action.Advance? && h.s.pcs[l.actor].Terminating?
    ensures DeliveryOk(Track(h, l))
  {
    QueuedDelivers(h, Track(h, l), Terminate(h.s.pcs[l.actor].flow));
  }

  /** Queueing a fresh endpoint, which then waits. */
  lemma QueuedDelivers(h: Tracked, h': Tracked, e: Endpoint)
    requires DeliveryOk(h) && h'.early == h.early && h'.closed == h.closed
    requires e !in h.s.fates && (e in h'.s.fates ==> h'.s.fates[e].Waiting?)
    requires forall x :: x != e ==>
        (x in h'.s.fates <==> x in h.s.fates) && (x in h.s.fates ==> h'.s.fates[x] == h.s.fates[x])
    requires forall x :: x != e ==>
        (x in h'.s.owners <==> x in h.s.owners) && (x in h.s.owners ==> h'.s.owners[x] == h.s.owners[x])
    ensures DeliveryOk(h')
  {
  }

  lemma CloseDelivers(h: Tracked, l: Label)
    requires Inv(h.s) && DeliveryOk(h) && Enabled(h.s, l) && l.action.Close?
    ensures DeliveryOk(Track(h, l))
  {
    var pending := h.s.spans[l.action.span].pending;
    assert forall e :: e in pending ==> e in h.s.fates && h.s.fates[e] == Waiting(l.action.span);
    SettledFates(h.s.fates, pending, Carried(l.actor));
  }

  lemma InitialHistory(threadSlices: bool, gated: bool, actors: nat)
    ensures HistoryOk(Initially(threadSlices, gated, actors))
  {
    InitialHolds(threadSlices, gated, actors);
  }

  lemma StepKeepsHistory(h: Tracked, l: Label)
    requires HistoryOk(h) && Enabled(h.s, l)
    ensures HistoryOk(Track(h, l))
  {
    StepKeeps(h.s, l);
    OrderKept(h, l);
    EdgesKept(h, l);
    LivesKept(h, l);
    DeliveryKept(h, l);
  }

  lemma {:induction false} RunKeepsHistory(h: Tracked, labels: seq<Label>)
    requires HistoryOk(h)
    ensures HistoryOk(RunTracked(h, labels))
    decreases |labels|
  {
    if labels != [] && Enabled(h.s, labels[0]) {
      StepKeepsHistory(h, labels[0]);
      RunKeepsHistory(Track(h, labels[0]), labels[1..]);
    }
  }

  // ------------------------------------------------------------ main results

  lemma ReachableHistory(h: Tracked, threadSlices: bool, gated: bool, actors: nat, labels: seq<Label>)
    requires h == RunTracked(Initially(threadSlices, gated, actors), labels)
    ensures HistoryOk(h) && h.s == Run(Initial(threadSlices, gated, actors), labels)
  {
    InitialHistory(threadSlices, gated, actors);
    RunKeepsHistory(Initially(threadSlices, gated, actors), labels);
    TracksTheRun(Initially(threadSlices, gated, actors), labels);
  }

  lemma CountAtClose(s: State, a: nat, acquired: bool, e: Endpoint)
    requires PlacesOk(s) && WrittenOk(s) && a < |s.pcs| && s.pcs[a].Closing? && e in s.pcs[a].pending
    ensures Count(s.written, e) == 0
    ensures Count(FinishClose(s, a, s.pcs[a].span, s.pcs[a].track, s.pcs[a].pending, acquired).written, e)
         == if s.pcs[a].track && acquired then 1 else 0
  {
    assert e in InHand(s.pcs[a]);
    assert Distinct(InHand(s.pcs[a]));
    CountBy(s.written, s.pcs[a].span, s.pcs[a].pending, e);
  }

  /** The span closed with a lifetime track and a context: the branch that writes its end. */
  predicate Guarded(h: Tracked, span: nat) {
    span in h.closed && h.closed[span]
  }

  /**
   Once the span it was queued on is over, an endpoint has been written exactly once if
   and only if some boundary wrote it before the close or the close had both a lifetime
   track and a context; otherwise it has not been written at all.
   */
  lemma DeliveredExactly(h: Tracked, threadSlices: bool, gated: bool, actors: nat, labels: seq<Label>, e: Endpoint)
    requires h == RunTracked(Initially(threadSlices, gated, actors), labels)
    requires e in h.s.owners && Over(h.s, h.s.owners[e])
    ensures h.s.owners[e] in h.closed
    ensures Count(h.s.written, e) == if e in h.early || Guarded(h, h.s.owners[e]) then 1 else 0
    ensures forall i: nat :: i < |h.s.written| && h.s.written[i].1 == e ==> h.s.written[i].0 == h.s.owners[e]
  {
    ReachableHistory(h, threadSlices, gated, actors, labels);
    EndpointsAreDeliveredOnce(h.s, threadSlices, gated, actors, labels, e);
    assert h.s.owners[e] in h.s.born;
  }

  lemma OneEdgePerFlow(h: Tracked, i: nat, j: nat)
    requires OrderOk(h) && i < |h.edges| && j < |h.edges| && h.edges[i].flow == h.edges[j].flow
    ensures i == j
  {
  }

  lemma EndpointOfEdge(h: Tracked, i: nat, e: Endpoint)
    requires HistoryOk(h) && i < |h.edges| && h.edges[i].flow == e.flow
    ensures e in h.s.owners ==> h.s.owners[e] == EndOf(h.edges[i], e)
  {
    if e in h.s.owners {
      var edge :| edge in h.edges && edge.flow == e.flow && EndOf(edge, e) == h.s.owners[e];
      var j: nat :| j < |h.edges| && h.edges[j] == edge;
      OneEdgePerFlow(h, i, j);
    }
  }

  /**
   Over a whole run, no two calls share a flow, finished or not, and no call shares one
   with a poll: the ids the allocator returned for them, in whatever interleaving, differ
   for the first 2^64 - 1 of them.
   */
  lemma FlowsAreDistinct(h: Tracked, threadSlices: bool, gated: bool, actors: nat, labels: seq<Label>, base: u64,
                         increments: nat)
    requires h == RunTracked(Initially(threadSlices, gated, actors), labels)
    requires h.s.nextFlow <= |Returned(Fetched(base, increments))| <= NONZERO_IDS
    ensures var ids := Returned(Fetched(base, increments));
            && (forall i: nat :: i < |h.edges| ==> h.edges[i].flow < |ids| && ids[h.edges[i].flow] != 0)
            && (forall j: nat :: j < |h.polls| ==> h.polls[j] < |ids|)
            && (forall i: nat, j: nat :: i < |h.edges| && j < |h.edges| && i != j ==>
                ids[h.edges[i].flow] != ids[h.edges[j].flow])
            && (forall i: nat, j: nat :: i < |h.edges| && j < |h.polls| ==> ids[h.edges[i].flow] != ids[h.polls[j]])
  {
    ReachableHistory(h, threadSlices, gated, actors, labels);
    var ids := Returned(Fetched(base, increments));
    IdsAreFresh(base, increments);
    forall i: nat, j: nat | i < |h.edges| && j < |h.edges| && i != j
      ensures ids[h.edges[i].flow] != ids[h.edges[j].flow]
    {
      assert h.edges[i].flow < h.edges[j].flow || h.edges[j].flow < h.edges[i].flow;
    }
    forall i: nat, j: nat | i < |h.edges| && j < |h.polls|
      ensures ids[h.edges[i].flow] != ids[h.polls[j]]
    {
      assert h.edges[i].flow < h.polls[j] || h.polls[j] < h.edges[i].flow;
    }
  }

  // ------------------------------------------------------------ an endpoint that is lost

  lemma RunStep(h: Tracked, l: Label, h': Tracked, rest: seq<Label>)
    requires Enabled(h.s, l) && Track(h, l) == h'
    ensures RunTracked(h, [l] + rest) == RunTracked(h', rest)
  {
    assert ([l] + rest)[1..] == rest;
  }

  const ALONE: Tracked :=
    Tracked(State(true, true, false, map[0 := Span(false, [])], [Idle], 0, {0}, map[], map[], [], {}),
            [], [], map[0 := false], map[], {}, map[], map[])

  const BOTH: Tracked :=
    ALONE.(s := ALONE.s.(spans := map[0 := Span(false, []), 1 := Span(false, [])], born := {0, 1}),
           tracks := map[0 := false, 1 := false])

  const FOLLOWING: Tracked :=
    BOTH.(s := BOTH.s.(flag := true, nextFlow := 1, pcs := [Starting(0, 0, 1)]), edges := [Edge(0, 0, 1)])

  const STARTED: State :=
    FOLLOWING.s.(spans := map[0 := Span(false, [Start(0)]), 1 := Span(false, [])], pcs := [Terminating(0, 1)],
                 fates := map[Start(0) := Waiting(0)], owners := map[Start(0) := 0])

  const QUEUED: State :=
    STARTED.(spans := map[0 := Span(false, [Start(0)]), 1 := Span(false, [Terminate(0)])], pcs := [Idle],
             fates := map[Start(0) := Waiting(0), Terminate(0) := Waiting(1)],
             owners := map[Start(0) := 0, Terminate(0) := 1])

  const CALLED: Tracked := FOLLOWING.(s := QUEUED, starts := map[0 := true], ends := map[0 := true])

  const CLOSING: State :=
    QUEUED.(spans := map[1 := Span(false, [Terminate(0)])], pcs := [Closing(0, false, [Start(0)])],
            fates := map[Start(0) := Carried(0), Terminate(0) := Waiting(1)])

  const LOST: Tracked :=
    CALLED.(s := CLOSING.(pcs := [Idle], fates := map[Start(0) := Dropped, Terminate(0) := Waiting(1)],
                             lossy := {0}),
               closed := map[0 := false])

  const GO: Label := Label(0, Advance(true))

  function Spans(rest: seq<Label>): seq<Label> {
    [Label(0, NewSpan(0, false))] + ([Label(0, NewSpan(1, false))] + ([Label(0, Follow(1, 0))] + rest))
  }

  lemma SpansRun(rest: seq<Label>)
    ensures RunTracked(Initially(true, true, 1), Spans(rest)) == RunTracked(FOLLOWING, rest)
  {
    var rest2 := [Label(0, Follow(1, 0))] + rest;
    var rest1 := [Label(0, NewSpan(1, false))] + rest2;
    RunStep(Initially(true, true, 1), Label(0, NewSpan(0, false)), ALONE, rest1);
    RunStep(ALONE, Label(0, NewSpan(1, false)), BOTH, rest2);
    RunStep(BOTH, Label(0, Follow(1, 0)), FOLLOWING, rest);
  }

  lemma QueueingRuns(rest: seq<Label>)
    ensures RunTracked(FOLLOWING, [GO] + ([GO] + rest)) == RunTracked(CALLED, rest)
  {
    var none: seq<Endpoint> := [];
    assert none + [Start(0)] == [Start(0)] && none + [Terminate(0)] == [Terminate(0)];
    assert QueueStart(FOLLOWING.s, 0, 0, 0, 1) == STARTED;
    assert QueueTerminate(STARTED, 0, 0, 1) == QUEUED;
    RunStep(FOLLOWING, GO, FOLLOWING.(s := STARTED, starts := map[0 := true]), [GO] + rest);
    RunStep(FOLLOWING.(s := STARTED, starts := map[0 := true]), GO, CALLED, rest);
  }

  lemma ClosingBegins(rest: seq<Label>)
    ensures RunTracked(CALLED, [Label(0, Close(0))] + rest)
            == RunTracked(CALLED.(s := CLOSING), rest)
  {
    SettledOne(QUEUED.fates, Start(0), Carried(0));
    assert BeginClose(QUEUED, 0, 0) == CLOSING;
    RunStep(CALLED, Label(0, Close(0)), CALLED.(s := CLOSING), rest);
  }

  lemma ClosingEnds(rest: seq<Label>)
    ensures RunTracked(CALLED.(s := CLOSING), [GO] + rest) == RunTracked(LOST, rest)
  {
    SettledOne(CLOSING.fates, Start(0), Dropped);
    assert FinishClose(CLOSING, 0, 0, false, [Start(0)], true) == LOST.s;
    RunStep(CALLED.(s := CLOSING), GO, LOST, rest);
  }

  lemma SettledOne(fates: map<Endpoint, Where>, e: Endpoint, fate: Where)
    ensures Settled(fates, [e], fate) == fates[e := fate]
  {
    assert [e][1..] == [];
  }

  /** Thread-track mode: the predecessor closes without a lifetime track, and its end of the flow is never written. */
  lemma EndpointCanBeLost() returns (labels: seq<Label>)
    ensures RunTracked(Initially(true, true, 1), labels) == LOST
    ensures Start(0) in LOST.s.owners && Over(LOST.s, 0) && Count(LOST.s.written, Start(0)) == 0
  {
    labels := Spans([GO] + ([GO] + ([Label(0, Close(0))] + ([GO] + []))));
    SpansRun([GO] + ([GO] + ([Label(0, Close(0))] + ([GO] + []))));
    QueueingRuns([Label(0, Close(0))] + ([GO] + []));
    ClosingBegins([GO] + []);
    ClosingEnds([]);
  }
}
