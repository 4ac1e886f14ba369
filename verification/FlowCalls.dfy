/**
 What one `on_follows_from` call, one boundary and one close do, and what becomes of every
 call's two ends over a whole run.
 */
module FlowCalls {
  import opened Prelude
  import opened Flows
  import opened FlowEdges

  // ------------------------------------------------------------ one step

  /** The step changes what waits on this span, and nothing about any other span. */
  predicate OnlyOn(s: State, s': State, span: nat, pending: seq<Endpoint>) {
    && span in s.spans && s'.spans.Keys == s.spans.Keys
    && s'.spans[span].pending == pending && s'.spans[span].track == s.spans[span].track
    && forall other :: other in s.spans && other != span ==> s'.spans[other] == s.spans[other]
  }

  /** The start joins the back of the predecessor's queue, and the dependent is next. */
  lemma StartIsQueued(s: State, a: nat, flow: nat, predecessor: nat, dependent: nat, acquired: bool)
    requires a < |s.pcs| && s.pcs[a] == Starting(flow, predecessor, dependent)
    requires Enabled(s, Label(a, Advance(acquired)))
    ensures var s' := Apply(s, Label(a, Advance(acquired)));
            && s'.written == s.written && s'.flag == s.flag
            && (predecessor in s.spans ==>
                  && OnlyOn(s, s', predecessor, s.spans[predecessor].pending + [Start(flow)])
                  && s'.pcs[a] == Terminating(flow, dependent))
            && (predecessor !in s.spans ==> s'.spans == s.spans && s'.pcs[a] == Idle)
  {
  }

  /** The terminate joins the back of the dependent's queue, and the call is over. */
  lemma TerminateIsQueued(s: State, a: nat, flow: nat, dependent: nat, acquired: bool)
    requires a < |s.pcs| && s.pcs[a] == Terminating(flow, dependent)
    requires Enabled(s, Label(a, Advance(acquired)))
    ensures var s' := Apply(s, Label(a, Advance(acquired)));
            && s'.written == s.written && s'.flag == s.flag && s'.pcs[a] == Idle
            && (dependent in s.spans ==> OnlyOn(s, s', dependent, s.spans[dependent].pending + [Terminate(flow)]))
            && (dependent !in s.spans ==> s'.spans == s.spans)
  {
  }

  /** A callback at a boundary stays at that boundary of that span, whatever it finds the flag to be. */
  lemma BoundaryIsKept(s: State, a: nat, span: nat, boundary: Boundary, acquired: bool)
    requires Enabled(s, Label(a, Reach(span, boundary)))
    ensures var s1 := Apply(s, Label(a, Reach(span, boundary)));
            && Enabled(s1, Label(a, Advance(acquired)))
            && var s2 := Apply(s1, Label(a, Advance(acquired)));
               && s2.pcs[a].Loaded? && s2.pcs[a].span == span && s2.pcs[a].boundary == boundary
               && s2.spans == s.spans && s2.written == s.written
  {
  }

  /** The endpoints, in order, as this span wrote them. */
  predicate WroteInOrder(s: State, s': State, span: nat, endpoints: seq<Endpoint>) {
    && |s'.written| == |s.written| + |endpoints|
    && (forall i: nat :: i < |s.written| ==> s'.written[i] == s.written[i])
    && (forall k: nat :: k < |endpoints| ==> s'.written[|s.written| + k] == (span, endpoints[k]))
  }

  /**
   A span that is entered, or in thread-slice mode exited, writes everything that waits on
   it, in order, and then nothing waits; an exit in any other mode leaves its flows alone.
   */
  lemma BoundaryIsExact(h: Tracked, threadSlices: bool, gated: bool, actors: nat, labels: seq<Label>, a: nat,
                        acquired: bool)
    requires h == RunTracked(Initially(threadSlices, gated, actors), labels)
    requires a < |h.s.pcs| && h.s.pcs[a].Loaded?
    ensures var span := h.s.pcs[a].span;
            var s' := Apply(h.s, Label(a, Advance(acquired)));
            && span in h.s.spans && s'.pcs[a] == Idle
            && if h.s.pcs[a].boundary == Entering || threadSlices
               then OnlyOn(h.s, s', span, []) && WroteInOrder(h.s, s', span, h.s.spans[span].pending)
               else s'.spans == h.s.spans && s'.written == h.s.written
  {
    var pc := h.s.pcs[a];
    BoundaryReached(h, threadSlices, gated, actors, labels);
    BoundaryStep(h.s, a, pc.span, pc.boundary, pc.includes);
    assert Apply(h.s, Label(a, Advance(acquired))) == WriteBoundary(h.s, a, pc.span, pc.includes);
  }

  lemma BoundaryReached(h: Tracked, threadSlices: bool, gated: bool, actors: nat, labels: seq<Label>)
    requires h == RunTracked(Initially(threadSlices, gated, actors), labels)
    ensures SkipsOk(h.s) && h.s.threadSlices == threadSlices
  {
    ReachableHistory(h, threadSlices, gated, actors, labels);
    RunKeepsMode(Initial(threadSlices, gated, actors), labels);
  }

  lemma BoundaryStep(s: State, a: nat, span: nat, boundary: Boundary, includes: bool)
    requires SkipsOk(s) && a < |s.pcs| && s.pcs[a] == Loaded(span, boundary, includes)
    ensures span in s.spans
    ensures var s' := WriteBoundary(s, a, span, includes);
            if boundary == Entering || s.threadSlices
            then OnlyOn(s, s', span, []) && WroteInOrder(s, s', span, s.spans[span].pending)
            else s'.spans == s.spans && s'.written == s.written
  {
    assert Consults(s, boundary) && !includes ==> s.spans[span].pending == [];
    assert includes ==> Consults(s, boundary);
  }

  lemma {:induction false} RunKeepsMode(s: State, labels: seq<Label>)
    ensures Run(s, labels).threadSlices == s.threadSlices
    decreases |labels|
  {
    if labels != [] && Enabled(s, labels[0]) {
      StepKeepsMode(s, labels[0]);
      RunKeepsMode(Apply(s, labels[0]), labels[1..]);
    }
  }

  lemma StepKeepsMode(s: State, l: Label)
    requires Enabled(s, l)
    ensures Apply(s, l).threadSlices == s.threadSlices
  {
    if l.action.Advance? {
      assert Plainly(s, Step(s, l.actor, s.pcs[l.actor], l.action.acquired), l.actor);
    }
  }

  // ------------------------------------------------------------ the invariant of calls

  /** An endpoint has been queued exactly if its span had state when its call came to it. */
  ghost predicate QueuedOk(h: Tracked) {
    && (forall flow: nat :: Start(flow) in h.s.owners <==> flow in h.starts && h.starts[flow])
    && (forall flow: nat :: Terminate(flow) in h.s.owners <==> flow in h.ends && h.ends[flow])
  }

  /** A call comes to its start first, and to its terminate only if that was queued. */
  ghost predicate CallsOk(h: Tracked) {
    && (forall a: nat :: a < |h.s.pcs| && h.s.pcs[a].Starting? ==>
          h.s.pcs[a].flow !in h.starts && h.s.pcs[a].flow !in h.ends)
    && (forall a: nat :: a < |h.s.pcs| && h.s.pcs[a].Terminating? ==>
          h.s.pcs[a].flow in h.starts && h.starts[h.s.pcs[a].flow] && h.s.pcs[a].flow !in h.ends)
    && (forall flow :: flow in h.starts ==> flow < h.s.nextFlow)
    && (forall flow :: flow in h.ends ==> flow in h.starts && h.starts[flow])
  }

  ghost predicate InProgress(s: State, flow: nat) {
    exists a: nat :: a < |s.pcs| && FlowOf(s.pcs[a]) == Some(flow)
  }

  /** The call has come to its start, and to its terminate if there was a start to end. */
  predicate Came(h: Tracked, flow: nat) {
    flow in h.starts && (h.starts[flow] ==> flow in h.ends)
  }

  ghost predicate DoneOk(h: Tracked) {
    forall i: nat :: i < |h.edges| ==> InProgress(h.s, h.edges[i].flow) || Came(h, h.edges[i].flow)
  }

  /** A span keeps the lifetime track it was created with, or without. */
  ghost predicate CreatedOk(h: Tracked) {
    && (forall span :: span in h.s.spans ==> span in h.tracks && h.s.spans[span].track == h.tracks[span])
    && (forall a: nat :: a < |h.s.pcs| && h.s.pcs[a].Closing? ==>
          h.s.pcs[a].span in h.tracks && h.s.pcs[a].track == h.tracks[h.s.pcs[a].span])
    && h.tracks.Keys == h.s.born
  }

  ghost predicate CallInv(h: Tracked) {
    QueuedOk(h) && CallsOk(h) && DoneOk(h) && CreatedOk(h)
  }

  // ------------------------------------------------------------ every step keeps it

  /** Steps that belong to no call. */
  predicate Apart(s: State, l: Label) {
    l.actor < |s.pcs| && !l.action.Follow? && (l.action.Advance? ==> FlowOf(s.pcs[l.actor]).None?)
  }

  /** The step changes nothing that calls depend on. */
  ghost predicate Besides(s: State, s': State, a: nat) {
    && a < |s.pcs| == |s'.pcs| && s'.pcs == s.pcs[a := s'.pcs[a]] && s'.owners == s.owners
    && s.nextFlow <= s'.nextFlow && FlowOf(s'.pcs[a]).None? && FlowOf(s.pcs[a]).None?
  }

  lemma ApartSteps(s: State, l: Label)
    requires Enabled(s, l) && Apart(s, l)
    ensures Besides(s, Apply(s, l), l.actor)
  {
    if l.action.Advance? {
      match s.pcs[l.actor]
      case Guarding(span, boundary) => assert Plainly(s, LoadFlag(s, l.actor, span, boundary), l.actor);
      case Loaded(span, _, includes) => assert Plainly(s, WriteBoundary(s, l.actor, span, includes), l.actor);
      case Closing(span, track, pending) =>
        assert Plainly(s, FinishClose(s, l.actor, span, track, pending, l.action.acquired), l.actor);
    }
  }

  lemma SameCalls(h: Tracked, h': Tracked, a: nat)
    requires QueuedOk(h) && CallsOk(h) && DoneOk(h) && Besides(h.s, h'.s, a)
    requires h'.starts == h.starts && h'.ends == h.ends && h'.edges == h.edges
    ensures QueuedOk(h') && CallsOk(h') && DoneOk(h')
  {
    forall i: nat | i < |h'.edges| && !Came(h', h'.edges[i].flow)
      ensures InProgress(h'.s, h'.edges[i].flow)
    {
      var b: nat :| b < |h.s.pcs| && FlowOf(h.s.pcs[b]) == Some(h.edges[i].flow);
      assert h'.s.pcs[b] == h.s.pcs[b];
    }
  }

  lemma FollowCalls(h: Tracked, l: Label)
    requires Inv(h.s) && OrderOk(h) && QueuedOk(h) && CallsOk(h) && DoneOk(h) && Enabled(h.s, l) && l.action.Follow?
    ensures var h' := Track(h, l); QueuedOk(h') && CallsOk(h') && DoneOk(h')
  {
    var h' := Track(h, l);
    assert FlowOf(h'.s.pcs[l.actor]) == Some(h.s.nextFlow);
    forall i: nat | i < |h'.edges| && !Came(h', h'.edges[i].flow)
      ensures InProgress(h'.s, h'.edges[i].flow)
    {
      if i < |h.edges| {
        var b: nat :| b < |h.s.pcs| && FlowOf(h.s.pcs[b]) == Some(h.edges[i].flow);
        assert h'.s.pcs[b] == h.s.pcs[b];
      }
    }
  }

  /** Whoever else is in a call stays in it. */
  lemma OthersInProgress(s: State, s': State, a: nat, flow: nat)
    requires a < |s.pcs| == |s'.pcs| && s'.pcs == s.pcs[a := s'.pcs[a]]
    requires InProgress(s, flow) && FlowOf(s.pcs[a]) != Some(flow)
    ensures InProgress(s', flow)
  {
    var b: nat :| b < |s.pcs| && FlowOf(s.pcs[b]) == Some(flow);
    assert s'.pcs[b] == s.pcs[b];
  }

  /** No other callback is in the same call. */
  lemma AloneInCall(s: State, a: nat, flow: nat)
    requires FreshOk(s) && a < |s.pcs| && FlowOf(s.pcs[a]) == Some(flow)
    ensures forall b: nat :: b < |s.pcs| && b != a ==> FlowOf(s.pcs[b]) != Some(flow)
  {
  }

  lemma StartCalls(h: Tracked, a: nat, acquired: bool)
    requires FreshOk(h.s) && QueuedOk(h) && CallsOk(h)
    requires Enabled(h.s, Label(a, Advance(acquired))) && h.s.pcs[a].Starting?
    ensures var h' := Track(h, Label(a, Advance(acquired))); QueuedOk(h') && CallsOk(h')
  {
    var pc, h' := h.s.pcs[a], Track(h, Label(a, Advance(acquired)));
    var s' := QueueStart(h.s, a, pc.flow, pc.predecessor, pc.dependent);
    AloneInCall(h.s, a, pc.flow);
    assert h' == h.(s := s', starts := h.starts[pc.flow := pc.predecessor in h.s.spans]);
    StartedQueues(h, h', pc.flow);
    StartedCalls(h, h', a, pc.flow);
  }

  lemma StartedQueues(h: Tracked, h': Tracked, flow: nat)
    requires QueuedOk(h) && flow !in h.starts && flow in h'.starts
    requires h'.starts == h.starts[flow := h'.starts[flow]] && h'.ends == h.ends
    requires forall e :: e in h'.s.owners <==> e in h.s.owners || (e == Start(flow) && h'.starts[flow])
    ensures QueuedOk(h')
  {
  }

  lemma StartedCalls(h: Tracked, h': Tracked, a: nat, flow: nat)
    requires CallsOk(h) && a < |h.s.pcs| && h.s.pcs[a].Starting? && h.s.pcs[a].flow == flow && flow < h.s.nextFlow
    requires forall b: nat :: b < |h.s.pcs| && b != a ==> FlowOf(h.s.pcs[b]) != Some(flow)
    requires |h'.s.pcs| == |h.s.pcs| && h'.s.pcs == h.s.pcs[a := h'.s.pcs[a]] && h'.s.nextFlow == h.s.nextFlow
    requires h'.ends == h.ends && flow in h'.starts && h'.starts == h.starts[flow := h'.starts[flow]]
    requires h'.s.pcs[a] == Idle || (h'.s.pcs[a].Terminating? && h'.s.pcs[a].flow == flow && h'.starts[flow])
    ensures CallsOk(h')
  {
    forall b: nat | b < |h.s.pcs| && b != a
      ensures h'.s.pcs[b] == h.s.pcs[b] && (FlowOf(h.s.pcs[b]).Some? ==> FlowOf(h.s.pcs[b]).value != flow)
    {
    }
  }

  lemma StartDone(h: Tracked, a: nat, acquired: bool)
    requires FreshOk(h.s) && CallsOk(h) && DoneOk(h)
    requires Enabled(h.s, Label(a, Advance(acquired))) && h.s.pcs[a].Starting?
    ensures DoneOk(Track(h, Label(a, Advance(acquired))))
  {
    var flow, h' := h.s.pcs[a].flow, Track(h, Label(a, Advance(acquired)));
    forall i: nat | i < |h'.edges| && !Came(h', h'.edges[i].flow)
      ensures InProgress(h'.s, h'.edges[i].flow)
    {
      if h.edges[i].flow == flow {
        assert FlowOf(h'.s.pcs[a]) == Some(flow);
      } else {
        OthersInProgress(h.s, h'.s, a, h.edges[i].flow);
      }
    }
  }

  lemma TerminateCalls(h: Tracked, a: nat, acquired: bool)
    requires FreshOk(h.s) && QueuedOk(h) && CallsOk(h) && DoneOk(h)
    requires Enabled(h.s, Label(a, Advance(acquired))) && h.s.pcs[a].Terminating?
    ensures var h' := Track(h, Label(a, Advance(acquired))); QueuedOk(h') && CallsOk(h') && DoneOk(h')
  {
    var flow, h' := h.s.pcs[a].flow, Track(h, Label(a, Advance(acquired)));
    forall b: nat | b < |h.s.pcs| && b != a
      ensures h'.s.pcs[b] == h.s.pcs[b] && (FlowOf(h.s.pcs[b]).Some? ==> FlowOf(h.s.pcs[b]).value != flow)
    {
    }
    forall i: nat | i < |h'.edges| && !Came(h', h'.edges[i].flow)
      ensures InProgress(h'.s, h'.edges[i].flow)
    {
      OthersInProgress(h.s, h'.s, a, h.edges[i].flow);
    }
  }

  lemma CallsKept(h: Tracked, l: Label)
    requires Inv(h.s) && OrderOk(h) && QueuedOk(h) && CallsOk(h) && DoneOk(h) && Enabled(h.s, l)
    ensures var h' := Track(h, l); QueuedOk(h') && CallsOk(h') && DoneOk(h')
  {
    if Apart(h.s, l) {
      ApartSteps(h.s, l);
      SameCalls(h, Track(h, l), l.actor);
    } else if l.action.Follow? {
      FollowCalls(h, l);
    } else if h.s.pcs[l.actor].Starting? {
      StartCalls(h, l.actor, l.action.acquired);
      StartDone(h, l.actor, l.action.acquired);
    } else {
      TerminateCalls(h, l.actor, l.action.acquired);
    }
  }

  lemma CreatedKept(h: Tracked, l: Label)
    requires Inv(h.s) && CreatedOk(h) && Enabled(h.s, l)
    ensures CreatedOk(Track(h, l))
  {
    if l.action.Advance? {
      StepKeepsCreated(h, l.actor, l.action.acquired);
    }
  }

  lemma StepKeepsTracks(s: State, a: nat, acquired: bool)
    requires a < |s.pcs| && s.pcs[a] != Idle
    ensures var s' := Step(s, a, s.pcs[a], acquired);
            s'.spans.Keys == s.spans.Keys && forall span :: span in s.spans ==>
                s'.spans[span].track == s.spans[span].track
  {
    assert Plainly(s, Step(s, a, s.pcs[a], acquired), a);
  }

  lemma StepKeepsCreated(h: Tracked, a: nat, acquired: bool)
    requires CreatedOk(h) && Enabled(h.s, Label(a, Advance(acquired)))
    ensures CreatedOk(Track(h, Label(a, Advance(acquired))))
  {
    StepKeepsTracks(h.s, a, acquired);
    assert Plainly(h.s, Step(h.s, a, h.s.pcs[a], acquired), a);
    SameCreated(h, Track(h, Label(a, Advance(acquired))), a);
  }

  lemma SameCreated(h: Tracked, h': Tracked, a: nat)
    requires CreatedOk(h) && Plainly(h.s, h'.s, a) && h'.tracks == h.tracks
    requires forall span :: span in h.s.spans ==> h'.s.spans[span].track == h.s.spans[span].track
    ensures CreatedOk(h')
  {
  }

  lemma {:induction false} RunKeepsCalls(h: Tracked, labels: seq<Label>)
    requires HistoryOk(h) && CallInv(h)
    ensures CallInv(RunTracked(h, labels))
    decreases |labels|
  {
    if labels != [] && Enabled(h.s, labels[0]) {
      CallsKept(h, labels[0]);
      CreatedKept(h, labels[0]);
      StepKeepsHistory(h, labels[0]);
      RunKeepsCalls(Track(h, labels[0]), labels[1..]);
    }
  }

  lemma ReachableCalls(h: Tracked, threadSlices: bool, gated: bool, actors: nat, labels: seq<Label>)
    requires h == RunTracked(Initially(threadSlices, gated, actors), labels)
    ensures HistoryOk(h) && CallInv(h)
  {
    InitialHistory(threadSlices, gated, actors);
    RunKeepsCalls(Initially(threadSlices, gated, actors), labels);
    ReachableHistory(h, threadSlices, gated, actors, labels);
  }

  // ------------------------------------------------------------ main results

  /**
   At the step that ends a close, each endpoint still waiting is written, once, if and only
   if the span was created with a lifetime track and the callback has a context.
   */
  lemma CloseIsExact(h: Tracked, threadSlices: bool, gated: bool, actors: nat, labels: seq<Label>, a: nat,
                     acquired: bool, e: Endpoint)
    requires h == RunTracked(Initially(threadSlices, gated, actors), labels)
    requires a < |h.s.pcs| && h.s.pcs[a].Closing? && e in h.s.pcs[a].pending
    ensures Count(h.s.written, e) == 0 && h.s.pcs[a].span in h.tracks
    ensures var s' := Apply(h.s, Label(a, Advance(acquired)));
            && Count(s'.written, e) == (if h.tracks[h.s.pcs[a].span] && acquired then 1 else 0)
            && if h.tracks[h.s.pcs[a].span] && acquired
               then WroteInOrder(h.s, s', h.s.pcs[a].span, h.s.pcs[a].pending) else s'.written == h.s.written
  {
    ReachableCalls(h, threadSlices, gated, actors, labels);
    CountAtClose(h.s, a, acquired, e);
    var pc := h.s.pcs[a];
    CloseWrites(h.s, a, pc.span, pc.track, pc.pending, acquired);
  }

  lemma CloseWrites(s: State, a: nat, span: nat, track: bool, pending: seq<Endpoint>, acquired: bool)
    requires a < |s.pcs| && s.pcs[a] == Closing(span, track, pending)
    ensures var s' := FinishClose(s, a, span, track, pending, acquired);
            && Apply(s, Label(a, Advance(acquired))) == s'
            && if track && acquired then WroteInOrder(s, s', span, pending) else s'.written == s.written
  {
  }

  /**
   Edge by edge, whatever the interleaving: a call in no callback's hands has come to its
   start. If the predecessor had state then, the start was queued on it, and so the
   terminate on the dependent if that had state; otherwise not. What is queued is written
   by the span it was queued on, once, under the condition of `DeliveredExactly`; what is
   not is never written.
   */
  lemma EdgesAreDelivered(h: Tracked, threadSlices: bool, gated: bool, actors: nat, labels: seq<Label>, i: nat)
    requires h == RunTracked(Initially(threadSlices, gated, actors), labels) && i < |h.edges|
    ensures var edge := h.edges[i];
            && (InProgress(h.s, edge.flow) || Came(h, edge.flow))
            && EndDelivered(h, Start(edge.flow), edge.predecessor, edge.flow in h.starts && h.starts[edge.flow])
            && EndDelivered(h, Terminate(edge.flow), edge.dependent, edge.flow in h.ends && h.ends[edge.flow])
  {
    ReachableCalls(h, threadSlices, gated, actors, labels);
    EndOfEdge(h, threadSlices, gated, actors, labels, i, Start(h.edges[i].flow));
    EndOfEdge(h, threadSlices, gated, actors, labels, i, Terminate(h.edges[i].flow));
  }

  /** What becomes of one end of an edge, given whether its span had state to queue it on. */
  ghost predicate EndDelivered(h: Tracked, e: Endpoint, span: nat, had: bool) {
    && (e in h.s.owners <==> had)
    && (had ==> h.s.owners[e] == span)
    && (had && Over(h.s, span) ==> Count(h.s.written, e) == if e in h.early || Guarded(h, span) then 1 else 0)
    && (!had ==> Count(h.s.written, e) == 0)
  }

  lemma EndOfEdge(h: Tracked, threadSlices: bool, gated: bool, actors: nat, labels: seq<Label>, i: nat, e: Endpoint)
    requires h == RunTracked(Initially(threadSlices, gated, actors), labels) && HistoryOk(h) && QueuedOk(h)
    requires i < |h.edges| && e.flow == h.edges[i].flow
    ensures EndDelivered(h, e, EndOf(h.edges[i], e),
                         if e.Start? then e.flow in h.starts && h.starts[e.flow]
                         else e.flow in h.ends && h.ends[e.flow])
  {
    EndpointOfEdge(h, i, e);
    if e in h.s.owners {
      if Over(h.s, h.s.owners[e]) {
        DeliveredExactly(h, threadSlices, gated, actors, labels, e);
      }
    } else {
      assert e !in h.s.fates;
    }
  }
}
