/** The tracks mirror the span tree, and form one tree rooted at the process track. */
module TrackTree {
  import opened Prelude
  import opened TrackMachine
  import opened TrackOwnership
  import opened TrackShapes
  import opened TrackPools
  import opened TrackKeys

  /** A parent outlives its children, created or being created. */
  ghost predicate Orderly(s: State, l: Label) {
    l.action.Close? ==>
      && (forall id :: id in s.live ==> s.live[id].parent != Some(l.action.span))
      && (forall a: nat :: a < |s.pcs| && Creating(s.pcs[a]).Some? ==>
          Creating(s.pcs[a]).value.2 != Some(l.action.span))
  }

  /** The key names the enclosing span's present track, or the process track. */
  ghost predicate ParentOk(s: State, key: Key, parent: Option<nat>) {
    && (parent.Some? ==> parent.value in s.live)
    && (if TrackOf(s.live, parent).Some? then key.parent == TrackOf(s.live, parent).value
        else s.process == Some(key.parent))
  }

  ghost predicate TreeOk(s: State) {
    && (forall id :: id in s.live ==> ParentOk(s, s.live[id].key, s.live[id].parent))
    && (forall a: nat :: a < |s.pcs| && Creating(s.pcs[a]).Some? ==>
          ParentOk(s, Creating(s.pcs[a]).value.1, Creating(s.pcs[a]).value.2))
  }

  /** Steps that leave spans and the process track alone. */
  lemma WithinKeepsTree(s: State, s': State, a: nat)
    requires TreeOk(s) && MovesOnly(s, s', a) && s'.live == s.live && s'.process == s.process
    requires Creating(s'.pcs[a]).Some? ==> Creating(s'.pcs[a]) == Creating(s.pcs[a])
    ensures TreeOk(s')
  {
    forall b: nat | b < |s'.pcs| && Creating(s'.pcs[b]).Some?
      ensures ParentOk(s', Creating(s'.pcs[b]).value.1, Creating(s'.pcs[b]).value.2)
    {
      assert Creating(s.pcs[b]) == Creating(s'.pcs[b]);
    }
  }

  /** A new span's state does not disturb the others'. */
  lemma InsertKeepsTree(s: State, s': State, a: nat, id: nat, span: Span)
    requires TreeOk(s) && id !in s.live && MovesOnly(s, s', a) && s'.live == s.live[id := span]
    requires s'.process == s.process
    requires Creating(s'.pcs[a]) == None && ParentOk(s, span.key, span.parent)
    ensures TreeOk(s')
  {
    forall b: nat | b < |s'.pcs| && Creating(s'.pcs[b]).Some?
      ensures ParentOk(s', Creating(s'.pcs[b]).value.1, Creating(s'.pcs[b]).value.2)
    {
      assert Creating(s.pcs[b]) == Creating(s'.pcs[b]);
    }
  }

  lemma StartKeepsTree(s: State, a: nat, id: nat, address: nat, length: nat, parent: Option<nat>)
    requires TreeOk(s) && a < |s.pcs|
    ensures TreeOk(StartSpan(s, a, id, address, length, parent))
  {
    var s' := StartSpan(s, a, id, address, length, parent);
    forall j | j in s'.live
      ensures ParentOk(s', s'.live[j].key, s'.live[j].parent)
    {
      assert ParentOk(s, s.live[j].key, s.live[j].parent);
    }
    forall b: nat | b < |s'.pcs| && Creating(s'.pcs[b]).Some?
      ensures ParentOk(s', Creating(s'.pcs[b]).value.1, Creating(s'.pcs[b]).value.2)
    {
      if b != a {
        assert ParentOk(s, Creating(s.pcs[b]).value.1, Creating(s.pcs[b]).value.2);
      }
    }
  }

  lemma PollKeepsTree(s: State, id: nat, kind: Kind, choice: Choice)
    requires TreeOk(s) && id in s.live
    ensures TreeOk(Poll(s, id, kind, choice))
  {
    var s' := Poll(s, id, kind, choice);
    assert forall parent: Option<nat> :: TrackOf(s'.live, parent) == TrackOf(s.live, parent);
    forall j | j in s'.live
      ensures ParentOk(s', s'.live[j].key, s'.live[j].parent)
    {
      assert ParentOk(s, s.live[j].key, s.live[j].parent);
    }
    forall b: nat | b < |s'.pcs| && Creating(s'.pcs[b]).Some?
      ensures ParentOk(s', Creating(s'.pcs[b]).value.1, Creating(s'.pcs[b]).value.2)
    {
      assert ParentOk(s, Creating(s.pcs[b]).value.1, Creating(s.pcs[b]).value.2);
    }
  }

  lemma CloseKeepsTree(s: State, a: nat, id: nat)
    requires TreeOk(s) && a < |s.pcs| && id in s.live && s.pcs[a] == Idle
    requires forall j :: j in s.live ==> s.live[j].parent != Some(id)
    requires forall b: nat :: b < |s.pcs| && Creating(s.pcs[b]).Some? ==> Creating(s.pcs[b]).value.2 != Some(id)
    ensures TreeOk(TakeSpan(s, a, id))
  {
    ChildlessKeepsTree(s, TakeSpan(s, a, id), a, id);
  }

  lemma ChildlessKeepsTree(s: State, s': State, a: nat, id: nat)
    requires TreeOk(s) && s'.live == s.live - {id} && s'.process == s.process && MovesOnly(s, s', a)
    requires Creating(s'.pcs[a]) == None
    requires forall j :: j in s.live ==> s.live[j].parent != Some(id)
    requires forall b: nat :: b < |s.pcs| && Creating(s.pcs[b]).Some? ==> Creating(s.pcs[b]).value.2 != Some(id)
    ensures TreeOk(s')
  {
    forall j | j in s'.live
      ensures ParentOk(s', s'.live[j].key, s'.live[j].parent)
    {
      assert ParentOk(s, s.live[j].key, s.live[j].parent);
    }
    forall b: nat | b < |s'.pcs| && Creating(s'.pcs[b]).Some?
      ensures ParentOk(s', Creating(s'.pcs[b]).value.1, Creating(s'.pcs[b]).value.2)
    {
      assert Creating(s.pcs[b]) == Creating(s'.pcs[b]);
      assert ParentOk(s, Creating(s.pcs[b]).value.1, Creating(s.pcs[b]).value.2);
    }
  }

  lemma StoreKeepsTree(s: State, a: nat, w: Work, owner: Option<nat>, u: nat)
    requires TreeOk(s) && Shaped(s) && a < |s.pcs| && s.pcs[a] == Storing(w, owner, u) && w.context < |s.contexts|
    requires u < |s.places|
    ensures TreeOk(Store(s, a, w, owner, u))
  {
    assert IsCreating(s.pcs[a], w.span);
    InsertKeepsTree(s, Store(s, a, w, owner, u), a, w.span, Span(owner, Some(u), w.key, w.parent, 0));
  }

  lemma AdvanceKeepsTree(s: State, l: Label)
    requires TreeOk(s) && Shaped(s) && Enabled(s, l) && l.action.Advance?
    ensures TreeOk(Apply(s, l))
  {
    var a, pc, s' := l.actor, s.pcs[l.actor], Apply(s, l);
    if pc.Keyed? && l.choice.context.None? {
      assert IsCreating(pc, pc.span);
      InsertKeepsTree(s, s', a, pc.span, Span(None, None, pc.key, pc.parent, 0));
    } else if pc.Storing? {
      StoreKeepsTree(s, a, pc.work, pc.owner, pc.track);
    } else if Inner(pc) {
      InnerStepsWithin(s, a, pc, l.choice);
      WithinKeepsTree(s, s', a);
    } else {
      OuterKeepsTree(s, l);
    }
  }

  lemma OuterKeepsTree(s: State, l: Label)
    requires TreeOk(s) && Enabled(s, l) && l.action.Advance? && !Inner(s.pcs[l.actor]) && !s.pcs[l.actor].Storing?
    requires s.pcs[l.actor].Keyed? ==> l.choice.context.Some?
    ensures TreeOk(Apply(s, l))
  {
    var a := l.actor;
    match s.pcs[a]
    case Keyed(id, key, parent) =>
      var c := l.choice.context.value;
      WithinKeepsTree(s, Go(Borrow(s, c, Some(a)), a, Scanning(Work(id, key, parent, c))), a);
    case Opening(w, owner, hand) => OpenKeepsTree(s, a, w, owner, hand);
    case Beginning(w, owner, u) =>
      WithinKeepsTree(s, Go(Note(s, LifeBegin, u, l.choice.time, true), a, Storing(w, owner, u)), a);
    case Closing(key, owner, u) => AcquireForCloseKeepsTree(s, a, key, owner, u, l.choice);
    case Ending(c, key, owner, u) =>
      WithinKeepsTree(s, Go(Note(s, LifeEnd, u, l.choice.time, true), a, Releasing(Some(c), key, owner, u)), a);
  }

  lemma OpenKeepsTree(s: State, a: nat, w: Work, owner: Option<nat>, hand: Option<nat>)
    requires TreeOk(s) && a < |s.pcs| && s.pcs[a] == Opening(w, owner, hand)
    ensures TreeOk(Open(s, a, w, owner, hand))
  {
    WithinKeepsTree(s, Open(s, a, w, owner, hand), a);
  }

  lemma AcquireForCloseKeepsTree(s: State, a: nat, key: Key, owner: Option<nat>, u: nat, choice: Choice)
    requires TreeOk(s) && a < |s.pcs| && s.pcs[a] == Closing(key, owner, u) && CanAcquire(s, choice)
    ensures TreeOk(AcquireForClose(s, a, key, owner, u, choice))
  {
    WithinKeepsTree(s, AcquireForClose(s, a, key, owner, u, choice), a);
  }

  lemma SideKeepsTree(s: State, l: Label)
    requires TreeOk(s) && Enabled(s, l) && (l.action.NewContext? || l.action.AllocateOther? || l.action.ExitThread?)
    ensures TreeOk(Apply(s, l))
  {
    WithinKeepsTree(s, Apply(s, l), l.actor);
  }

  /** No key names the process track before it exists. */
  lemma ProcessKeepsTree(s: State, l: Label)
    requires TreeOk(s) && Enabled(s, l) && l.action.UseProcess?
    ensures TreeOk(Apply(s, l))
  {
    var s' := Apply(s, l);
    forall id | id in s'.live
      ensures ParentOk(s', s'.live[id].key, s'.live[id].parent)
    {
      assert ParentOk(s, s.live[id].key, s.live[id].parent);
    }
    forall b: nat | b < |s'.pcs| && Creating(s'.pcs[b]).Some?
      ensures ParentOk(s', Creating(s'.pcs[b]).value.1, Creating(s'.pcs[b]).value.2)
    {
      assert ParentOk(s, Creating(s.pcs[b]).value.1, Creating(s.pcs[b]).value.2);
    }
  }

  lemma StepKeepsTree(s: State, l: Label)
    requires TreeOk(s) && Shaped(s) && Enabled(s, l) && Orderly(s, l)
    ensures TreeOk(Apply(s, l))
  {
    match l.action
    case NewSpan(id, address, length, parent) => StartKeepsTree(s, l.actor, id, address, length, parent);
    case Enter(id) => PollKeepsTree(s, id, PollBegin, l.choice);
    case ExitSpan(id) => PollKeepsTree(s, id, PollEnd, l.choice);
    case Close(id) => CloseKeepsTree(s, l.actor, id);
    case Advance => AdvanceKeepsTree(s, l);
    case UseProcess => ProcessKeepsTree(s, l);
    case _ => SideKeepsTree(s, l);
  }

  /** Every step of the run is orderly. */
  ghost predicate OrderlyRun(s: State, labels: seq<Label>)
    decreases |labels|
  {
    labels == [] || !Enabled(s, labels[0]) || (Orderly(s, labels[0]) && OrderlyRun(Apply(s, labels[0]), labels[1..]))
  }

  lemma {:induction false} RunKeepsTree(s: State, labels: seq<Label>)
    requires TracksOk(s) && TreeOk(s) && OrderlyRun(s, labels)
    ensures TreeOk(Run(s, labels))
    decreases |labels|
  {
    if labels != [] && Enabled(s, labels[0]) {
      StepKeyed(s, labels[0]);
      StepKeepsTree(s, labels[0]);
      RunKeepsTree(Apply(s, labels[0]), labels[1..]);
    }
  }

  /**
   Provided parents outlive their children: the descriptor of every live span's track
   names as its parent the present track of the enclosing span, or the process track if
   that span has none.
   */
  lemma TracksMirrorSpans(s: State, actors: nat, polls: bool, labels: seq<Label>, id: nat)
    requires s == Run(Initial(actors, polls), labels) && OrderlyRun(Initial(actors, polls), labels)
    requires id in s.live && s.live[id].track.Some?
    ensures var (u, parent) := (s.live[id].track.value, s.live[id].parent);
            && u < |s.keys| && s.keys[u].Some?
            && (parent.Some? ==> parent.value in s.live)
            && (if TrackOf(s.live, parent).Some? then s.keys[u].value.parent == TrackOf(s.live, parent).value
                else s.process == Some(s.keys[u].value.parent))
  {
    InitialKeyed(actors, polls);
    RunKeepsTree(Initial(actors, polls), labels);
    DescriptorsAreConsistent(s, actors, polls, labels);
    assert ParentOk(s, s.live[id].key, s.live[id].parent);
  }

  // ------------------------------------------------------------ the tree of all tracks ever made

  /** `p` is older than `u`, and is the process track or another span's track. */
  predicate HangsFrom(s: State, p: nat, u: nat) {
    p < u && (s.process == Some(p) || (p < |s.keys| && s.keys[p].Some?))
  }

  ghost predicate RootsOk(s: State) {
    && (forall u: nat :: u < |s.keys| && s.keys[u].Some? ==> HangsFrom(s, s.keys[u].value.parent, u))
    && (forall a: nat :: a < |s.pcs| && Creating(s.pcs[a]).Some? ==>
        HangsFrom(s, Creating(s.pcs[a]).value.1.parent, |s.keys|))
    && (s.process.Some? ==> s.process.value < |s.keys| && s.keys[s.process.value] == None)
  }

  /** Steps that describe no track, but may allocate other uuids. */
  lemma WithinKeepsRoots(s: State, s': State, a: nat)
    requires RootsOk(s) && MovesOnly(s, s', a) && s'.process == s.process
    requires s'.keys == s.keys || s'.keys == s.keys + [None]
    requires Creating(s'.pcs[a]).Some? ==> Creating(s'.pcs[a]) == Creating(s.pcs[a])
    ensures RootsOk(s')
  {
    forall b: nat | b < |s'.pcs| && Creating(s'.pcs[b]).Some?
      ensures HangsFrom(s', Creating(s'.pcs[b]).value.1.parent, |s'.keys|)
    {
      assert Creating(s.pcs[b]) == Creating(s'.pcs[b]);
    }
  }

  lemma StartKeepsRoots(s: State, a: nat, id: nat, address: nat, length: nat, parent: Option<nat>)
    requires RootsOk(s) && AllKeyed(s) && |s.keys| == |s.places| && a < |s.pcs|
    ensures RootsOk(StartSpan(s, a, id, address, length, parent))
  {
    var s' := StartSpan(s, a, id, address, length, parent);
    var track := TrackOf(s.live, parent);
    if track.Some? {
      assert SpanKeyed(s, s.live[parent.value]);
    }
    assert HangsFrom(s', Creating(s'.pcs[a]).value.1.parent, |s'.keys|);
    forall b: nat | b < |s'.pcs| && Creating(s'.pcs[b]).Some?
      ensures HangsFrom(s', Creating(s'.pcs[b]).value.1.parent, |s'.keys|)
    {
      if b != a {
        assert HangsFrom(s, Creating(s.pcs[b]).value.1.parent, |s.keys|);
      }
    }
    forall u: nat | u < |s'.keys| && s'.keys[u].Some?
      ensures HangsFrom(s', s'.keys[u].value.parent, u)
    {
      assert HangsFrom(s, s.keys[u].value.parent, u);
    }
  }

  lemma OpenKeepsRoots(s: State, a: nat, w: Work, owner: Option<nat>, hand: Option<nat>)
    requires RootsOk(s) && a < |s.pcs| && s.pcs[a] == Opening(w, owner, hand) && |s.keys| == |s.places|
    ensures RootsOk(Open(s, a, w, owner, hand))
  {
    var s' := Open(s, a, w, owner, hand);
    assert HangsFrom(s, Creating(s.pcs[a]).value.1.parent, |s.keys|);
    forall b: nat | b < |s'.pcs| && Creating(s'.pcs[b]).Some?
      ensures HangsFrom(s', Creating(s'.pcs[b]).value.1.parent, |s'.keys|)
    {
      assert Creating(s.pcs[b]) == Creating(s'.pcs[b]);
      assert HangsFrom(s, Creating(s.pcs[b]).value.1.parent, |s.keys|);
    }
    forall u: nat | u < |s'.keys| && s'.keys[u].Some?
      ensures HangsFrom(s', s'.keys[u].value.parent, u)
    {
      assert u < |s.keys| ==> HangsFrom(s, s.keys[u].value.parent, u);
    }
  }

  lemma AcquireForSpanKeepsRoots(s: State, a: nat, id: nat, key: Key, parent: Option<nat>, choice: Choice)
    requires RootsOk(s) && a < |s.pcs| && s.pcs[a] == Keyed(id, key, parent) && CanAcquire(s, choice)
    ensures RootsOk(AcquireForSpan(s, a, id, key, parent, choice))
  {
    WithinKeepsRoots(s, AcquireForSpan(s, a, id, key, parent, choice), a);
  }

  lemma StoreKeepsRoots(s: State, a: nat, w: Work, owner: Option<nat>, u: nat)
    requires RootsOk(s) && a < |s.pcs| && s.pcs[a] == Storing(w, owner, u) && w.context < |s.contexts| && u < |s.places|
    ensures RootsOk(Store(s, a, w, owner, u))
  {
    WithinKeepsRoots(s, Store(s, a, w, owner, u), a);
  }

  lemma AcquireForCloseKeepsRoots(s: State, a: nat, key: Key, owner: Option<nat>, u: nat, choice: Choice)
    requires RootsOk(s) && a < |s.pcs| && s.pcs[a] == Closing(key, owner, u) && CanAcquire(s, choice)
    ensures RootsOk(AcquireForClose(s, a, key, owner, u, choice))
  {
    WithinKeepsRoots(s, AcquireForClose(s, a, key, owner, u, choice), a);
  }

  lemma PollKeepsRoots(s: State, a: nat, id: nat, kind: Kind, choice: Choice)
    requires RootsOk(s) && a < |s.pcs| && id in s.live
    ensures RootsOk(Poll(s, id, kind, choice))
  {
    WithinKeepsRoots(s, Poll(s, id, kind, choice), a);
  }

  lemma TakeKeepsRoots(s: State, a: nat, id: nat)
    requires RootsOk(s) && a < |s.pcs| && id in s.live
    ensures RootsOk(TakeSpan(s, a, id))
  {
    WithinKeepsRoots(s, TakeSpan(s, a, id), a);
  }

  lemma OuterKeepsRoots(s: State, l: Label)
    requires RootsOk(s) && |s.keys| == |s.places| && Enabled(s, l) && l.action.Advance? && !Inner(s.pcs[l.actor])
    ensures RootsOk(Apply(s, l))
  {
    var a := l.actor;
    match s.pcs[a]
    case Keyed(id, key, parent) => AcquireForSpanKeepsRoots(s, a, id, key, parent, l.choice);
    case Opening(w, owner, hand) => OpenKeepsRoots(s, a, w, owner, hand);
    case Beginning(w, owner, u) =>
      WithinKeepsRoots(s, Go(Note(s, LifeBegin, u, l.choice.time, true), a, Storing(w, owner, u)), a);
    case Storing(w, owner, u) => StoreKeepsRoots(s, a, w, owner, u);
    case Closing(key, owner, u) => AcquireForCloseKeepsRoots(s, a, key, owner, u, l.choice);
    case Ending(c, key, owner, u) =>
      WithinKeepsRoots(s, Go(Note(s, LifeEnd, u, l.choice.time, true), a, Releasing(Some(c), key, owner, u)), a);
  }

  /** Steps outside any callback's inner course. */
  lemma SideKeepsRoots(s: State, l: Label)
    requires RootsOk(s) && Enabled(s, l) && (l.action.NewContext? || l.action.AllocateOther? || l.action.ExitThread?)
    ensures RootsOk(Apply(s, l))
  {
    WithinKeepsRoots(s, Apply(s, l), l.actor);
  }

  lemma ProcessKeepsRoots(s: State, l: Label)
    requires RootsOk(s) && |s.keys| == |s.places| && Enabled(s, l) && l.action.UseProcess?
    ensures RootsOk(Apply(s, l))
  {
    var s' := Apply(s, l);
    forall b: nat | b < |s'.pcs| && Creating(s'.pcs[b]).Some?
      ensures HangsFrom(s', Creating(s'.pcs[b]).value.1.parent, |s'.keys|)
    {
      assert HangsFrom(s, Creating(s.pcs[b]).value.1.parent, |s.keys|);
    }
    forall u: nat | u < |s'.keys| && s'.keys[u].Some?
      ensures HangsFrom(s', s'.keys[u].value.parent, u)
    {
      assert HangsFrom(s, s.keys[u].value.parent, u);
    }
  }

  lemma InnerKeepsRoots(s: State, l: Label)
    requires RootsOk(s) && Enabled(s, l) && l.action.Advance? && Inner(s.pcs[l.actor])
    ensures RootsOk(Apply(s, l))
  {
    InnerStepsWithin(s, l.actor, s.pcs[l.actor], l.choice);
    WithinKeepsRoots(s, Apply(s, l), l.actor);
  }

  lemma StepKeepsRoots(s: State, l: Label)
    requires TracksOk(s) && RootsOk(s) && Enabled(s, l)
    ensures RootsOk(Apply(s, l))
  {
    match l.action
    case NewSpan(id, address, length, parent) => StartKeepsRoots(s, l.actor, id, address, length, parent);
    case Enter(id) => PollKeepsRoots(s, l.actor, id, PollBegin, l.choice);
    case ExitSpan(id) => PollKeepsRoots(s, l.actor, id, PollEnd, l.choice);
    case Close(id) => TakeKeepsRoots(s, l.actor, id);
    case Advance =>
      if Inner(s.pcs[l.actor]) {
        InnerKeepsRoots(s, l);
      } else {
        OuterKeepsRoots(s, l);
      }
    case UseProcess => ProcessKeepsRoots(s, l);
    case _ => SideKeepsRoots(s, l);
  }

  lemma {:induction false} RunKeepsRoots(s: State, labels: seq<Label>)
    requires TracksOk(s) && RootsOk(s)
    ensures TracksOk(Run(s, labels)) && RootsOk(Run(s, labels))
    decreases |labels|
  {
    if labels != [] && Enabled(s, labels[0]) {
      StepKeyed(s, labels[0]);
      StepKeepsRoots(s, labels[0]);
      RunKeepsRoots(Apply(s, labels[0]), labels[1..]);
    }
  }

  /** The descriptor parents of a track, oldest last. */
  function Ancestry(keys: seq<Option<Key>>, u: nat): (path: seq<nat>)
    ensures path != [] && path[0] == u
    decreases u
  {
    if u < |keys| && keys[u].Some? && keys[u].value.parent < u then [u] + Ancestry(keys, keys[u].value.parent) else [u]
  }

  lemma {:induction false} AncestryEnds(s: State, u: nat)
    requires RootsOk(s) && u < |s.keys| && (s.keys[u].Some? || s.process == Some(u))
    ensures var path := Ancestry(s.keys, u);
            && s.process == Some(path[|path| - 1])
            && (forall i: nat :: i + 1 < |path| ==>
                  path[i + 1] < path[i] < |s.keys| && s.keys[path[i]].Some?
                  && s.keys[path[i]].value.parent == path[i + 1])
    decreases u
  {
    if s.keys[u].Some? {
      assert HangsFrom(s, s.keys[u].value.parent, u);
      AncestryEnds(s, s.keys[u].value.parent);
      var rest := Ancestry(s.keys, s.keys[u].value.parent);
      assert Ancestry(s.keys, u) == [u] + rest;
    }
  }

  /**
   In every reachable state, whether or not parents outlive children: following
   descriptor parents from any span track ever described leads, through ever older span
   tracks, to the process track.
   */
  lemma TracksFormOneTree(s: State, actors: nat, polls: bool, labels: seq<Label>, u: nat)
    requires s == Run(Initial(actors, polls), labels) && u < |s.keys| && s.keys[u].Some?
    ensures var path := Ancestry(s.keys, u);
            && s.process == Some(path[|path| - 1])
            && (forall i: nat :: i + 1 < |path| ==>
                  path[i + 1] < path[i] < |s.keys| && s.keys[path[i]].Some?
                  && s.keys[path[i]].value.parent == path[i + 1])
  {
    InitialKeyed(actors, polls);
    RunKeepsRoots(Initial(actors, polls), labels);
    AncestryEnds(s, u);
  }
}
