/** Lifetime and poll slices on recycled tracks: they balance, nest and never overlap. */
module TrackSlices {
  import opened Prelude
  import opened TrackMachine
  import opened TrackOwnership
  import opened TrackShapes
  import opened TrackPools
  import opened TrackKeys

  // ------------------------------------------------------------ counting marks

  predicate Counts(m: Mark, u: nat, kind: Kind, missed: bool) {
    m.track == u && m.kind == kind && (missed || m.emitted)
  }

  /** How many marks of a kind a track has; with the missed ones, or only those emitted. */
  function Count(log: seq<Mark>, u: nat, kind: Kind, missed: bool): nat {
    if log == [] then 0
    else
      var last := log[|log| - 1];
      Count(log[..|log| - 1], u, kind, missed) + if Counts(last, u, kind, missed) then 1 else 0
  }

  lemma CountPush(log: seq<Mark>, m: Mark, u: nat, kind: Kind, missed: bool)
    ensures Count(log + [m], u, kind, missed)
         == Count(log, u, kind, missed) + if Counts(m, u, kind, missed) then 1 else 0
  {
    assert (log + [m])[..|log|] == log;
  }

  /** Lifetime slices due to be open. */
  function LifeDue(log: seq<Mark>, u: nat): int {
    Count(log, u, LifeBegin, true) - Count(log, u, LifeEnd, true)
  }

  function PollDue(log: seq<Mark>, u: nat): int {
    Count(log, u, PollBegin, true) - Count(log, u, PollEnd, true)
  }

  // ------------------------------------------------------------ the invariant

  /** The track's present span has begun its lifetime slice and not yet ended it. */
  ghost predicate InLife(s: State, u: nat) {
    || (exists id: nat :: TrackAt(s.live, id) == Some(u))
    || (exists a: nat :: a < |s.pcs| && Alive(s.pcs[a]) == Some(u))
  }

  ghost predicate LivesOk(s: State) {
    forall u: nat :: LifeDue(s.log, u) == if InLife(s, u) then 1 else 0
  }

  ghost predicate PollsOk(s: State) {
    && (forall id: nat :: id in s.live && s.live[id].track.Some? ==>
          PollDue(s.log, s.live[id].track.value) == if s.polls then s.live[id].entered else 0)
    && (forall u: nat :: (forall id: nat :: TrackAt(s.live, id) != Some(u)) ==> PollDue(s.log, u) == 0)
  }

  /** What was true when a mark was made. */
  ghost predicate MarkOk(before: seq<Mark>, m: Mark) {
    match m.kind
    case LifeBegin => m.emitted && LifeDue(before, m.track) == 0 && PollDue(before, m.track) == 0
    case LifeEnd => LifeDue(before, m.track) == 1 && PollDue(before, m.track) == 0
    case PollBegin => LifeDue(before, m.track) == 1 && PollDue(before, m.track) >= 0
    case PollEnd => LifeDue(before, m.track) == 1 && PollDue(before, m.track) > 0
  }

  ghost predicate LogOk(log: seq<Mark>) {
    forall i: nat :: i < |log| ==> MarkOk(log[..i], log[i])
  }

  ghost predicate SlicesOk(s: State) {
    LivesOk(s) && PollsOk(s) && LogOk(s.log)
  }

  lemma LogPush(log: seq<Mark>, m: Mark)
    requires LogOk(log) && MarkOk(log, m)
    ensures LogOk(log + [m])
  {
    forall i: nat | i < |log + [m]|
      ensures MarkOk((log + [m])[..i], (log + [m])[i])
    {
      assert i < |log| ==> (log + [m])[..i] == log[..i];
      assert (log + [m])[..|log|] == log;
    }
  }

  /** The registry exits a span only when entered, and closes it only when not. */
  predicate Balanced(s: State, l: Label) {
    match l.action
    case ExitSpan(id) => id in s.live ==> s.live[id].entered > 0
    case Close(id) => id in s.live ==> s.live[id].entered == 0
    case _ => true
  }

  // ------------------------------------------------------------ who is in life

  /** A uuid in a callback's hand is on no live span and in no other hand. */
  lemma InHandOnly(s: State, a: nat, u: nat)
    requires PlacesOk(s) && a < |s.pcs| && HandOf(s.pcs[a]) == Some(u)
    ensures forall id: nat :: TrackAt(s.live, id) != Some(u)
    ensures forall b: nat :: b < |s.pcs| && HandOf(s.pcs[b]) == Some(u) ==> b == a
  {
    assert Holds(s, Hand(a), u);
    forall id: nat
      ensures TrackAt(s.live, id) != Some(u)
    {
      assert !Holds(s, Live(id), u);
    }
    forall b: nat | b < |s.pcs| && HandOf(s.pcs[b]) == Some(u)
      ensures b == a
    {
      assert Holds(s, Hand(b), u);
    }
  }

  lemma OnSpanOnly(s: State, id: nat, u: nat)
    requires PlacesOk(s) && TrackAt(s.live, id) == Some(u)
    ensures forall j: nat :: TrackAt(s.live, j) == Some(u) ==> j == id
    ensures forall b: nat :: b < |s.pcs| ==> HandOf(s.pcs[b]) != Some(u)
  {
    assert Holds(s, Live(id), u);
    forall j: nat | TrackAt(s.live, j) == Some(u)
      ensures j == id
    {
      assert Holds(s, Live(j), u);
    }
    forall b: nat | b < |s.pcs|
      ensures HandOf(s.pcs[b]) != Some(u)
    {
      assert HandOf(s.pcs[b]) == Some(u) ==> Holds(s, Hand(b), u);
    }
  }

  // ------------------------------------------------------------ steps

  /** Steps that change no span, no slice and no life. */
  lemma WithinKeepsSlices(s: State, s': State, a: nat)
    requires SlicesOk(s) && MovesOnly(s, s', a) && s'.live == s.live && s'.log == s.log && s'.polls == s.polls
    requires Alive(s'.pcs[a]) == Alive(s.pcs[a])
    ensures SlicesOk(s')
  {
    forall u: nat
      ensures InLife(s', u) <==> InLife(s, u)
    {
      assert forall b: nat :: b < |s.pcs| ==> Alive(s'.pcs[b]) == Alive(s.pcs[b]);
    }
  }

  /** A span without a track comes or goes. */
  lemma TracklessKeepsSlices(s: State, s': State, a: nat, id: nat)
    requires SlicesOk(s) && MovesOnly(s, s', a) && s'.log == s.log && s'.polls == s.polls
    requires TrackAt(s.live, id) == None && TrackAt(s'.live, id) == None
    requires forall j: nat :: j != id ==> (j in s'.live <==> j in s.live) && (j in s.live ==> s'.live[j] == s.live[j])
    requires Alive(s'.pcs[a]) == Alive(s.pcs[a])
    ensures SlicesOk(s')
  {
    assert forall j: nat :: TrackAt(s'.live, j) == TrackAt(s.live, j);
    forall u: nat
      ensures InLife(s', u) <==> InLife(s, u)
    {
      assert forall b: nat :: b < |s.pcs| ==> Alive(s'.pcs[b]) == Alive(s.pcs[b]);
    }
  }

  lemma BeginKeepsSlices(s: State, a: nat, w: Work, owner: Option<nat>, u: nat, time: nat)
    requires SlicesOk(s) && PlacesOk(s) && a < |s.pcs| && s.pcs[a] == Beginning(w, owner, u)
    ensures SlicesOk(Go(Note(s, LifeBegin, u, time, true), a, Storing(w, owner, u)))
  {
    var m := Mark(LifeBegin, u, time, true);
    var s' := Go(Note(s, LifeBegin, u, time, true), a, Storing(w, owner, u));
    InHandOnly(s, a, u);
    assert forall b: nat :: b < |s.pcs| ==> Alive(s.pcs[b]) == Some(u) ==> HandOf(s.pcs[b]) == Some(u);
    assert !InLife(s, u);
    LogPush(s.log, m);
    Counted(s.log, m);
    forall x: nat
      ensures InLife(s', x) <==> InLife(s, x) || x == u
    {
      assert forall b: nat :: b < |s.pcs| && b != a ==> Alive(s'.pcs[b]) == Alive(s.pcs[b]);
      assert Alive(s'.pcs[a]) == Some(u);
    }
  }

  /** One mark more. */
  lemma Counted(log: seq<Mark>, m: Mark)
    ensures forall x: nat :: LifeDue(log + [m], x)
                          == LifeDue(log, x) + if m.track != x then 0 else if m.kind == LifeBegin then 1
                              else if m.kind == LifeEnd then -1 else 0
    ensures forall x: nat :: PollDue(log + [m], x)
                          == PollDue(log, x) + if m.track != x then 0 else if m.kind == PollBegin then 1
                              else if m.kind == PollEnd then -1 else 0
  {
    forall x: nat
      ensures LifeDue(log + [m], x)
           == LifeDue(log, x) + if m.track != x then 0 else if m.kind == LifeBegin then 1
               else if m.kind == LifeEnd then -1 else 0
      ensures PollDue(log + [m], x)
           == PollDue(log, x) + if m.track != x then 0 else if m.kind == PollBegin then 1
               else if m.kind == PollEnd then -1 else 0
    {
      CountPush(log, m, x, LifeBegin, true);
      CountPush(log, m, x, LifeEnd, true);
      CountPush(log, m, x, PollBegin, true);
      CountPush(log, m, x, PollEnd, true);
    }
  }

  /** The lifetime slice's end, written or missed. */
  lemma EndKeepsSlices(s: State, a: nat, u: nat, time: nat, emitted: bool, pc: Pc)
    requires SlicesOk(s) && PlacesOk(s) && a < |s.pcs| && Alive(s.pcs[a]) == Some(u) && Alive(pc) == None
    ensures SlicesOk(Go(Note(s, LifeEnd, u, time, emitted), a, pc))
  {
    var m := Mark(LifeEnd, u, time, emitted);
    var s' := Go(Note(s, LifeEnd, u, time, emitted), a, pc);
    InHandOnly(s, a, u);
    assert forall b: nat :: b < |s.pcs| ==> Alive(s.pcs[b]) == Some(u) ==> HandOf(s.pcs[b]) == Some(u);
    assert InLife(s, u);
    LogPush(s.log, m);
    Counted(s.log, m);
    forall x: nat
      ensures InLife(s', x) <==> InLife(s, x) && x != u
    {
      assert forall b: nat :: b < |s.pcs| && b != a ==> Alive(s'.pcs[b]) == Alive(s.pcs[b]);
      assert Alive(s'.pcs[a]) == None;
    }
  }

  lemma StoreKeepsSlices(s: State, a: nat, w: Work, owner: Option<nat>, u: nat)
    requires SlicesOk(s) && Owned(s) && a < |s.pcs| && s.pcs[a] == Storing(w, owner, u) && w.context < |s.contexts|
    requires u < |s.places|
    ensures SlicesOk(Store(s, a, w, owner, u))
  {
    var s' := Store(s, a, w, owner, u);
    InHandOnly(s, a, u);
    assert IsCreating(s.pcs[a], w.span);
    assert TrackAt(s'.live, w.span) == Some(u);
    assert forall j: nat :: j != w.span ==> TrackAt(s'.live, j) == TrackAt(s.live, j);
    forall x: nat
      ensures InLife(s', x) <==> InLife(s, x)
    {
      assert forall b: nat :: b < |s.pcs| && b != a ==> Alive(s'.pcs[b]) == Alive(s.pcs[b]);
      assert Alive(s.pcs[a]) == Some(u) && Alive(s'.pcs[a]) == None;
    }
  }

  lemma TakeKeepsSlices(s: State, a: nat, id: nat)
    requires SlicesOk(s) && Owned(s) && a < |s.pcs| && s.pcs[a] == Idle && id in s.live && s.live[id].entered == 0
    ensures SlicesOk(TakeSpan(s, a, id))
  {
    var s' := TakeSpan(s, a, id);
    var span := s.live[id];
    if span.track.None? {
      TracklessKeepsSlices(s, s', a, id);
    } else {
      var u := span.track.value;
      OnSpanOnly(s, id, u);
      assert Holds(s, Live(id), u);
      assert forall j: nat :: j != id ==> TrackAt(s'.live, j) == TrackAt(s.live, j);
      forall x: nat
        ensures InLife(s', x) <==> InLife(s, x)
      {
        assert forall b: nat :: b < |s.pcs| && b != a ==> Alive(s'.pcs[b]) == Alive(s.pcs[b]);
        assert Alive(s'.pcs[a]) == Some(u) && Alive(s.pcs[a]) == None;
        assert TrackAt(s.live, id) == Some(u);
      }
    }
  }

  lemma PollKeepsSlices(s: State, a: nat, id: nat, kind: Kind, choice: Choice)
    requires SlicesOk(s) && PlacesOk(s) && a < |s.pcs| && id in s.live && (kind == PollBegin || kind == PollEnd)
    requires kind == PollEnd ==> s.live[id].entered > 0
    ensures SlicesOk(Poll(s, id, kind, choice))
  {
    var s' := Poll(s, id, kind, choice);
    assert forall j: nat :: TrackAt(s'.live, j) == TrackAt(s.live, j);
    assert forall x: nat :: InLife(s', x) <==> InLife(s, x);
    if s.polls && s.live[id].track.Some? {
      MarkedPoll(s, a, id, kind, choice);
    } else {
      assert s'.log == s.log;
      forall j: nat | j in s'.live && s'.live[j].track.Some?
        ensures PollDue(s'.log, s'.live[j].track.value) == if s'.polls then s'.live[j].entered else 0
      {
        assert PollDue(s.log, s.live[j].track.value) == if s.polls then s.live[j].entered else 0;
      }
    }
  }

  lemma MarkedPoll(s: State, a: nat, id: nat, kind: Kind, choice: Choice)
    requires SlicesOk(s) && PlacesOk(s) && a < |s.pcs| && id in s.live && (kind == PollBegin || kind == PollEnd)
    requires kind == PollEnd ==> s.live[id].entered > 0
    requires s.polls && s.live[id].track.Some?
    ensures SlicesOk(Poll(s, id, kind, choice))
  {
    var s' := Poll(s, id, kind, choice);
    var u := s.live[id].track.value;
    var m := Mark(kind, u, choice.time, choice.context.Some?);
    assert TrackAt(s.live, id) == Some(u);
    assert InLife(s, u);
    OnSpanOnly(s, id, u);
    LogPush(s.log, m);
    Counted(s.log, m);
    assert s'.log == s.log + [m];
    assert forall j: nat :: TrackAt(s'.live, j) == TrackAt(s.live, j);
    assert forall x: nat :: InLife(s', x) <==> InLife(s, x);
    forall j: nat | j in s'.live && s'.live[j].track.Some?
      ensures PollDue(s'.log, s'.live[j].track.value) == s'.live[j].entered
    {
      assert j != id ==> TrackAt(s.live, j) != Some(u);
    }
  }

  // ------------------------------------------------------------ every step

  lemma OuterKeepsSlices(s: State, l: Label)
    requires SlicesOk(s) && Owned(s) && Enabled(s, l) && l.action.Advance? && !Inner(s.pcs[l.actor])
    ensures SlicesOk(Apply(s, l))
  {
    var a := l.actor;
    match s.pcs[a]
    case Keyed(id, key, parent) => AcquireForSpanKeepsSlices(s, a, id, key, parent, l.choice);
    case Opening(w, owner, hand) => OpenKeepsSlices(s, a, w, owner, hand);
    case Beginning(w, owner, u) => BeginKeepsSlices(s, a, w, owner, u, l.choice.time);
    case Storing(w, owner, u) => StoreKeepsSlices(s, a, w, owner, u);
    case Closing(key, owner, u) => AcquireForCloseKeepsSlices(s, a, key, owner, u, l.choice);
    case Ending(c, key, owner, u) => EndKeepsSlices(s, a, u, l.choice.time, true, Releasing(Some(c), key, owner, u));
  }

  lemma AcquireForSpanKeepsSlices(s: State, a: nat, id: nat, key: Key, parent: Option<nat>, choice: Choice)
    requires SlicesOk(s) && CreatingOk(s) && a < |s.pcs| && s.pcs[a] == Keyed(id, key, parent) && CanAcquire(s, choice)
    ensures SlicesOk(AcquireForSpan(s, a, id, key, parent, choice))
  {
    if choice.context.Some? {
      WithinKeepsSlices(s, AcquireForSpan(s, a, id, key, parent, choice), a);
    } else {
      assert IsCreating(s.pcs[a], id);
      TracklessKeepsSlices(s, AcquireForSpan(s, a, id, key, parent, choice), a, id);
    }
  }

  lemma OpenKeepsSlices(s: State, a: nat, w: Work, owner: Option<nat>, hand: Option<nat>)
    requires SlicesOk(s) && a < |s.pcs| && s.pcs[a] == Opening(w, owner, hand)
    ensures SlicesOk(Open(s, a, w, owner, hand))
  {
    WithinKeepsSlices(s, Open(s, a, w, owner, hand), a);
  }

  lemma AcquireForCloseKeepsSlices(s: State, a: nat, key: Key, owner: Option<nat>, u: nat, choice: Choice)
    requires SlicesOk(s) && PlacesOk(s) && a < |s.pcs| && s.pcs[a] == Closing(key, owner, u) && CanAcquire(s, choice)
    ensures SlicesOk(AcquireForClose(s, a, key, owner, u, choice))
  {
    if choice.context.Some? {
      WithinKeepsSlices(s, AcquireForClose(s, a, key, owner, u, choice), a);
    } else {
      EndKeepsSlices(s, a, u, choice.time, false, Releasing(None, key, owner, u));
    }
  }

  lemma InnerKeepsSlices(s: State, l: Label)
    requires SlicesOk(s) && Enabled(s, l) && l.action.Advance? && Inner(s.pcs[l.actor])
    ensures SlicesOk(Apply(s, l))
  {
    InnerStepsWithin(s, l.actor, s.pcs[l.actor], l.choice);
    WithinKeepsSlices(s, Apply(s, l), l.actor);
  }

  lemma SideKeepsSlices(s: State, l: Label)
    requires SlicesOk(s) && Enabled(s, l) && (Allocates(l.action) || l.action.ExitThread?)
    ensures SlicesOk(Apply(s, l))
  {
    WithinKeepsSlices(s, Apply(s, l), l.actor);
  }

  lemma StartKeepsSlices(s: State, a: nat, id: nat, address: nat, length: nat, parent: Option<nat>)
    requires SlicesOk(s) && a < |s.pcs| && s.pcs[a] == Idle
    ensures SlicesOk(StartSpan(s, a, id, address, length, parent))
  {
    WithinKeepsSlices(s, StartSpan(s, a, id, address, length, parent), a);
  }

  lemma StepKeepsSlices(s: State, l: Label)
    requires SlicesOk(s) && Owned(s) && Enabled(s, l) && Balanced(s, l)
    ensures SlicesOk(Apply(s, l))
  {
    match l.action
    case NewSpan(id, address, length, parent) => StartKeepsSlices(s, l.actor, id, address, length, parent);
    case Enter(id) => PollKeepsSlices(s, l.actor, id, PollBegin, l.choice);
    case ExitSpan(id) => PollKeepsSlices(s, l.actor, id, PollEnd, l.choice);
    case Close(id) => TakeKeepsSlices(s, l.actor, id);
    case Advance =>
      if Inner(s.pcs[l.actor]) {
        InnerKeepsSlices(s, l);
      } else {
        OuterKeepsSlices(s, l);
      }
    case _ => SideKeepsSlices(s, l);
  }

  ghost predicate BalancedRun(s: State, labels: seq<Label>)
    decreases |labels|
  {
    labels == [] || !Enabled(s, labels[0]) || (Balanced(s, labels[0]) && BalancedRun(Apply(s, labels[0]), labels[1..]))
  }

  lemma {:induction false} RunKeepsSlices(s: State, labels: seq<Label>)
    requires SlicesOk(s) && Owned(s) && BalancedRun(s, labels)
    ensures SlicesOk(Run(s, labels)) && Owned(Run(s, labels))
    decreases |labels|
  {
    if labels != [] && Enabled(s, labels[0]) {
      StepOwned(s, labels[0]);
      StepKeepsSlices(s, labels[0]);
      RunKeepsSlices(Apply(s, labels[0]), labels[1..]);
    }
  }

  // ------------------------------------------------------------ main results

  function Missed(log: seq<Mark>, u: nat, kind: Kind): int {
    Count(log, u, kind, true) - Count(log, u, kind, false)
  }

  /** Begin marks minus end marks actually written. */
  function LifeDepth(log: seq<Mark>, u: nat): int {
    Count(log, u, LifeBegin, false) - Count(log, u, LifeEnd, false)
  }

  function PollDepth(log: seq<Mark>, u: nat): int {
    Count(log, u, PollBegin, false) - Count(log, u, PollEnd, false)
  }

  lemma {:induction false} MissedIsNatural(log: seq<Mark>, u: nat, kind: Kind)
    ensures Missed(log, u, kind) >= 0
    decreases |log|
  {
    if log != [] {
      MissedIsNatural(log[..|log| - 1], u, kind);
    }
  }

  lemma {:induction false} BeginsAreWritten(log: seq<Mark>, u: nat)
    requires LogOk(log)
    ensures Missed(log, u, LifeBegin) == 0
    decreases |log|
  {
    if log != [] {
      var front := log[..|log| - 1];
      assert LogOk(front) by {
        forall i: nat | i < |front|
          ensures MarkOk(front[..i], front[i])
        {
          assert front[..i] == log[..i];
        }
      }
      BeginsAreWritten(front, u);
      assert MarkOk(log[..|log| - 1], log[|log| - 1]);
    }
  }

  /**
   At every moment of a run in which exits precede close: a track's written slices are
   open exactly as often as they should be, but for the boundaries missed when a context
   could not be acquired. So a track no span is using is balanced if and only if as many
   ends were missed on it as poll begins; with nothing missed its depth is never negative.
   */
  lemma SlicesBalance(s: State, actors: nat, polls: bool, labels: seq<Label>, u: nat)
    requires s == Run(Initial(actors, polls), labels) && BalancedRun(Initial(actors, polls), labels)
    ensures LifeDepth(s.log, u) == (if InLife(s, u) then 1 else 0) + Missed(s.log, u, LifeEnd)
    ensures PollDepth(s.log, u) == PollDue(s.log, u) + Missed(s.log, u, PollEnd) - Missed(s.log, u, PollBegin)
    ensures !InLife(s, u) ==>
              (LifeDepth(s.log, u) + PollDepth(s.log, u) == 0
               <==> Missed(s.log, u, LifeEnd) + Missed(s.log, u, PollEnd) == Missed(s.log, u, PollBegin))
    ensures forall id: nat :: TrackAt(s.live, id) == Some(u) ==>
        PollDue(s.log, u) == if polls then s.live[id].entered else 0
    ensures (forall id: nat :: TrackAt(s.live, id) != Some(u)) ==> PollDue(s.log, u) == 0
    ensures Missed(s.log, u, LifeEnd) == Missed(s.log, u, PollEnd) == Missed(s.log, u, PollBegin) == 0 ==>
              LifeDepth(s.log, u) >= 0 && PollDepth(s.log, u) >= 0
  {
    InitialOwned(actors, polls);
    InitialSlices(actors, polls);
    RunKeepsSlices(Initial(actors, polls), labels);
    RunKeepsPolls(Initial(actors, polls), labels);
    BeginsAreWritten(s.log, u);
    assert forall id: nat :: TrackAt(s.live, id) == Some(u) ==> id in s.live && s.live[id].track == Some(u);
    assert (forall id: nat :: TrackAt(s.live, id) != Some(u)) || exists id: nat :: TrackAt(s.live, id) == Some(u);
  }

  lemma InitialSlices(actors: nat, polls: bool)
    ensures SlicesOk(Initial(actors, polls))
  {
  }

  lemma StepKeepsPolls(s: State, l: Label)
    requires Enabled(s, l)
    ensures Apply(s, l).polls == s.polls
  {
  }

  lemma {:induction false} RunKeepsPolls(s: State, labels: seq<Label>)
    ensures Run(s, labels).polls == s.polls
    decreases |labels|
  {
    if labels != [] && Enabled(s, labels[0]) {
      StepKeepsPolls(s, labels[0]);
      RunKeepsPolls(Apply(s, labels[0]), labels[1..]);
    }
  }

  lemma {:induction false} DueWithoutEnds(log: seq<Mark>, u: nat, i: nat, j: nat)
    requires i <= j <= |log| && forall k: nat :: i <= k < j ==> !(log[k].kind == LifeEnd && log[k].track == u)
    ensures LifeDue(log[..i], u) <= LifeDue(log[..j], u)
    decreases j - i
  {
    if i < j {
      DueWithoutEnds(log, u, i, j - 1);
      assert log[..j] == log[..j - 1] + [log[j - 1]];
      Counted(log[..j - 1], log[j - 1]);
    }
  }

  lemma EndBetween(log: seq<Mark>, i: nat, j: nat)
    requires LogOk(log) && i < j < |log| && log[i].kind == LifeBegin && log[j].kind == LifeBegin
    requires log[i].track == log[j].track
    ensures exists k: nat :: i + 1 <= k < j && log[k].kind == LifeEnd && log[k].track == log[i].track
  {
    var u := log[i].track;
    assert MarkOk(log[..i], log[i]) && MarkOk(log[..j], log[j]);
    assert log[..i + 1] == log[..i] + [log[i]];
    Counted(log[..i], log[i]);
    if forall k: nat :: i + 1 <= k < j ==> !(log[k].kind == LifeEnd && log[k].track == u) {
      DueWithoutEnds(log, u, i + 1, j);
      assert false;
    }
  }

  /**
   Successive lifetimes on a recycled track do not overlap: between two begins there is an
   end, and with a clock that never steps back it lies between them in time. Poll slices
   begin and end inside their lifetime slice, and none is open when it ends.
   */
  lemma LifetimesDoNotOverlap(s: State, actors: nat, polls: bool, labels: seq<Label>, i: nat, j: nat) returns (k: nat)
    requires s == Run(Initial(actors, polls), labels) && BalancedRun(Initial(actors, polls), labels)
    requires i < j < |s.log| && s.log[i].kind == LifeBegin && s.log[j].kind == LifeBegin
    requires s.log[i].track == s.log[j].track
    ensures i < k < j && s.log[k].kind == LifeEnd && s.log[k].track == s.log[i].track
    ensures Missed(s.log, s.log[i].track, LifeEnd) == 0 ==> s.log[k].emitted
    ensures (forall x: nat, y: nat :: x < y < |s.log| ==> s.log[x].time <= s.log[y].time) ==>
              s.log[i].time <= s.log[k].time <= s.log[j].time
    ensures LogOk(s.log)
  {
    InitialOwned(actors, polls);
    InitialSlices(actors, polls);
    RunKeepsSlices(Initial(actors, polls), labels);
    EndBetween(s.log, i, j);
    k :| i + 1 <= k < j && s.log[k].kind == LifeEnd && s.log[k].track == s.log[i].track;
    NoneMissed(s.log, s.log[i].track, LifeEnd, k);
  }

  lemma {:induction false} NoneMissed(log: seq<Mark>, u: nat, kind: Kind, k: nat)
    requires k < |log| && log[k].track == u && log[k].kind == kind
    ensures Missed(log, u, kind) == 0 ==> log[k].emitted
    decreases |log|
  {
    var front := log[..|log| - 1];
    MissedIsNatural(front, u, kind);
    if k < |front| {
      NoneMissed(front, u, kind, k);
    }
  }
}
