/** A run that misses the end of a slice: a span closes where no context can be acquired. */
module TrackWitnesses {
  import opened Prelude
  import opened TrackMachine
  import opened TrackOwnership
  import opened TrackSlices

  const KEY: Key := Key(7, 4, 1)
  const WORK: Work := Work(0, KEY, None, 0)
  const EMPTY_SLOTS: seq<Option<Slot>> := seq(CACHE_SLOTS, i => None)

  /** A step of the only callback, with the context it acquires if it needs one. */
  function Go0(context: Option<nat>): Label {
    Label(0, Advance, Choice(context, 0))
  }

  const NEXT: Label := Go0(None)

  const READY: State :=
    Initial(1, false).(pcs := [Idle], contexts := [Context(EMPTY_SLOTS, 0, None)], places := [Fixed], keys := [None])

  const KEYED: State :=
    READY.(pcs := [Keyed(0, KEY, None)], places := [Fixed, Fixed], keys := [None, None], process := Some(1))

  /** The callback holds the context. */
  const HELD: State := KEYED.(pcs := [Scanning(WORK)], contexts := [Context(EMPTY_SLOTS, 0, Some(0))])

  const LOCKED: State := HELD.(pcs := [Reserving(WORK)], locks := map[KEY := 0])

  const PUBLISHED: State :=
    HELD.(pcs := [Popping(WORK, 0, false)], pools := [Pool(KEY, [])], poolOf := map[KEY := 0], count := 1)

  const EMPTIED: State :=
    PUBLISHED.(pcs := [Installing(0, 0, 0, KEY, None, ForClaim(0, None))],
               contexts := [Context(EMPTY_SLOTS, 1, Some(0))])

  const SLOTS: seq<Option<Slot>> := EMPTY_SLOTS[0 := Some(Slot(KEY, 0, None))]

  const INSTALLED: State :=
    EMPTIED.(pcs := [Opening(WORK, Some(0), None)], contexts := [Context(SLOTS, 1, Some(0))])

  const BEGUN: State :=
    INSTALLED.(pcs := [Storing(WORK, Some(0), 2)], places := [Fixed, Fixed, Hand(0)], keys := [None, None, Some(KEY)],
               log := [Mark(LifeBegin, 2, 0, true)])

  const STORED: State :=
    BEGUN.(pcs := [Idle], contexts := [Context(SLOTS, 1, None)], places := [Fixed, Fixed, Live(0)],
           live := map[0 := Span(Some(0), Some(2), KEY, None, 0)])

  const MISSED: State :=
    STORED.(pcs := [Idle], places := [Fixed, Fixed, Pooled(0)], live := map[], pools := [Pool(KEY, [2])],
            log := [Mark(LifeBegin, 2, 0, true), Mark(LifeEnd, 2, 0, false)])

  /** Running `labels` from `s` comes to running `rest` from `s'`, each step being one the registry may make. */
  ghost predicate Comes(s: State, labels: seq<Label>, s': State, rest: seq<Label>) {
    Run(s, labels) == Run(s', rest) && (BalancedRun(s', rest) ==> BalancedRun(s, labels))
  }

  lemma OneStep(s: State, l: Label, s': State, rest: seq<Label>)
    requires Enabled(s, l) && Balanced(s, l) && Apply(s, l) == s'
    ensures Comes(s, [l] + rest, s', rest)
  {
    assert ([l] + rest)[1..] == rest;
  }

  /** The only callback moves on. */
  lemma OneMore(s: State, pc: Pc, s': State, rest: seq<Label>)
    requires s.pcs == [pc] && Steps(s, pc, NEXT.choice) && Step(s, 0, pc, NEXT.choice) == s'
    ensures Comes(s, [NEXT] + rest, s', rest)
  {
    OneStep(s, NEXT, s', rest);
  }

  function Creation(rest: seq<Label>): seq<Label> {
    [Label(0, NewContext, Choice(None, 0))]
        + ([Label(0, NewSpan(0, 7, 4, None), Choice(None, 0))] + ([Go0(Some(0))] + rest))
  }

  /** A thread appears and creates a span; the callback acquires the thread's context. */
  lemma CreationRuns(rest: seq<Label>)
    ensures Comes(Initial(1, false), Creation(rest), HELD, rest)
  {
    var rest2 := [Go0(Some(0))] + rest;
    var rest1 := [Label(0, NewSpan(0, 7, 4, None), Choice(None, 0))] + rest2;
    var initial := Initial(1, false);
    assert initial.pcs == [Idle];
    assert Apply(initial, Label(0, NewContext, Choice(None, 0))) == READY;
    OneStep(initial, Label(0, NewContext, Choice(None, 0)), READY, rest1);
    OneStep(READY, Label(0, NewSpan(0, 7, 4, None), Choice(None, 0)), KEYED, rest2);
    OneStep(KEYED, Go0(Some(0)), HELD, rest);
  }

  function Three(rest: seq<Label>): seq<Label> {
    [NEXT] + ([NEXT] + ([NEXT] + rest))
  }

  /** No slot and no pool has the key: the callback locks its entry in the pool map. */
  lemma LookUpRuns(rest: seq<Label>)
    ensures Comes(HELD, Three(rest), LOCKED, rest)
  {
    assert FindKey(EMPTY_SLOTS, KEY) == |EMPTY_SLOTS|;
    OneMore(HELD, Scanning(WORK), HELD.(pcs := [LookingUp(WORK)]), [NEXT] + ([NEXT] + rest));
    OneMore(HELD.(pcs := [LookingUp(WORK)]), LookingUp(WORK), HELD.(pcs := [Entering(WORK)]), [NEXT] + rest);
    OneMore(HELD.(pcs := [Entering(WORK)]), Entering(WORK), LOCKED, rest);
  }

  /** The new pool is counted and published, and has no track to offer. */
  lemma PublishRuns(rest: seq<Label>)
    ensures Comes(LOCKED, Three(rest), PUBLISHED.(pcs := [Evicting(0, 0, KEY, None, ForClaim(0, None))]), rest)
  {
    OneMore(LOCKED, Reserving(WORK), LOCKED.(pcs := [Publishing(WORK)], count := 1), [NEXT] + ([NEXT] + rest));
    assert map[KEY := 0] - {KEY} == map[];
    OneMore(LOCKED.(pcs := [Publishing(WORK)], count := 1), Publishing(WORK), PUBLISHED, [NEXT] + rest);
    OneMore(PUBLISHED, Popping(WORK, 0, false),
            PUBLISHED.(pcs := [Evicting(0, 0, KEY, None, ForClaim(0, None))]), rest);
  }

  /** The pool takes the first slot of the cache. */
  lemma InstallRuns(rest: seq<Label>)
    ensures Comes(PUBLISHED.(pcs := [Evicting(0, 0, KEY, None, ForClaim(0, None))]), [NEXT] + ([NEXT] + rest),
                  INSTALLED, rest)
  {
    assert EMPTY_SLOTS[0 := None] == EMPTY_SLOTS;
    OneMore(PUBLISHED.(pcs := [Evicting(0, 0, KEY, None, ForClaim(0, None))]),
            Evicting(0, 0, KEY, None, ForClaim(0, None)), EMPTIED, [NEXT] + rest);
    OneMore(EMPTIED, Installing(0, 0, 0, KEY, None, ForClaim(0, None)), INSTALLED, rest);
  }

  const DESCRIBED: State := BEGUN.(pcs := [Beginning(WORK, Some(0), 2)], log := [])

  lemma TrackIsStored()
    ensures Open(INSTALLED, 0, WORK, Some(0), None) == DESCRIBED
    ensures Store(BEGUN, 0, WORK, Some(0), 2) == STORED
  {
    assert INSTALLED.places + [Hand(0)] == DESCRIBED.places && INSTALLED.keys + [Some(KEY)] == DESCRIBED.keys;
    assert BEGUN.places[2 := Live(0)] == STORED.places;
    assert BEGUN.contexts[0 := Context(SLOTS, 1, None)] == STORED.contexts;
  }

  lemma OpenRuns(rest: seq<Label>)
    ensures Comes(INSTALLED, [NEXT] + rest, DESCRIBED, rest)
  {
    TrackIsStored();
    OneMore(INSTALLED, Opening(WORK, Some(0), None), DESCRIBED, rest);
  }

  /** The track's lifetime slice begins, and the span is stored. */
  lemma StoreRuns(rest: seq<Label>)
    ensures Comes(DESCRIBED, [NEXT] + ([NEXT] + rest), STORED, rest)
  {
    TrackIsStored();
    OneMore(DESCRIBED, Beginning(WORK, Some(0), 2), BEGUN, [NEXT] + rest);
    OneMore(BEGUN, Storing(WORK, Some(0), 2), STORED, rest);
  }

  const CLOSE: Label := Label(0, Close(0), Choice(None, 0))

  const CLOSING: State :=
    STORED.(pcs := [Closing(KEY, Some(0), 2)], places := [Fixed, Fixed, Hand(0)], live := map[])

  const RELEASING: State := CLOSING.(pcs := [Releasing(None, KEY, Some(0), 2)], log := MISSED.log)

  lemma TrackIsReleased()
    ensures TakeSpan(STORED, 0, 0) == CLOSING
    ensures Release(RELEASING, 0, None, KEY, Some(0), 2) == MISSED
  {
    assert STORED.places[2 := Hand(0)] == CLOSING.places;
    assert RELEASING.places[2 := Pooled(0)] == MISSED.places;
    assert RELEASING.pools[0].tracks + [2] == [2];
    assert RELEASING.pools[0 := Pool(KEY, [2])] == MISSED.pools;
  }

  lemma CloseRuns(rest: seq<Label>)
    ensures Comes(STORED, [CLOSE] + rest, CLOSING, rest)
  {
    TrackIsReleased();
    OneStep(STORED, CLOSE, CLOSING, rest);
  }

  /** No context can be acquired: the end of the slice is not written. */
  lemma EndIsMissed(rest: seq<Label>)
    ensures Comes(CLOSING, [NEXT] + rest, RELEASING, rest)
  {
    OneMore(CLOSING, Closing(KEY, Some(0), 2), RELEASING, rest);
  }

  lemma ReleaseRuns(rest: seq<Label>)
    ensures Comes(RELEASING, [NEXT] + rest, MISSED, rest)
  {
    TrackIsReleased();
    OneMore(RELEASING, Releasing(None, KEY, Some(0), 2), MISSED, rest);
  }

  function Claiming(rest: seq<Label>): seq<Label> {
    Creation(Three(Three([NEXT] + ([NEXT] + rest))))
  }

  lemma ClaimingRuns(rest: seq<Label>)
    ensures Comes(Initial(1, false), Claiming(rest), INSTALLED, rest)
  {
    var install := [NEXT] + ([NEXT] + rest);
    CreationRuns(Three(Three(install)));
    LookUpRuns(Three(install));
    PublishRuns(install);
    InstallRuns(rest);
  }

  const STORE_AND_CLOSE: seq<Label> := Three([CLOSE] + ([NEXT] + ([NEXT] + [])))

  lemma ClosingRuns()
    ensures Run(INSTALLED, STORE_AND_CLOSE) == MISSED && BalancedRun(INSTALLED, STORE_AND_CLOSE)
  {
    var none: seq<Label> := [];
    var release := [NEXT] + ([NEXT] + none);
    var close := [CLOSE] + release;
    OpenRuns([NEXT] + ([NEXT] + close));
    StoreRuns(close);
    CloseRuns(release);
    EndIsMissed([NEXT] + none);
    ReleaseRuns(none);
  }

  /** The track is pooled for another span although its last slice was never ended. */
  lemma EndCanBeMissed() returns (labels: seq<Label>)
    ensures Run(Initial(1, false), labels) == MISSED && BalancedRun(Initial(1, false), labels)
    ensures Holds(MISSED, Pooled(0), 2) && MISSED.live == map[]
    ensures LifeDepth(MISSED.log, 2) == Missed(MISSED.log, 2, LifeEnd) == 1
  {
    labels := Claiming(STORE_AND_CLOSE);
    ClaimingRuns(STORE_AND_CLOSE);
    ClosingRuns();
    EndsCount();
  }

  lemma EndsCount()
    ensures LifeDepth(MISSED.log, 2) == Missed(MISSED.log, 2, LifeEnd) == 1
  {
    var begin, end := MISSED.log[0], MISSED.log[1];
    assert MISSED.log == [begin] + [end] && [begin] == [] + [begin];
    forall kind: Kind, missed: bool
      ensures Count(MISSED.log, 2, kind, missed)
           == (if Counts(begin, 2, kind, missed) then 1 else 0) + (if Counts(end, 2, kind, missed) then 1 else 0)
    {
      CountPush([begin], end, 2, kind, missed);
      CountPush([], begin, 2, kind, missed);
    }
  }
}
