/**
 Thread contexts over whole runs: who may change one, that callbacks give back what they
 borrow, that slots are replaced in turn, and that an exited thread leaves no uuid behind.
 */
module TrackExits {
  import opened Prelude
  import opened TrackMachine
  import opened TrackOwnership
  import opened TrackShapes
  import opened TrackPools
  import opened TrackKeys
  import opened TrackHistories

  // ------------------------------------------------------------ one step

  /** The one context a label's step may change: its callback's, or the one it acquires. */
  function Touched(s: State, l: Label): Option<nat>
    requires Enabled(s, l)
  {
    match l.action
    case ExitThread(c) => Some(c)
    case Advance =>
      var pc := s.pcs[l.actor];
      if pc.Keyed? || pc.Closing? then l.choice.context else ContextOf(pc)
    case _ => None
  }

  ghost predicate OnlyTouches(s: State, s': State, touched: Option<nat>) {
    && |s.contexts| <= |s'.contexts|
    && forall c: nat :: c < |s.contexts| && touched != Some(c) ==> s'.contexts[c] == s.contexts[c]
  }

  lemma StepTouches(s: State, l: Label)
    requires Enabled(s, l)
    ensures OnlyTouches(s, Apply(s, l), Touched(s, l))
    ensures !l.action.NewContext? ==> |Apply(s, l).contexts| == |s.contexts|
  {
    if l.action.Advance? {
      if Inner(s.pcs[l.actor]) {
        InnerTouches(s, l.actor, s.pcs[l.actor], l.choice);
      } else {
        OuterTouches(s, l.actor, s.pcs[l.actor], l.choice);
      }
    }
  }

  /** The contexts but for one are as they were, and that one's turn is too. */
  ghost predicate KeepsTurns(s: State, s': State, c: nat) {
    && |s'.contexts| == |s.contexts|
    && (forall d: nat :: d < |s.contexts| && d != c ==> s'.contexts[d] == s.contexts[d])
    && (c < |s.contexts| ==> s'.contexts[c].next == s.contexts[c].next)
  }

  lemma PutKeepsTurns(s: State, c: nat, k: nat, slot: Option<Slot>)
    requires c < |s.contexts| && k < |s.contexts[c].slots|
    ensures KeepsTurns(s, PutSlot(s, c, k, slot), c)
  {
  }

  lemma BorrowKeepsTurns(s: State, s1: State, c: nat, borrower: Option<nat>)
    requires KeepsTurns(s, s1, c) && c < |s1.contexts|
    ensures KeepsTurns(s, Borrow(s1, c, borrower), c)
  {
  }

  lemma ScanKeepsTurns(s: State, a: nat, w: Work)
    requires a < |s.pcs| && w.context < |s.contexts|
    ensures KeepsTurns(s, Scan(s, a, w), w.context)
  {
    var slots := s.contexts[w.context].slots;
    var k := FindKey(slots, w.key);
    if k < |slots| {
      var emptied := Some(slots[k].value.(local := None));
      PutKeepsTurns(s, w.context, k, emptied);
    }
  }

  lemma InstallKeepsTurns(s: State, a: nat, c: nat, k: nat, p: nat, key: Key, hand: Option<nat>, purpose: Purpose)
    requires a < |s.pcs| && c < |s.contexts| && k < |s.contexts[c].slots|
    ensures KeepsTurns(s, Install(s, a, c, k, p, key, hand, purpose), c)
  {
    match purpose
    case ForClaim(_, _) => PutKeepsTurns(s, c, k, Some(Slot(key, p, None)));
    case ForRelease =>
      var stored := PutSlot(s, c, k, Some(Slot(key, p, hand)));
      PutKeepsTurns(s, c, k, Some(Slot(key, p, hand)));
      BorrowKeepsTurns(s, stored, c, None);
  }

  lemma ReleaseKeepsTurns(s: State, a: nat, c: nat, key: Key, owner: Option<nat>, u: nat)
    requires a < |s.pcs| && u < |s.places| && c < |s.contexts| && (owner.Some? ==> owner.value < |s.pools|)
    ensures KeepsTurns(s, Release(s, a, Some(c), key, owner, u), c)
  {
    if owner.Some? {
      ReleaseCachedKeepsTurns(s, a, c, key, owner.value, u);
    }
  }

  lemma ReleaseCachedKeepsTurns(s: State, a: nat, c: nat, key: Key, p: nat, u: nat)
    requires a < |s.pcs| && u < |s.places| && c < |s.contexts| && p < |s.pools|
    ensures KeepsTurns(s, ReleaseCached(s, a, c, key, p, u), c)
  {
    var slots := s.contexts[c].slots;
    var k := FindPool(slots, p);
    if k < |slots| && slots[k].value.local.None? {
      var put := PutSlot(s, c, k, Some(slots[k].value.(local := Some(u))));
      PutKeepsTurns(s, c, k, Some(slots[k].value.(local := Some(u))));
      BorrowKeepsTurns(s, put, c, None);
    }
  }

  lemma DropKeepsTurns(s: State, a: nat, c: nat, k: nat)
    requires a < |s.pcs| && c < |s.contexts|
    ensures KeepsTurns(s, DropSlot(s, a, c, k), c)
  {
    if k < |s.contexts[c].slots| && s.contexts[c].slots[k].Some? {
      var slot := s.contexts[c].slots[k].value;
      PutKeepsTurns(s, c, k, Some(slot.(local := None)));
    }
  }

  /** The steps that leave all contexts alone. */
  predicate NoContext(pc: Pc) {
    IsQuiet(pc) || pc.Popping? || pc.Opening? || pc.Beginning? || pc.Ending?
  }

  lemma NoContextSteps(s: State, a: nat, pc: Pc, choice: Choice)
    requires a < |s.pcs| && Steps(s, pc, choice) && NoContext(pc)
    ensures Step(s, a, pc, choice).contexts == s.contexts
  {
  }

  lemma StepKeepsTurns(s: State, a: nat, pc: Pc, choice: Choice)
    requires a < |s.pcs| && Steps(s, pc, choice) && !pc.Evicting?
    ensures var touched := if pc.Keyed? || pc.Closing? then choice.context else ContextOf(pc);
            var s' := Step(s, a, pc, choice);
            if touched.Some? then KeepsTurns(s, s', touched.value) else s'.contexts == s.contexts
  {
    match pc
    case Scanning(w) => ScanKeepsTurns(s, a, w);
    case Installing(c, k, p, key, hand, purpose) => InstallKeepsTurns(s, a, c, k, p, key, hand, purpose);
    case Releasing(held, key, owner, u) =>
      if held.Some? {
        ReleaseKeepsTurns(s, a, held.value, key, owner, u);
      }
    case Exiting(c, k) => DropKeepsTurns(s, a, c, k);
    case Storing(w, owner, u) =>
    case Keyed(_, _, _) =>
    case Closing(_, _, _) =>
    case _ => NoContextSteps(s, a, pc, choice);
  }

  lemma InnerTouches(s: State, a: nat, pc: Pc, choice: Choice)
    requires a < |s.pcs| && Steps(s, pc, choice) && Inner(pc)
    ensures OnlyTouches(s, Step(s, a, pc, choice), ContextOf(pc))
    ensures |Step(s, a, pc, choice).contexts| == |s.contexts|
  {
    if pc.Evicting? {
      EvictTouches(s, a, pc, choice);
    } else {
      StepKeepsTurns(s, a, pc, choice);
    }
  }

  lemma EvictTouches(s: State, a: nat, pc: Pc, choice: Choice)
    requires a < |s.pcs| && Steps(s, pc, choice) && pc.Evicting?
    ensures OnlyTouches(s, Step(s, a, pc, choice), Some(pc.context))
    ensures |Step(s, a, pc, choice).contexts| == |s.contexts|
  {
    assert EmptyNext(s, pc.context).contexts == Step(s, a, pc, choice).contexts;
  }

  lemma OuterTouches(s: State, a: nat, pc: Pc, choice: Choice)
    requires a < |s.pcs| && Steps(s, pc, choice) && !Inner(pc)
    ensures var touched := if pc.Keyed? || pc.Closing? then choice.context else ContextOf(pc);
            OnlyTouches(s, Step(s, a, pc, choice), touched) && |Step(s, a, pc, choice).contexts| == |s.contexts|
  {
    StepKeepsTurns(s, a, pc, choice);
  }

  /** A replacement empties the slot whose turn it is, and the turn passes to the next. */
  lemma EvictionTakesTurn(s: State, a: nat, choice: Choice)
    requires ShapesOk(s) && Enabled(s, Label(a, Advance, choice)) && s.pcs[a].Evicting?
    ensures var (c, s') := (s.pcs[a].context, Apply(s, Label(a, Advance, choice)));
            var (x, x') := (s.contexts[c], s'.contexts[c]);
            && |x'.slots| == CACHE_SLOTS && x'.next == (if x.next == CACHE_SLOTS - 1 then 0 else x.next + 1)
            && s'.pcs[a].Installing? && s'.pcs[a].context == c && s'.pcs[a].slot == x.next
            && forall k: nat :: k < CACHE_SLOTS ==> x'.slots[k] == if k == x.next then None else x.slots[k]
  {
  }

  /** The emptied slot takes the new pool, with the uuid released into it if there is one. */
  lemma InstallationFillsSlot(s: State, a: nat, choice: Choice)
    requires Enabled(s, Label(a, Advance, choice)) && s.pcs[a].Installing?
    requires s.pcs[a].hand.Some? ==> s.pcs[a].hand.value < |s.places|
    ensures var (pc, s') := (s.pcs[a], Apply(s, Label(a, Advance, choice)));
            var (x, x') := (s.contexts[pc.context], s'.contexts[pc.context]);
            && |x'.slots| == |x.slots| && x'.next == x.next
            && x'.slots[pc.slot] == Some(Slot(pc.key, pc.pool, if pc.purpose.ForRelease? then pc.hand else None))
            && forall k: nat :: k < |x.slots| && k != pc.slot ==> x'.slots[k] == x.slots[k]
  {
  }

  // ------------------------------------------------------------ turns

  /** Slots are replaced in turn: the position is the number of replacements so far, modulo eight. */
  ghost predicate TurnsOk(h: History) {
    && (forall c: nat :: c < |h.s.contexts| ==> h.s.contexts[c].next == Turns(h, c) % CACHE_SLOTS)
    && (forall c :: c in h.turns ==> c < |h.s.contexts|)
  }

  lemma TurnPasses(n: nat)
    ensures (n + 1) % CACHE_SLOTS == if n % CACHE_SLOTS == CACHE_SLOTS - 1 then 0 else n % CACHE_SLOTS + 1
  {
  }

  lemma SameTurns(h: History, h': History)
    requires TurnsOk(h) && h'.turns == h.turns && |h.s.contexts| <= |h'.s.contexts|
    requires forall c: nat :: c < |h.s.contexts| ==> h'.s.contexts[c].next == h.s.contexts[c].next
    requires forall c: nat :: |h.s.contexts| <= c < |h'.s.contexts| ==> h'.s.contexts[c].next == 0
    ensures TurnsOk(h')
  {
  }

  lemma OneTurn(h: History, h': History, c: nat)
    requires TurnsOk(h) && c < |h.s.contexts| == |h'.s.contexts| && h'.turns == h.turns[c := Turns(h, c) + 1]
    requires forall d: nat :: d < |h.s.contexts| && d != c ==> h'.s.contexts[d].next == h.s.contexts[d].next
    requires h'.s.contexts[c].next == (Turns(h, c) + 1) % CACHE_SLOTS
    ensures TurnsOk(h')
  {
  }

  lemma TurnTaken(h: History, l: Label)
    requires Shaped(h.s) && TurnsOk(h) && Enabled(h.s, l) && l.action.Advance? && h.s.pcs[l.actor].Evicting?
    ensures TurnsOk(Recall(h, l))
  {
    var c := h.s.pcs[l.actor].context;
    StepTouches(h.s, l);
    EvictionTakesTurn(h.s, l.actor, l.choice);
    TurnPasses(Turns(h, c));
    OneTurn(h, Recall(h, l), c);
  }

  lemma TurnsKept(h: History, l: Label)
    requires Shaped(h.s) && TurnsOk(h) && Enabled(h.s, l)
    ensures TurnsOk(Recall(h, l))
  {
    if l.action.Advance? {
      if h.s.pcs[l.actor].Evicting? {
        TurnTaken(h, l);
      } else {
        StepKeepsTurns(h.s, l.actor, h.s.pcs[l.actor], l.choice);
        SameTurns(h, Recall(h, l));
      }
    } else {
      SameTurns(h, Recall(h, l));
    }
  }

  // ------------------------------------------------------------ borrowing and exit

  /** No slot below `n` has a uuid. */
  ghost predicate Drained(x: Context, n: nat) {
    forall k: nat :: k < n && k < |x.slots| ==> LocalOf(x.slots[k]) == None
  }

  ghost predicate Holding(s: State, b: nat, c: nat) {
    b < |s.pcs| && ContextOf(s.pcs[b]) == Some(c)
  }

  /** A context that is borrowed is in its borrower's callback, or its thread has exited. */
  ghost predicate LentOk(h: History) {
    forall c: nat :: c < |h.s.contexts| && h.s.contexts[c].borrower.Some? ==>
      || Holding(h.s, h.s.contexts[c].borrower.value, c)
      || (c in h.exited && Drained(h.s.contexts[c], CACHE_SLOTS))
  }

  /** An exiting callback has emptied the slots it is past; nobody else works on an exited context. */
  ghost predicate ExitsOk(h: History) {
    && (forall a: nat :: a < |h.s.pcs| && h.s.pcs[a].Exiting? ==>
          && h.s.pcs[a].context in h.exited && h.s.pcs[a].context < |h.s.contexts|
          && Drained(h.s.contexts[h.s.pcs[a].context], h.s.pcs[a].slot))
    && (forall c :: c in h.exited ==> c < |h.s.contexts| && h.s.contexts[c].borrower.Some?)
    && (forall a: nat :: a < |h.s.pcs| && ContextOf(h.s.pcs[a]).Some? && ContextOf(h.s.pcs[a]).value in h.exited ==>
          h.s.pcs[a].Exiting?)
  }

  /** How a step leaves the context it touches: still held, given back, or its thread's exit is over. */
  ghost predicate Lends(s: State, s': State, a: nat, c: nat) {
    && a < |s.pcs| && a < |s'.pcs| && c < |s'.contexts| && c < |s.contexts|
    && (s'.pcs[a].Exiting? ==> s.pcs[a].Exiting?)
    && ((ContextOf(s'.pcs[a]) == Some(c) && s'.contexts[c].borrower == Some(a))
        || (ContextOf(s'.pcs[a]) == None && s'.contexts[c].borrower == None)
        || (s.pcs[a].Exiting? && s'.pcs[a] == Idle && s'.contexts == s.contexts
            && s.pcs[a].slot >= |s.contexts[c].slots|))
  }

  lemma HeldLends(s: State, a: nat, pc: Pc, choice: Choice)
    requires Shaped(s) && a < |s.pcs| && s.pcs[a] == pc && Steps(s, pc, choice) && ContextOf(pc).Some?
    ensures Lends(s, Step(s, a, pc, choice), a, ContextOf(pc).value)
  {
    var c := ContextOf(pc).value;
    assert s.contexts[c].borrower == Some(a);
    if Inner(pc) {
      if pc.Scanning? || IsQuiet(pc) || pc.Popping? || pc.Evicting? || pc.Installing? {
        ClaimLends(s, a, pc, choice);
      } else {
        EndLends(s, a, pc, choice);
      }
    }
  }

  lemma ClaimLends(s: State, a: nat, pc: Pc, choice: Choice)
    requires a < |s.pcs| && s.pcs[a] == pc && Steps(s, pc, choice) && ContextOf(pc).Some?
    requires s.contexts[ContextOf(pc).value].borrower == Some(a)
    requires pc.Scanning? || IsQuiet(pc) || pc.Popping? || pc.Evicting? || pc.Installing?
    ensures Lends(s, Step(s, a, pc, choice), a, ContextOf(pc).value)
  {
    if pc.Evicting? || pc.Installing? {
      ReplaceLends(s, a, pc, choice);
    } else if pc.Scanning? {
      ScanLends(s, a, pc.work);
      assert Step(s, a, pc, choice) == Scan(s, a, pc.work);
    } else {
      NoContextSteps(s, a, pc, choice);
    }
  }

  lemma ReplaceLends(s: State, a: nat, pc: Pc, choice: Choice)
    requires a < |s.pcs| && s.pcs[a] == pc && Steps(s, pc, choice) && (pc.Evicting? || pc.Installing?)
    requires s.contexts[pc.context].borrower == Some(a)
    ensures Lends(s, Step(s, a, pc, choice), a, pc.context)
  {
    if pc.Evicting? {
      EvictLends(s, a, pc.context, pc.pool, pc.key, pc.hand, pc.purpose);
    } else {
      InstallLends(s, a, pc.context, pc.slot, pc.pool, pc.key, pc.hand, pc.purpose);
    }
  }

  lemma ScanLends(s: State, a: nat, w: Work)
    requires a < |s.pcs| && s.pcs[a] == Scanning(w) && w.context < |s.contexts|
    requires s.contexts[w.context].borrower == Some(a)
    ensures Lends(s, Scan(s, a, w), a, w.context)
  {
  }

  lemma EvictLends(s: State, a: nat, c: nat, p: nat, key: Key, hand: Option<nat>, purpose: Purpose)
    requires a < |s.pcs| && c < |s.contexts| && s.contexts[c].next < |s.contexts[c].slots|
    requires s.contexts[c].borrower == Some(a)
    ensures Lends(s, Evict(s, a, c, p, key, hand, purpose), a, c)
  {
  }

  lemma InstallLends(s: State, a: nat, c: nat, k: nat, p: nat, key: Key, hand: Option<nat>, purpose: Purpose)
    requires a < |s.pcs| && c < |s.contexts| && k < |s.contexts[c].slots| && s.contexts[c].borrower == Some(a)
    ensures Lends(s, Install(s, a, c, k, p, key, hand, purpose), a, c)
  {
  }

  lemma EndLends(s: State, a: nat, pc: Pc, choice: Choice)
    requires a < |s.pcs| && s.pcs[a] == pc && Steps(s, pc, choice) && ContextOf(pc).Some?
    requires s.contexts[ContextOf(pc).value].borrower == Some(a) && (pc.Releasing? || pc.Exiting?)
    ensures Lends(s, Step(s, a, pc, choice), a, ContextOf(pc).value)
  {
    match pc
    case Releasing(held, key, owner, u) => ReleaseLends(s, a, held.value, key, owner, u);
    case Exiting(c, k) => DropLends(s, a, c, k);
  }

  lemma ReleaseLends(s: State, a: nat, c: nat, key: Key, owner: Option<nat>, u: nat)
    requires a < |s.pcs| && u < |s.places| && c < |s.contexts| && (owner.Some? ==> owner.value < |s.pools|)
    requires s.contexts[c].borrower == Some(a)
    ensures Lends(s, Release(s, a, Some(c), key, owner, u), a, c)
  {
  }

  lemma DropLends(s: State, a: nat, c: nat, k: nat)
    requires a < |s.pcs| && s.pcs[a] == Exiting(c, k) && c < |s.contexts| && s.contexts[c].borrower == Some(a)
    ensures Lends(s, DropSlot(s, a, c, k), a, c)
  {
  }

  /** Steps of a callback that neither had nor gets a context. */
  lemma FreeKept(h: History, h': History, a: nat)
    requires LentOk(h) && ExitsOk(h) && a < |h.s.pcs| == |h'.s.pcs| && h'.s.pcs == h.s.pcs[a := h'.s.pcs[a]]
    requires ContextOf(h.s.pcs[a]) == None && ContextOf(h'.s.pcs[a]) == None && h'.exited == h.exited
    requires |h.s.contexts| <= |h'.s.contexts|
    requires forall c: nat :: c < |h.s.contexts| ==> h'.s.contexts[c] == h.s.contexts[c]
    requires forall c: nat :: |h.s.contexts| <= c < |h'.s.contexts| ==> h'.s.contexts[c].borrower == None
    ensures LentOk(h') && ExitsOk(h')
  {
    forall c: nat | c < |h'.s.contexts| && h'.s.contexts[c].borrower.Some?
                    && Holding(h.s, h'.s.contexts[c].borrower.value, c)
      ensures Holding(h'.s, h'.s.contexts[c].borrower.value, c)
    {
      assert h'.s.pcs[h'.s.contexts[c].borrower.value] == h.s.pcs[h'.s.contexts[c].borrower.value];
    }
  }

  /** A callback acquires a free context. */
  lemma AcquiredKept(h: History, h': History, a: nat, c: nat)
    requires LentOk(h) && ExitsOk(h) && a < |h.s.pcs| == |h'.s.pcs| && h'.s.pcs == h.s.pcs[a := h'.s.pcs[a]]
    requires ContextOf(h.s.pcs[a]) == None && ContextOf(h'.s.pcs[a]) == Some(c) && !h'.s.pcs[a].Exiting?
    requires c < |h.s.contexts| && h.s.contexts[c].borrower == None && h'.exited == h.exited
    requires h'.s.contexts == h.s.contexts[c := h.s.contexts[c].(borrower := Some(a))]
    ensures LentOk(h') && ExitsOk(h')
  {
    assert Holding(h'.s, a, c) && c !in h.exited;
    forall d: nat | d < |h'.s.contexts| && d != c && h'.s.contexts[d].borrower.Some?
                    && Holding(h.s, h'.s.contexts[d].borrower.value, d)
      ensures Holding(h'.s, h'.s.contexts[d].borrower.value, d)
    {
      assert h'.s.pcs[h'.s.contexts[d].borrower.value] == h.s.pcs[h'.s.contexts[d].borrower.value];
    }
  }

  lemma ExitKept(h: History, h': History, a: nat, c: nat)
    requires LentOk(h) && ExitsOk(h) && BorrowsOk(h.s)
    requires a < |h.s.pcs| && h.s.pcs[a] == Idle && h'.s.pcs == h.s.pcs[a := Exiting(c, 0)]
    requires c < |h.s.contexts| && h.s.contexts[c].borrower == None && h'.exited == h.exited + {c}
    requires h'.s.contexts == h.s.contexts[c := h.s.contexts[c].(borrower := Some(a))]
    ensures LentOk(h') && ExitsOk(h')
  {
    assert Holding(h'.s, a, c);
    forall d: nat | d < |h'.s.contexts| && d != c && h'.s.contexts[d].borrower.Some?
                    && Holding(h.s, h'.s.contexts[d].borrower.value, d)
      ensures Holding(h'.s, h'.s.contexts[d].borrower.value, d)
    {
      assert h'.s.pcs[h'.s.contexts[d].borrower.value] == h.s.pcs[h'.s.contexts[d].borrower.value];
    }
    forall b: nat | b < |h'.s.pcs| && b != a && ContextOf(h'.s.pcs[b]).Some?
      ensures ContextOf(h'.s.pcs[b]).value != c
    {
      assert h'.s.pcs[b] == h.s.pcs[b];
    }
  }

  /** A callback works on its own context, or gives it back; the thread has not exited. */
  lemma HeldKept(h: History, h': History, a: nat, c: nat)
    requires LentOk(h) && ExitsOk(h) && BorrowsOk(h.s)
    requires a < |h.s.pcs| == |h'.s.pcs| && h'.s.pcs == h.s.pcs[a := h'.s.pcs[a]]
    requires ContextOf(h.s.pcs[a]) == Some(c) && c !in h.exited && h'.exited == h.exited && !h'.s.pcs[a].Exiting?
    requires OnlyTouches(h.s, h'.s, Some(c)) && |h'.s.contexts| == |h.s.contexts| && c < |h.s.contexts|
    requires (ContextOf(h'.s.pcs[a]) == Some(c) && h'.s.contexts[c].borrower == Some(a))
             || (ContextOf(h'.s.pcs[a]) == None && h'.s.contexts[c].borrower == None)
    ensures LentOk(h') && ExitsOk(h')
  {
    forall d: nat | d < |h'.s.contexts| && h'.s.contexts[d].borrower.Some?
                    && (d == c || Holding(h.s, h'.s.contexts[d].borrower.value, d))
      ensures Holding(h'.s, h'.s.contexts[d].borrower.value, d)
    {
      if d != c {
        assert h'.s.pcs[h'.s.contexts[d].borrower.value] == h.s.pcs[h'.s.contexts[d].borrower.value];
      }
    }
  }

  /** Whoever else holds a context still does. */
  lemma OthersHold(s: State, s': State, a: nat, d: nat)
    requires a < |s.pcs| == |s'.pcs| && s'.pcs == s.pcs[a := s'.pcs[a]]
    requires d < |s.contexts| && s.contexts[d].borrower.Some? && ContextOf(s.pcs[a]) != Some(d)
    requires Holding(s, s.contexts[d].borrower.value, d)
    ensures Holding(s', s.contexts[d].borrower.value, d)
  {
    assert s'.pcs[s.contexts[d].borrower.value] == s.pcs[s.contexts[d].borrower.value];
  }

  /** An exit goes on to the next slot, or is over with all slots behind it. */
  lemma ExitingKept(h: History, h': History, a: nat, c: nat, k: nat)
    requires LentOk(h) && ExitsOk(h) && BorrowsOk(h.s)
    requires a < |h.s.pcs| == |h'.s.pcs| && h'.s.pcs == h.s.pcs[a := h'.s.pcs[a]] && h'.exited == h.exited
    requires h.s.pcs[a] == Exiting(c, k) && c < |h.s.contexts| && |h.s.contexts[c].slots| == CACHE_SLOTS
    requires OnlyTouches(h.s, h'.s, Some(c)) && |h'.s.contexts| == |h.s.contexts|
    requires h'.s.contexts[c].borrower == h.s.contexts[c].borrower
    requires if k < CACHE_SLOTS then h'.s.pcs[a] == Exiting(c, k + 1) && Drained(h'.s.contexts[c], k + 1)
             else h'.s.pcs[a] == Idle && h'.s.contexts[c] == h.s.contexts[c]
    ensures LentOk(h') && ExitsOk(h')
  {
    assert h.s.contexts[c].borrower == Some(a);
    ExitingLends(h, h', a, c, k);
    AloneInContext(h.s, a, c);
    ExitingExits(h, h', a, c, k);
  }

  /** Only its borrower works on a context. */
  lemma AloneInContext(s: State, a: nat, c: nat)
    requires BorrowsOk(s) && c < |s.contexts| && s.contexts[c].borrower == Some(a)
    ensures forall b: nat :: b < |s.pcs| && b != a ==> ContextOf(s.pcs[b]) != Some(c)
  {
  }

  lemma ExitingExits(h: History, h': History, a: nat, c: nat, k: nat)
    requires ExitsOk(h) && a < |h.s.pcs| == |h'.s.pcs| && h'.s.pcs == h.s.pcs[a := h'.s.pcs[a]] && h'.exited == h.exited
    requires h.s.pcs[a] == Exiting(c, k) && c < |h.s.contexts|
    requires forall b: nat :: b < |h.s.pcs| && b != a ==> ContextOf(h.s.pcs[b]) != Some(c)
    requires OnlyTouches(h.s, h'.s, Some(c)) && |h'.s.contexts| == |h.s.contexts|
    requires h'.s.contexts[c].borrower == h.s.contexts[c].borrower
    requires h'.s.pcs[a] == Idle || (h'.s.pcs[a] == Exiting(c, k + 1) && Drained(h'.s.contexts[c], k + 1))
    ensures ExitsOk(h')
  {
    forall b: nat | b < |h'.s.pcs| && b != a && ContextOf(h'.s.pcs[b]).Some?
      ensures ContextOf(h'.s.pcs[b]).value != c && h'.s.pcs[b] == h.s.pcs[b]
    {
      assert h'.s.pcs[b] == h.s.pcs[b];
    }
  }

  lemma ExitingLends(h: History, h': History, a: nat, c: nat, k: nat)
    requires LentOk(h) && ExitsOk(h)
    requires a < |h.s.pcs| == |h'.s.pcs| && h'.s.pcs == h.s.pcs[a := h'.s.pcs[a]] && h'.exited == h.exited
    requires h.s.pcs[a] == Exiting(c, k) && c < |h.s.contexts| && h.s.contexts[c].borrower == Some(a)
    requires OnlyTouches(h.s, h'.s, Some(c)) && |h'.s.contexts| == |h.s.contexts|
    requires h'.s.contexts[c].borrower == Some(a)
    requires if k < CACHE_SLOTS then h'.s.pcs[a] == Exiting(c, k + 1)
             else h'.s.pcs[a] == Idle && h'.s.contexts[c] == h.s.contexts[c]
    ensures LentOk(h')
  {
    assert k >= CACHE_SLOTS ==> Drained(h'.s.contexts[c], CACHE_SLOTS);
    assert k < CACHE_SLOTS ==> Holding(h'.s, a, c);
    forall d: nat | d < |h'.s.contexts| && d != c && h'.s.contexts[d].borrower.Some?
                    && Holding(h.s, h.s.contexts[d].borrower.value, d)
      ensures Holding(h'.s, h'.s.contexts[d].borrower.value, d)
    {
      OthersHold(h.s, h'.s, a, d);
    }
  }

  lemma DropDrains(s: State, a: nat, c: nat, k: nat)
    requires Shaped(s) && PlacesOk(s) && a < |s.pcs| && c < |s.contexts| && Drained(s.contexts[c], k)
    ensures var s' := DropSlot(s, a, c, k);
            && |s'.contexts| == |s.contexts| && s'.contexts[c].borrower == s.contexts[c].borrower
            && if k < CACHE_SLOTS then s'.pcs[a] == Exiting(c, k + 1) && Drained(s'.contexts[c], k + 1)
               else s'.pcs[a] == Idle && s'.contexts[c] == s.contexts[c]
  {
    if k < |s.contexts[c].slots| && LocalAt(s.contexts, c, k).Some? {
      OnlyThere(s, Cached(c, k), LocalAt(s.contexts, c, k).value);
    }
  }

  lemma StartBorrows(h: History, l: Label)
    requires Shaped(h.s) && LentOk(h) && ExitsOk(h) && Enabled(h.s, l) && !l.action.Advance?
    ensures LentOk(Recall(h, l)) && ExitsOk(Recall(h, l))
  {
    if l.action.ExitThread? {
      ExitKept(h, Recall(h, l), l.actor, l.action.context);
    } else {
      StartsFree(h.s, l);
      FreeKept(h, Recall(h, l), l.actor);
    }
  }

  /** The step is of a callback that has no context before or after, and leaves all as they are. */
  ghost predicate StaysFree(s: State, s': State, a: nat) {
    && a < |s.pcs| == |s'.pcs| && s'.pcs == s.pcs[a := s'.pcs[a]]
    && ContextOf(s.pcs[a]) == None && ContextOf(s'.pcs[a]) == None
    && |s.contexts| <= |s'.contexts|
    && (forall c: nat :: c < |s.contexts| ==> s'.contexts[c] == s.contexts[c])
    && (forall c: nat :: |s.contexts| <= c < |s'.contexts| ==> s'.contexts[c].borrower == None)
  }

  lemma StartsFree(s: State, l: Label)
    requires Enabled(s, l) && !l.action.Advance? && !l.action.ExitThread?
    ensures StaysFree(s, Apply(s, l), l.actor)
  {
    if l.action.Close? {
      TakesFree(s, l.actor, l.action.span);
    }
  }

  lemma TakesFree(s: State, a: nat, id: nat)
    requires a < |s.pcs| && s.pcs[a] == Idle && id in s.live
    ensures StaysFree(s, TakeSpan(s, a, id), a)
  {
  }

  /** Only being refused a context, or having none, leaves a callback without. */
  lemma GoesFree(s: State, a: nat, pc: Pc, choice: Choice)
    requires a < |s.pcs| && s.pcs[a] == pc && Steps(s, pc, choice) && ContextOf(pc) == None
    requires pc.Keyed? || pc.Closing? ==> choice.context == None
    ensures StaysFree(s, Step(s, a, pc, choice), a)
  {
  }

  lemma Acquires(s: State, a: nat, pc: Pc, choice: Choice)
    requires a < |s.pcs| && s.pcs[a] == pc && Steps(s, pc, choice) && (pc.Keyed? || pc.Closing?) && choice.context.Some?
    ensures var (s', c) := (Step(s, a, pc, choice), choice.context.value);
            && |s'.pcs| == |s.pcs| && s'.pcs == s.pcs[a := s'.pcs[a]] && c < |s.contexts|
            && s.contexts[c].borrower == None && ContextOf(s'.pcs[a]) == Some(c) && !s'.pcs[a].Exiting?
            && s'.contexts == s.contexts[c := s.contexts[c].(borrower := Some(a))]
  {
  }

  lemma FreeBorrows(h: History, l: Label)
    requires LentOk(h) && ExitsOk(h) && Enabled(h.s, l) && l.action.Advance?
    requires ContextOf(h.s.pcs[l.actor]) == None
    ensures LentOk(Recall(h, l)) && ExitsOk(Recall(h, l))
  {
    var a, pc := l.actor, h.s.pcs[l.actor];
    if (pc.Keyed? || pc.Closing?) && l.choice.context.Some? {
      Acquires(h.s, a, pc, l.choice);
      AcquiredKept(h, Recall(h, l), a, l.choice.context.value);
    } else {
      GoesFree(h.s, a, pc, l.choice);
      FreeKept(h, Recall(h, l), a);
    }
  }

  lemma HeldBorrows(h: History, l: Label)
    requires Shaped(h.s) && PlacesOk(h.s) && LentOk(h) && ExitsOk(h) && Enabled(h.s, l) && l.action.Advance?
    requires ContextOf(h.s.pcs[l.actor]).Some?
    ensures LentOk(Recall(h, l)) && ExitsOk(Recall(h, l))
  {
    var a, pc, c := l.actor, h.s.pcs[l.actor], ContextOf(h.s.pcs[l.actor]).value;
    StepTouches(h.s, l);
    if pc.Exiting? {
      DropDrains(h.s, a, c, pc.slot);
      ExitingKept(h, Recall(h, l), a, c, pc.slot);
    } else {
      HeldLends(h.s, a, pc, l.choice);
      HeldKept(h, Recall(h, l), a, c);
    }
  }

  lemma BorrowsKept(h: History, l: Label)
    requires Shaped(h.s) && PlacesOk(h.s) && LentOk(h) && ExitsOk(h) && Enabled(h.s, l)
    ensures LentOk(Recall(h, l)) && ExitsOk(Recall(h, l))
  {
    if !l.action.Advance? {
      StartBorrows(h, l);
    } else if ContextOf(h.s.pcs[l.actor]).None? {
      FreeBorrows(h, l);
    } else {
      HeldBorrows(h, l);
    }
  }

  // ------------------------------------------------------------ claimed pools

  /** The cache has a slot for this pool and key, its uuid taken. */
  ghost predicate InCache(x: Context, key: Key, p: nat) {
    exists k: nat :: k < |x.slots| && x.slots[k] == Some(Slot(key, p, None))
  }

  /** The pool a callback is claiming from, once it must be in the cache. */
  function Claimed(pc: Pc): Option<(Work, nat)> {
    match pc
    case Popping(w, p, cached) => if cached then Some((w, p)) else None
    case Opening(w, owner, _) => if owner.Some? then Some((w, owner.value)) else None
    case Beginning(w, owner, _) => if owner.Some? then Some((w, owner.value)) else None
    case Storing(w, owner, _) => if owner.Some? then Some((w, owner.value)) else None
    case _ => None
  }

  ghost predicate ClaimCached(s: State, a: nat)
    requires a < |s.pcs|
  {
    Claimed(s.pcs[a]).Some? ==>
      var (w, p) := Claimed(s.pcs[a]).value;
      w.context < |s.contexts| && InCache(s.contexts[w.context], w.key, p)
  }

  ghost predicate CachedOk(s: State) {
    forall a: nat :: a < |s.pcs| ==> ClaimCached(s, a)
  }

  lemma ScanCaches(s: State, a: nat, w: Work)
    requires Owned(s) && a < |s.pcs| && s.pcs[a] == Scanning(w) && w.context < |s.contexts|
    ensures ClaimCached(Scan(s, a, w), a)
  {
    var slots := s.contexts[w.context].slots;
    var k := FindKey(slots, w.key);
    if k < |slots| {
      var slot := slots[k].value;
      var s' := Scan(s, a, w);
      if slot.local.Some? {
        OnlyThere(s, Cached(w.context, k), slot.local.value);
      }
      assert s'.contexts[w.context].slots[k] == Some(Slot(w.key, slot.pool, None));
    }
  }

  lemma InstallCaches(s: State, a: nat, choice: Choice)
    requires Owned(s) && Enabled(s, Label(a, Advance, choice)) && s.pcs[a].Installing?
    ensures ClaimCached(Apply(s, Label(a, Advance, choice)), a)
  {
    var pc, s' := s.pcs[a], Apply(s, Label(a, Advance, choice));
    InstallationFillsSlot(s, a, choice);
    if pc.purpose.ForClaim? {
      assert s'.contexts[pc.context].slots[pc.slot] == Some(Slot(pc.key, pc.pool, None));
    }
  }

  /** Any other step of a callback only goes on with what it claimed. */
  lemma ClaimGoesOn(s: State, a: nat, pc: Pc, choice: Choice)
    requires a < |s.pcs| && s.pcs[a] == pc && Steps(s, pc, choice) && !pc.Scanning? && !pc.Installing?
    ensures var s' := Step(s, a, pc, choice);
            Claimed(s'.pcs[a]).Some? ==> Claimed(s'.pcs[a]) == Claimed(pc) && s'.contexts == s.contexts
  {
    if pc.Popping? || pc.Opening? || pc.Beginning? {
      NoContextSteps(s, a, pc, choice);
    } else {
      ClaimEnds(s, a, pc, choice);
    }
  }

  lemma ClaimEnds(s: State, a: nat, pc: Pc, choice: Choice)
    requires a < |s.pcs| && s.pcs[a] == pc && Steps(s, pc, choice) && !pc.Scanning? && !pc.Installing?
    requires !pc.Popping? && !pc.Opening? && !pc.Beginning?
    ensures Claimed(Step(s, a, pc, choice).pcs[a]) == None
  {
    match pc
    case Evicting(c, p, key, hand, purpose) =>
    case Releasing(held, key, owner, u) =>
    case Exiting(c, k) =>
    case _ =>
      if IsQuiet(pc) {
        QuietEnds(s, a, pc, choice);
      }
  }

  lemma QuietEnds(s: State, a: nat, pc: Pc, choice: Choice)
    requires a < |s.pcs| && s.pcs[a] == pc && Steps(s, pc, choice) && IsQuiet(pc)
    ensures Claimed(Step(s, a, pc, choice).pcs[a]) == None
  {
  }

  lemma OwnClaim(s: State, l: Label)
    requires Owned(s) && CachedOk(s) && Enabled(s, l)
    ensures ClaimCached(Apply(s, l), l.actor)
  {
    var a := l.actor;
    if l.action.Advance? {
      if s.pcs[a].Scanning? {
        ScanCaches(s, a, s.pcs[a].work);
      } else if s.pcs[a].Installing? {
        InstallCaches(s, a, l.choice);
      } else {
        assert ClaimCached(s, a);
        ClaimGoesOn(s, a, s.pcs[a], l.choice);
      }
    } else {
      StartClaimsNothing(s, l);
    }
  }

  lemma StartClaimsNothing(s: State, l: Label)
    requires Enabled(s, l) && !l.action.Advance?
    ensures l.actor < |Apply(s, l).pcs| && Claimed(Apply(s, l).pcs[l.actor]) == None
  {
    if !l.action.ExitThread? {
      StartsFree(s, l);
      NoContextNoClaim(Apply(s, l).pcs[l.actor]);
    }
  }

  lemma NoContextNoClaim(pc: Pc)
    requires ContextOf(pc) == None
    ensures Claimed(pc) == None
  {
  }

  lemma CachedKept(s: State, l: Label)
    requires Owned(s) && CachedOk(s) && Enabled(s, l)
    ensures CachedOk(Apply(s, l))
  {
    var s' := Apply(s, l);
    StepTouches(s, l);
    OwnClaim(s, l);
    OthersStay(s, l);
    forall b: nat | b < |s'.pcs|
      ensures ClaimCached(s', b)
    {
      if b != l.actor {
        assert ClaimCached(s, b) && s'.pcs[b] == s.pcs[b];
        if Claimed(s.pcs[b]).Some? {
          var c := Claimed(s.pcs[b]).value.0.context;
          assert ContextOf(s.pcs[b]) == Some(c) && s.contexts[c].borrower == Some(b);
          assert Touched(s, l) != Some(c);
        }
      }
    }
  }

  lemma OthersStay(s: State, l: Label)
    requires Enabled(s, l)
    ensures |Apply(s, l).pcs| == |s.pcs|
    ensures forall b: nat :: b < |s.pcs| && b != l.actor ==> Apply(s, l).pcs[b] == s.pcs[b]
  {
    if l.action.Advance? {
      assert MovesOnly(s, Step(s, l.actor, s.pcs[l.actor], l.choice), l.actor);
    }
  }

  // ------------------------------------------------------------ every run

  ghost predicate HistoryOk(h: History) {
    && TracksOk(h.s) && NamesOk(h) && OpenOk(h) && FullOk(h.s)
    && TurnsOk(h) && LentOk(h) && ExitsOk(h) && CachedOk(h.s)
  }

  lemma StepKeepsHistory(h: History, l: Label)
    requires HistoryOk(h) && Enabled(h.s, l)
    ensures HistoryOk(Recall(h, l))
  {
    StepKeyed(h.s, l);
    NamesKept(h, l);
    OpenKept(h, l);
    CachedKept(h.s, l);
    StepKeepsFull(h.s, l);
    TurnsKept(h, l);
    BorrowsKept(h, l);
  }

  lemma {:induction false} RunKeepsHistory(h: History, labels: seq<Label>)
    requires HistoryOk(h)
    ensures HistoryOk(RunRecalled(h, labels))
    decreases |labels|
  {
    if labels != [] && Enabled(h.s, labels[0]) {
      StepKeepsHistory(h, labels[0]);
      RunKeepsHistory(Recall(h, labels[0]), labels[1..]);
    }
  }

  lemma ReachableHistory(h: History, actors: nat, polls: bool, labels: seq<Label>)
    requires h == RunRecalled(Begin(actors, polls), labels)
    ensures HistoryOk(h) && h.s == Run(Initial(actors, polls), labels)
  {
    InitialKeyed(actors, polls);
    assert HistoryOk(Begin(actors, polls));
    RunKeepsHistory(Begin(actors, polls), labels);
    RecallsTheRun(Begin(actors, polls), labels);
  }

  // ------------------------------------------------------------ main results

  /**
   In every reachable state a live span's key is the name it was created with, under the
   span that then enclosed it; and its track belongs to a pool unless all the keys there
   may be have one.
   */
  lemma SpansKeepTheirNames(h: History, actors: nat, polls: bool, labels: seq<Label>, id: nat)
    requires h == RunRecalled(Begin(actors, polls), labels) && id in h.s.live
    ensures id in h.births
    ensures h.births[id] == Birth(h.s.live[id].key.address, h.s.live[id].key.length, h.s.live[id].parent)
    ensures h.s.live[id].track.Some? && h.s.live[id].pool.None? ==> h.s.count == MAX_REUSABLE_KEYS
  {
    ReachableHistory(h, actors, polls, labels);
  }

  /** In every reachable state the next slot to go is the number of replacements so far, modulo eight. */
  lemma SlotsGoInTurn(h: History, actors: nat, polls: bool, labels: seq<Label>, c: nat)
    requires h == RunRecalled(Begin(actors, polls), labels) && c < |h.s.contexts|
    ensures h.s.contexts[c].next == Turns(h, c) % CACHE_SLOTS
  {
    ReachableHistory(h, actors, polls, labels);
  }

  /**
   A callback that is over has given its context back: whatever context an idle actor is
   still the borrower of, its thread has exited, and not one uuid is left in it.
   */
  lemma IdleCallbacksHoldNothing(h: History, actors: nat, polls: bool, labels: seq<Label>, a: nat, c: nat)
    requires h == RunRecalled(Begin(actors, polls), labels)
    requires a < |h.s.pcs| && h.s.pcs[a] == Idle && c < |h.s.contexts| && h.s.contexts[c].borrower == Some(a)
    ensures c in h.exited
    ensures forall k: nat :: k < |h.s.contexts[c].slots| ==> LocalAt(h.s.contexts, c, k) == None
  {
    ReachableHistory(h, actors, polls, labels);
  }

  /**
   From its creation to its close a span has state, or is still being created; it has
   none before or after.
   */
  lemma SpansLastUntilClosed(h: History, actors: nat, polls: bool, labels: seq<Label>, id: nat)
    requires h == RunRecalled(Begin(actors, polls), labels)
    ensures id in h.open <==> id in h.s.live || Created(h.s, id)
  {
    ReachableHistory(h, actors, polls, labels);
  }

  /** The pool a new span's track belongs to is in its thread's cache by the time the span is stored. */
  lemma ClaimedPoolsAreCached(h: History, actors: nat, polls: bool, labels: seq<Label>, a: nat)
    requires h == RunRecalled(Begin(actors, polls), labels)
    requires a < |h.s.pcs| && h.s.pcs[a].Storing? && h.s.pcs[a].owner.Some?
    ensures h.s.pcs[a].work.context < |h.s.contexts|
    ensures exists k: nat :: k < |h.s.contexts[h.s.pcs[a].work.context].slots|
              && h.s.contexts[h.s.pcs[a].work.context].slots[k]
              == Some(Slot(h.s.pcs[a].work.key, h.s.pcs[a].owner.value, None))
  {
    ReachableHistory(h, actors, polls, labels);
    assert ClaimCached(h.s, a);
  }
}
