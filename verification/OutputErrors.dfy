/** Failures of the sink: what is lost, what is reported, and what a flush guarantees. */
module OutputErrors {
  import opened Prelude
  import opened Output
  import opened OutputSafety

  /** A failure its actor has met and the error flag does not show yet. */
  function FailureOf(pc: Pc): Option<Error> {
    match pc
    case Draining(_, at) =>
      (match at
       case Committing(_, _, failure) => failure
       case CheckingTrailing(failure) => failure
       case FreeingWriter(failure) => failure
       case FreeingConsumer(failure) => failure
       case _ => None)
    case Recording(e, recorder, _) => if recorder.FreeingError? then None else Some(e)
    case FlushFreeing(_, failure) => failure
    case _ => None
  }

  // ------------------------------------------------------------ the error invariant

  predicate AllDelivered(fates: seq<Fate>) {
    forall k :: 0 <= k < |fates| ==> fates[k].delivered
  }

  predicate AllWhole(segments: seq<Segment>) {
    forall k :: 0 <= k < |segments| ==> segments[k].Whole?
  }

  /** Without a failure nothing is torn, dropped or reported. */
  ghost predicate FaultlessOk(s: State) {
    !s.shared.failed ==>
      && !s.shared.hasError && s.shared.error == None && AllWhole(s.shared.segments)
      && (forall a: nat :: a < |s.pcs| ==> FailureOf(s.pcs[a]) == None)
      && (forall i: nat :: i < |s.buffers| ==> AllDelivered(s.buffers[i].fates))
  }

  /** A failure is either flagged or still in the hands of the actor that met it. */
  ghost predicate FailureOk(s: State) {
    s.shared.failed ==> s.shared.hasError || exists a: nat :: a < |s.pcs| && FailureOf(s.pcs[a]).Some?
  }

  predicate Begun(pc: Pc) {
    || (pc.Draining? && pc.job.begun)
    || (FlushOf(pc).Some? && FlushOf(pc).value.begun)
  }

  /** An actor about to set the flag, or acting on it, knows the error is recorded. */
  predicate KnowsError(pc: Pc) {
    (pc.Recording? && pc.recorder.Flagging?) || pc.FlushReporting?
  }

  ghost predicate FlagOk(s: State) {
    && (s.shared.hasError ==> s.shared.error.Some?)
    && (forall a: nat :: a < |s.pcs| && Begun(s.pcs[a]) ==> s.shared.hasError)
    && (forall a: nat :: a < |s.pcs| && KnowsError(s.pcs[a]) ==> s.shared.error.Some?)
  }

  ghost predicate ResultOk(s: State) {
    forall a: nat :: a < |s.pcs| && s.pcs[a].Returned? ==>
      && (s.pcs[a].result.Some? ==> s.pcs[a].result == s.shared.error)
      && (s.pcs[a].flush.begun ==> s.pcs[a].result.Some?)
  }

  /** A drain that began with the flag set is not writing. */
  ghost predicate QuietOk(s: State) {
    forall a: nat :: a < |s.pcs| ==> Quiet(s.pcs[a])
  }

  predicate Quiet(pc: Pc) {
    pc.Draining? && pc.job.begun ==> !pc.at.WritingFirst? && !pc.at.WritingSecond? && !pc.at.WritingTrailing?
  }

  ghost predicate ErrorInv(s: State) {
    QuietOk(s) && FaultlessOk(s) && FailureOk(s) && FlagOk(s) && ResultOk(s)
  }

  // ------------------------------------------------------------ local facts

  /** How the shared error state may change. */
  predicate SharedMove(shared: Shared, shared': Shared) {
    && (shared.failed ==> shared'.failed) && (shared.hasError ==> shared'.hasError)
    && (shared.error.Some? ==> shared'.error == shared.error)
  }

  lemma DrainErrors(a: nat, l: Local, split: nat, outcome: Outcome)
    requires DrainCan(l, split, outcome)
    ensures var l' := Drained(a, l, split, outcome);
            && SharedMove(l.shared, l'.shared) && l'.shared.hasError == l.shared.hasError
            && l'.shared.error == l.shared.error
            && (FailureOf(l.pc).Some? ==> FailureOf(l'.pc).Some?)
            && (l'.shared.failed ==> l.shared.failed || FailureOf(l'.pc).Some?)
            && (FailureOf(l'.pc).Some? ==> l'.shared.failed || FailureOf(l.pc).Some?)
            && !KnowsError(l'.pc) && !l'.pc.Returned? && (Begun(l'.pc) ==> Begun(l.pc))
  {
  }

  lemma AdvancedErrors(a: nat, pc: Pc, shared: Shared, outcome: Outcome)
    requires Focus(pc).None? && !pc.Idle?
    ensures var (pc', shared') := Advanced(a, pc, shared, outcome);
            && SharedMove(shared, shared')
            && (shared'.error.Some? ==> shared.error.Some? || FailureOf(pc).Some?)
            && (FailureOf(pc).Some? ==> FailureOf(pc').Some? || shared'.hasError)
            && (FailureOf(pc').Some? ==> shared'.failed || FailureOf(pc).Some?)
            && (shared'.failed ==> shared.failed || FailureOf(pc').Some?)
            && (shared'.hasError ==> shared.hasError || (KnowsError(pc) && FailureOf(pc).Some?))
  {
  }

  lemma AdvancedKnows(a: nat, pc: Pc, shared: Shared, outcome: Outcome)
    requires Focus(pc).None? && !pc.Idle? && (shared.hasError ==> shared.error.Some?)
    requires (KnowsError(pc) ==> shared.error.Some?) && (Begun(pc) ==> shared.hasError)
    ensures var (pc', shared') := Advanced(a, pc, shared, outcome);
            && (KnowsError(pc') ==> shared'.error.Some?) && (Begun(pc') ==> shared'.hasError)
            && (pc'.Returned? ==>
                  (pc'.result.Some? ==> pc'.result == shared'.error) && (pc'.flush.begun ==> pc'.result.Some?))
  {
  }

  lemma DrainFaultless(a: nat, l: Local, split: nat, outcome: Outcome)
    requires DrainCan(l, split, outcome)
    requires !l.shared.failed && !l.shared.hasError && FailureOf(l.pc) == None && AllDelivered(l.b.fates)
    requires AllWhole(l.shared.segments)
    ensures var l' := Drained(a, l, split, outcome);
            l'.shared.failed || (AllDelivered(l'.b.fates) && AllWhole(l'.shared.segments))
  {
  }

  // ------------------------------------------------------------ every step keeps it

  /** The step is a drain's. */
  predicate Drains(s: State, l: Label) {
    Enabled(s, l) && l.action.Advance? && s.pcs[l.actor].Draining?
  }

  /** The step is of a flush between drains, or records an error. */
  predicate Alone(s: State, l: Label) {
    Enabled(s, l) && l.action.Advance? && Focus(s.pcs[l.actor]).None?
  }

  /** The local state of a drain's step, and where it leads. */
  function Here(s: State, l: Label): Local
    requires Drains(s, l)
  {
    var pc := s.pcs[l.actor];
    Local(pc, s.buffers[pc.job.buffer], s.shared)
  }

  function There(s: State, l: Label): Local
    requires Drains(s, l)
  {
    Drained(l.actor, Here(s, l), l.action.split, l.action.outcome)
  }

  lemma DrainStep(s: State, l: Label)
    requires Drains(s, l)
    ensures DrainCan(Here(s, l), l.action.split, l.action.outcome)
    ensures Apply(s, l) == Put(s, l.actor, s.pcs[l.actor].job.buffer, There(s, l))
  {
  }

  lemma FaultlessKept(s: State, l: Label)
    requires ErrorInv(s) && Enabled(s, l)
    ensures FaultlessOk(Apply(s, l))
  {
    if Drains(s, l) {
      DrainStep(s, l);
      DrainErrors(l.actor, Here(s, l), l.action.split, l.action.outcome);
      if !Apply(s, l).shared.failed {
        DrainFaultless(l.actor, Here(s, l), l.action.split, l.action.outcome);
      }
    } else if Alone(s, l) {
      AdvancedErrors(l.actor, s.pcs[l.actor], s.shared, l.action.outcome);
      AdvancedQuietly(l.actor, s.pcs[l.actor], s.shared, l.action.outcome);
    }
  }

  lemma FailureKept(s: State, l: Label)
    requires ErrorInv(s) && Enabled(s, l)
    ensures FailureOk(Apply(s, l))
  {
    var s' := Apply(s, l);
    if Drains(s, l) {
      DrainStep(s, l);
      DrainErrors(l.actor, Here(s, l), l.action.split, l.action.outcome);
    } else if Alone(s, l) {
      AdvancedErrors(l.actor, s.pcs[l.actor], s.shared, l.action.outcome);
    }
    if s'.shared.failed && !s'.shared.hasError {
      if s.shared.failed {
        var a: nat :| a < |s.pcs| && FailureOf(s.pcs[a]).Some?;
        assert a < |s'.pcs| && FailureOf(s'.pcs[a]).Some?;
      } else {
        assert FailureOf(s'.pcs[l.actor]).Some?;
      }
    }
  }

  lemma FlagKept(s: State, l: Label)
    requires ErrorInv(s) && Enabled(s, l)
    ensures FlagOk(Apply(s, l)) && SharedMove(s.shared, Apply(s, l).shared)
  {
    if Drains(s, l) {
      DrainStep(s, l);
      DrainErrors(l.actor, Here(s, l), l.action.split, l.action.outcome);
    } else if Alone(s, l) {
      AdvancedErrors(l.actor, s.pcs[l.actor], s.shared, l.action.outcome);
      AdvancedKnows(l.actor, s.pcs[l.actor], s.shared, l.action.outcome);
    }
  }

  lemma DrainStaysQuiet(a: nat, l: Local, split: nat, outcome: Outcome)
    requires DrainCan(l, split, outcome) && Quiet(l.pc) && (l.pc.job.begun ==> l.shared.hasError)
    ensures var l' := Drained(a, l, split, outcome);
            Quiet(l'.pc) && (l.pc.job.begun ==> l'.shared.sink == l.shared.sink)
  {
  }

  lemma QuietKept(s: State, l: Label)
    requires ErrorInv(s) && Enabled(s, l)
    ensures QuietOk(Apply(s, l))
    ensures Drains(s, l) && s.pcs[l.actor].job.begun ==> Apply(s, l).shared.sink == s.shared.sink
  {
    if Drains(s, l) {
      assert s.pcs[l.actor].job.begun ==> Begun(s.pcs[l.actor]);
      DrainStep(s, l);
      DrainStaysQuiet(l.actor, Here(s, l), l.action.split, l.action.outcome);
    } else if Alone(s, l) {
      AdvancedLocks(l.actor, s.pcs[l.actor], s.shared, l.action.outcome);
    }
  }

  lemma ResultKept(s: State, l: Label)
    requires ErrorInv(s) && Enabled(s, l)
    ensures ResultOk(Apply(s, l))
  {
    FlagKept(s, l);
    if Drains(s, l) {
      DrainStep(s, l);
      DrainErrors(l.actor, Here(s, l), l.action.split, l.action.outcome);
    } else if Alone(s, l) {
      AdvancedKnows(l.actor, s.pcs[l.actor], s.shared, l.action.outcome);
    }
  }

  lemma {:induction false} RunKeepsErrors(s: State, labels: seq<Label>)
    requires ErrorInv(s)
    ensures ErrorInv(Run(s, labels)) && SharedMove(s.shared, Run(s, labels).shared)
    decreases |labels|
  {
    if labels != [] && Enabled(s, labels[0]) {
      QuietKept(s, labels[0]);
      FaultlessKept(s, labels[0]);
      FailureKept(s, labels[0]);
      FlagKept(s, labels[0]);
      ResultKept(s, labels[0]);
      RunKeepsErrors(Apply(s, labels[0]), labels[1..]);
    }
  }
}
