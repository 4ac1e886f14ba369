/** What a run of callbacks writes: every callback's packets, complete, in order and in place. */
module Callbacks {
  import opened Prelude
  import opened PacketFormats
  import opened Sequences
  import opened Fidelity

  /** Whether an earlier callback of the run has written something. */
  function StartedAt(started: bool, run: seq<Callback>, k: nat): bool
    requires k <= |run|
    decreases k
  {
    if k == 0 then started else StartedAt(started || run[0].bodies != [], run[1..], k - 1)
  }

  /** The packets are a callback's, at its clock value, with the sequence's opening if it is the first. */
  predicate IsCallback(es: seq<Emission>, started: bool, callback: Callback) {
    var opening := if started then 0 else 1 + |callback.setup|;
    if callback.bodies == [] then es == []
    else
      && |es| == opening + |callback.bodies|
      && (!started ==> es[0] == Initial(callback.raw, callback.opening))
      && (!started ==> forall j: nat :: j < |callback.setup| ==> es[1 + j] == Ordinary(callback.raw, callback.setup[j]))
      && forall j: nat :: j < |callback.bodies| ==> es[opening + j] == Ordinary(callback.raw, callback.bodies[j])
  }

  /** A run up to callback `k`, and from there on. */
  lemma {:induction false} RunSplits(started: bool, run: seq<Callback>, k: nat)
    requires k <= |run|
    ensures RunEmissions(started, run)
         == RunEmissions(started, run[..k]) + RunEmissions(StartedAt(started, run, k), run[k..])
    decreases k
  {
    if k == 0 {
      assert run[..0] == [] && run[0..] == run;
    } else {
      var later := started || run[0].bodies != [];
      RunSplits(later, run[1..], k - 1);
      assert run[1..][k - 1..] == run[k..];
      RunPrefix(started, run, k);
      Reassociate(Emissions(started, run[0]), RunEmissions(later, run[1..][..k - 1]),
                  RunEmissions(StartedAt(started, run, k), run[k..]));
    }
  }

  lemma RunPrefix(started: bool, run: seq<Callback>, k: nat)
    requires 0 < k <= |run|
    ensures RunEmissions(started, run[..k])
         == Emissions(started, run[0]) + RunEmissions(started || run[0].bodies != [], run[1..][..k - 1])
  {
    assert run[..k][0] == run[0] && run[..k][1..] == run[1..][..k - 1];
  }

  lemma Reassociate(a: seq<Emission>, b: seq<Emission>, c: seq<Emission>)
    ensures a + (b + c) == a + b + c && (a + (b + c))[|a|..|a| + |b|] == b
  {
  }

  /** One callback more. */
  lemma RunPush(started: bool, run: seq<Callback>, k: nat)
    requires k < |run|
    ensures RunEmissions(started, run[..k + 1])
         == RunEmissions(started, run[..k]) + Emissions(StartedAt(started, run, k), run[k])
  {
    var front := run[..k + 1];
    RunSplits(started, front, k);
    StartedByPrefix(started, run, front, k);
    assert front[..k] == run[..k] && front[k..] == [run[k]] && [run[k]][1..] == [];
    assert RunEmissions(StartedAt(started, run, k), [run[k]]) == Emissions(StartedAt(started, run, k), run[k]) + [];
  }

  lemma {:induction false} StartedByPrefix(started: bool, run: seq<Callback>, other: seq<Callback>, k: nat)
    requires k <= |run| && k <= |other| && run[..k] == other[..k]
    ensures StartedAt(started, run, k) == StartedAt(started, other, k)
    decreases k
  {
    if k > 0 {
      assert run[0] == run[..k][0] && other[0] == other[..k][0];
      assert run[1..][..k - 1] == run[..k][1..] && other[1..][..k - 1] == other[..k][1..];
      StartedByPrefix(started || run[0].bodies != [], run[1..], other[1..], k - 1);
    }
  }

  /**
   Nothing a callback asks for is lost, moved or repeated: between a callback's offset in
   its run and the next one's lie exactly its bodies, in order, after the first packet and
   the set-up if it is the first to write.
   */
  lemma CallbacksAreComplete(run: seq<Callback>, k: nat)
    requires k < |run|
    ensures var es := RunEmissions(false, run);
            && Offset(run, k) <= Offset(run, k + 1) <= |es|
            && IsCallback(es[Offset(run, k)..Offset(run, k + 1)], StartedAt(false, run, k), run[k])
  {
    var began := StartedAt(false, run, k);
    RunSplits(false, run, k + 1);
    RunPush(false, run, k);
    EmissionsAreCallback(began, run[k]);
    Reassociate(RunEmissions(false, run[..k]), Emissions(began, run[k]),
                RunEmissions(StartedAt(false, run, k + 1), run[k + 1..]));
  }

  lemma EmissionsAreCallback(started: bool, callback: Callback)
    ensures IsCallback(Emissions(started, callback), started, callback)
  {
  }

  /** The set-up a thread writes before its first packet: perhaps the process, then itself. */
  function SetUp(p: Params, process: Option<(u64, u64, seq<Text>, Text)>, pid: u64, tid: u64, name: Text): seq<Body> {
    var thread := [ThreadTrack(p.threadTrack, pid, tid, name)];
    if process.None? then thread
    else
      var (uuid, processId, arguments, processName) := process.value;
      [ProcessTrack(uuid, processId, arguments, processName)] + thread
  }

  ghost predicate SetsUp(p: Params, callback: Callback) {
    exists process, pid, tid, name :: callback.setup == SetUp(p, process, pid, tid, name)
  }

  /**
   A thread's events are on its own track unless they name another, and that track is
   described earlier on the sequence.
   */
  lemma {:induction false} OwnTrackIsDescribed(p: Params, run: seq<Callback>, i: nat) returns (k: nat)
    requires forall callback :: callback in run ==> SetsUp(p, callback)
    requires i < |RunEmissions(false, run)|
    requires RunEmissions(false, run)[i].Ordinary? && RunEmissions(false, run)[i].body.Event?
    ensures k < i && RunEmissions(false, run)[k].Ordinary?
    ensures RunEmissions(false, run)[k].body.ThreadTrack? && RunEmissions(false, run)[k].body.uuid == p.threadTrack
    decreases |run|
  {
    if run[0].bodies == [] {
      assert RunEmissions(false, run) == RunEmissions(false, run[1..]);
      k := OwnTrackIsDescribed(p, run[1..], i);
    } else {
      assert SetsUp(p, run[0]);
      EmissionsAreCallback(false, run[0]);
      var first, rest := Emissions(false, run[0]), RunEmissions(true, run[1..]);
      assert RunEmissions(false, run) == first + rest;
      k := |run[0].setup|;
      assert first[1 + (k - 1)] == Ordinary(run[0].raw, run[0].setup[k - 1]);
      assert i > 0;
    }
  }
}
