/**
  Workers that claim the tiles of a pack from a shared counter, one bounded batch after
  another, under every interleaving and with a stop at any moment. A plain loop is one
  worker with a single batch that looks at no stop of its own.
 */
module TileBatches {
  import opened FiniteSets
  import opened Options

  const REGIONAL_BATCH_SIZE := 128

  /** A worker looks whether to go on, fetches the tile it claimed, or has left the batch. */
  datatype Phase = Looking | Claimed(index: nat) | Left

  datatype Fetched = Fetched(index: nat, ok: bool)

  /** `log` is ghost history: every fetch, in the order they ended. */
  datatype State = State(
    tiles: nat, plain: bool, start: nat, next: nat, crew: seq<Phase>,
    failed: bool, stopped: bool, log: seq<Fetched>, result: Option<bool>)

  datatype Step =
    | Stop                       // the job's context ends
    | Claim(w: nat)              // take the next index, or leave at the end of the batch
    | Leave(w: nat)              // the batch was cancelled
    | Fetch(w: nat, ok: bool)
    | Advance                    // every worker has left: next batch, or the result

  function Min(a: nat, b: nat): nat { if a < b then a else b }

  function End(s: State): nat { if s.plain then s.tiles else Min(s.start + REGIONAL_BATCH_SIZE, s.tiles) }

  function Crew(workers: nat): seq<Phase> { seq(workers, _ => Looking) }

  function Initial(tiles: nat, workers: nat, plain: bool): State {
    State(tiles, plain, 0, 0, Crew(workers), false, false, [], if tiles == 0 then Some(true) else None)
  }

  /** What a worker between two tiles, or the end of a batch, gives up for. */
  predicate Cancelled(s: State) { s.failed || (s.stopped && !s.plain) }

  predicate Enabled(s: State, step: Step) {
    && s.result == None
    && match step
       case Stop => true
       case Claim(w) => w < |s.crew| && s.crew[w].Looking?
       case Leave(w) => w < |s.crew| && s.crew[w].Looking? && Cancelled(s)
       case Fetch(w, _) => w < |s.crew| && s.crew[w].Claimed?
       case Advance => forall w :: 0 <= w < |s.crew| ==> s.crew[w].Left?
  }

  function Apply(s: State, step: Step): State
    requires Enabled(s, step)
  {
    match step
    case Stop => s.(stopped := true)
    case Claim(w) =>
      var index := s.start + s.next;
      s.(next := s.next + 1, crew := s.crew[w := if index >= End(s) then Left else Claimed(index)])
    case Leave(w) => s.(crew := s.crew[w := Left])
    case Fetch(w, ok) =>
      s.(log := s.log + [Fetched(s.crew[w].index, ok)], failed := s.failed || !ok,
         crew := s.crew[w := if ok then Looking else Left])
    case Advance =>
      if Cancelled(s) then s.(result := Some(false))
      else if End(s) == s.tiles then s.(start := s.tiles, next := 0, result := Some(true))
      else s.(start := End(s), next := 0, crew := Crew(|s.crew|))
  }

  // ------------------------------------------------------------------- invariant

  function Reached(s: State): nat { Min(s.start + s.next, End(s)) }

  predicate Logged(log: seq<Fetched>, index: nat) { exists k :: 0 <= k < |log| && log[k].index == index }

  predicate InHand(crew: seq<Phase>, index: nat) { exists w :: 0 <= w < |crew| && crew[w] == Claimed(index) }

  /** What was claimed is fetched or about to be, never twice. */
  ghost predicate Inv(s: State) {
    && s.start <= s.tiles && |s.crew| > 0
    && (s.result == None ==> s.start < s.tiles)
    && (s.result == Some(true) ==> s.start == s.tiles)
    && (forall k :: 0 <= k < |s.log| ==> s.log[k].index < Reached(s))
    && (forall j, k :: 0 <= j < k < |s.log| ==> s.log[j].index != s.log[k].index)
    && (forall w :: 0 <= w < |s.crew| && s.crew[w].Claimed? ==>
          s.start <= s.crew[w].index < Reached(s) && !Logged(s.log, s.crew[w].index))
    && (forall v, w :: 0 <= v < w < |s.crew| && s.crew[v].Claimed? && s.crew[w].Claimed? ==>
          s.crew[v].index != s.crew[w].index)
    && (forall i :: 0 <= i < Reached(s) ==> Logged(s.log, i) || InHand(s.crew, i))
    && (forall k :: 0 <= k < |s.log| && !s.log[k].ok ==> s.failed)
    && (s.failed ==> s.result != Some(true))
    && (s.result != None ==> forall w :: 0 <= w < |s.crew| ==> !s.crew[w].Claimed?)
    && (s.result == None ==> forall w :: 0 <= w < |s.crew| && s.crew[w].Left? ==> Cancelled(s) || Reached(s) == End(s))
  }

  lemma ClaimKeepsInv(s: State, w: nat)
    requires Inv(s) && Enabled(s, Claim(w))
    ensures Inv(Apply(s, Claim(w)))
  {
    var t := Apply(s, Claim(w));
    forall i | 0 <= i < Reached(t)
      ensures Logged(t.log, i) || InHand(t.crew, i)
    {
      if i < Reached(s) {
        if !Logged(s.log, i) {
          var v :| 0 <= v < |s.crew| && s.crew[v] == Claimed(i);
          assert t.crew[v] == Claimed(i);
        }
      } else {
        assert t.crew[w] == Claimed(i);
      }
    }
  }

  lemma FetchKeepsInv(s: State, w: nat, ok: bool)
    requires Inv(s) && Enabled(s, Fetch(w, ok))
    ensures Inv(Apply(s, Fetch(w, ok)))
  {
    hide Crew;
    var t := Apply(s, Fetch(w, ok));
    var index := s.crew[w].index;
    assert t.log[|s.log|].index == index;
    forall i | 0 <= i < Reached(t)
      ensures Logged(t.log, i) || InHand(t.crew, i)
    {
      if Logged(s.log, i) {
        var k :| 0 <= k < |s.log| && s.log[k].index == i;
        assert t.log[k].index == i;
      } else if i != index {
        var v :| 0 <= v < |s.crew| && s.crew[v] == Claimed(i);
        assert t.crew[v] == Claimed(i);
      }
    }
    forall v | 0 <= v < |t.crew| && t.crew[v].Claimed?
      ensures !Logged(t.log, t.crew[v].index)
    {
      assert t.crew[v] == s.crew[v];
    }
  }

  lemma LeaveKeepsInv(s: State, w: nat)
    requires Inv(s) && Enabled(s, Leave(w))
    ensures Inv(Apply(s, Leave(w)))
  {
    var t := Apply(s, Leave(w));
    forall i | 0 <= i < Reached(t)
      ensures Logged(t.log, i) || InHand(t.crew, i)
    {
      if !Logged(s.log, i) {
        var v :| 0 <= v < |s.crew| && s.crew[v] == Claimed(i);
        assert t.crew[v] == Claimed(i);
      }
    }
  }

  lemma AdvanceKeepsInv(s: State)
    requires Inv(s) && Enabled(s, Advance)
    ensures Inv(Apply(s, Advance))
  {
    var t := Apply(s, Advance);
    if !Cancelled(s) {
      assert s.crew[0].Left?;
      forall i | 0 <= i < Reached(t)
        ensures Logged(t.log, i)
      {
        assert Logged(s.log, i) || InHand(s.crew, i);
      }
    }
  }

  /** Nothing that was reached is given out again: a claim takes the next index. */
  lemma ReachedGrows(s: State, step: Step)
    requires Inv(s) && Enabled(s, step)
    ensures Reached(Apply(s, step)) >= Reached(s)
    ensures step.Claim? && Apply(s, step).crew[step.w].Claimed? ==>
              Apply(s, step).crew[step.w].index == Reached(s) < Reached(Apply(s, step))
    ensures Apply(s, step).tiles == s.tiles
  {
  }

  /** A claimed tile stays with its worker until it is fetched. */
  lemma ClaimStays(s: State, step: Step, v: nat)
    requires Enabled(s, step) && v < |s.crew| && s.crew[v].Claimed? && !(step.Fetch? && step.w == v)
    ensures v < |Apply(s, step).crew| && Apply(s, step).crew[v] == s.crew[v]
  {
  }

  lemma StepKeepsInv(s: State, step: Step)
    requires Inv(s) && Enabled(s, step)
    ensures Inv(Apply(s, step))
  {
    match step
    case Stop =>
    case Claim(w) => ClaimKeepsInv(s, w);
    case Leave(w) => LeaveKeepsInv(s, w);
    case Fetch(w, ok) => FetchKeepsInv(s, w, ok);
    case Advance => AdvanceKeepsInv(s);
  }

  ghost predicate Run(states: seq<State>, steps: seq<Step>, tiles: nat, workers: nat, plain: bool) {
    && |states| == |steps| + 1
    && states[0] == Initial(tiles, workers, plain)
    && forall i :: 0 <= i < |steps| ==> Enabled(states[i], steps[i]) && states[i + 1] == Apply(states[i], steps[i])
  }

  lemma {:induction false} RunKeepsInv(
    states: seq<State>, steps: seq<Step>, tiles: nat, workers: nat, plain: bool, n: nat)
    requires Run(states, steps, tiles, workers, plain) && workers > 0 && n <= |steps|
    ensures Inv(states[n]) && states[n].tiles == tiles
  {
    if n > 0 {
      RunKeepsInv(states, steps, tiles, workers, plain, n - 1);
      hide Inv;
      StepKeepsInv(states[n - 1], steps[n - 1]);
    }
  }

  /** A single worker simply goes through the tiles until one fails. */
  method FetchInTurn(outcomes: seq<bool>) returns (ok: bool, log: seq<Fetched>)
    ensures ok <==> forall i :: 0 <= i < |outcomes| ==> outcomes[i]
    ensures |log| <= |outcomes| && forall k :: 0 <= k < |log| ==> log[k] == Fetched(k, outcomes[k])
    ensures forall k :: 0 <= k < |log| - 1 ==> log[k].ok
    ensures if ok then |log| == |outcomes| else log != [] && !log[|log| - 1].ok
  {
    log := [];
    for i := 0 to |outcomes|
      invariant |log| == i && forall k :: 0 <= k < i ==> log[k] == Fetched(k, true) && outcomes[k]
    {
      log := log + [Fetched(i, outcomes[i])];
      if !outcomes[i] {
        return false, log;
      }
    }
    ok := true;
  }

  // --------------------------------------------------------------------- results

  function Indices(log: seq<Fetched>): set<nat> { set k | 0 <= k < |log| :: log[k].index }

  lemma {:induction false} DistinctCount(log: seq<Fetched>)
    requires forall j, k :: 0 <= j < k < |log| ==> log[j].index != log[k].index
    ensures |Indices(log)| == |log|
  {
    if log != [] {
      var n := |log| - 1;
      DistinctCount(log[..n]);
      assert Indices(log) == Indices(log[..n]) + {log[n].index};
    }
  }

  /** No tile is ever fetched twice, however the workers interleave. */
  lemma FetchedAtMostOnce(states: seq<State>, steps: seq<Step>, tiles: nat, workers: nat, plain: bool)
    requires Run(states, steps, tiles, workers, plain) && workers > 0
    ensures var log := states[|steps|].log;
            && (forall j, k :: 0 <= j < k < |log| ==> log[j].index != log[k].index)
            && (forall k :: 0 <= k < |log| ==> log[k].index < tiles)
            && |log| <= tiles
  {
    RunKeepsInv(states, steps, tiles, workers, plain, |steps|);
    var log := states[|steps|].log;
    DistinctCount(log);
    assert Indices(log) <= Below(tiles);
    SubsetSize(Indices(log), Below(tiles));
  }

  /** A successful end: every tile fetched, once, and well. */
  ghost predicate AllOnce(log: seq<Fetched>, tiles: nat) {
    && |log| == tiles
    && (forall i :: 0 <= i < tiles ==> exists k :: 0 <= k < |log| && log[k] == Fetched(i, true))
    && (forall j, k :: 0 <= j < k < |log| ==> log[j].index != log[k].index)
    && (forall k :: 0 <= k < |log| ==> log[k].ok && log[k].index < tiles)
  }

  lemma SuccessIsAllOnce(s: State)
    requires Inv(s) && s.result == Some(true)
    ensures AllOnce(s.log, s.tiles)
  {
    DistinctCount(s.log);
    forall i | 0 <= i < s.tiles
      ensures exists k :: 0 <= k < |s.log| && s.log[k] == Fetched(i, true)
      ensures i in Indices(s.log)
    {
      assert Logged(s.log, i) || InHand(s.crew, i);
      var k :| 0 <= k < |s.log| && s.log[k].index == i;
      assert s.log[k] == Fetched(i, true);
    }
    assert Indices(s.log) == Below(s.tiles);
  }

  /** Success means every tile was fetched exactly once and none failed. */
  lemma SuccessMeansAllOnce(states: seq<State>, steps: seq<Step>, tiles: nat, workers: nat, plain: bool)
    requires Run(states, steps, tiles, workers, plain) && workers > 0
    requires states[|steps|].result == Some(true)
    ensures AllOnce(states[|steps|].log, tiles)
  {
    RunKeepsInv(states, steps, tiles, workers, plain, |steps|);
    SuccessIsAllOnce(states[|steps|]);
  }

  lemma {:induction false} StopStays(states: seq<State>, steps: seq<Step>, tiles: nat, workers: nat, plain: bool,
                                     m: nat, n: nat)
    requires Run(states, steps, tiles, workers, plain) && m <= n <= |steps| && states[m].stopped
    ensures states[n].stopped && states[n].plain == plain
    decreases n
  {
    PlainStays(states, steps, tiles, workers, plain, n);
    if m < n {
      StopStays(states, steps, tiles, workers, plain, m, n - 1);
    }
  }

  lemma {:induction false} PlainStays(
    states: seq<State>, steps: seq<Step>, tiles: nat, workers: nat, plain: bool, n: nat)
    requires Run(states, steps, tiles, workers, plain) && n <= |steps|
    ensures states[n].plain == plain
  {
    if n > 0 {
      PlainStays(states, steps, tiles, workers, plain, n - 1);
    }
  }

  /** A job stopped before the last batch ends gets no success from its tile workers, and the
      end of that very batch reports it. */
  lemma StopIsReported(states: seq<State>, steps: seq<Step>, tiles: nat, workers: nat, m: nat, n: nat)
    requires Run(states, steps, tiles, workers, false) && m <= n < |steps|
    requires states[m].stopped && steps[n].Advance?
    ensures states[n + 1].result == Some(false)
  {
    StopStays(states, steps, tiles, workers, false, m, n);
  }

  /** A failed fetch or a stop seen at the end of a batch is never reported as success. */
  lemma FailureIsReported(states: seq<State>, steps: seq<Step>, tiles: nat, workers: nat, plain: bool, k: nat)
    requires Run(states, steps, tiles, workers, plain) && workers > 0
    requires k < |states[|steps|].log| && !states[|steps|].log[k].ok
    ensures states[|steps|].result != Some(true)
  {
    RunKeepsInv(states, steps, tiles, workers, plain, |steps|);
  }
}
