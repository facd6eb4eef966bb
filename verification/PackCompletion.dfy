/**
  What a finished download means, in every run of its job.
 */
module PackCompletion {
  import opened Options
  import opened FiniteSets
  import opened PackStates
  import opened PackProgress
  import opened PackJob
  import opened PackAccount
  import opened PackCourse
  import TileBatches
  import PackPins

  // -------------------------------------------------------------- counting the resources

  function TasksIn(segments: seq<Segment>): nat {
    if segments == [] then 0 else TasksIn(segments[..|segments| - 1]) + |segments[|segments| - 1].tasks|
  }

  function TaskCount(plan: Plan): nat {
    if plan == [] then 0 else TaskCount(plan[..|plan| - 1]) + TasksIn(plan[|plan| - 1])
  }

  function SegmentIds(s: nat, g: nat, n: nat): (ids: set<Id>)
    ensures forall id :: id in ids <==> id.stage == s && id.segment == g && id.index < n
    ensures |ids| == n
  {
    if n == 0 then {} else SegmentIds(s, g, n - 1) + {Id(s, g, n - 1)}
  }

  function StageIds(segments: seq<Segment>, s: nat): (ids: set<Id>)
    ensures forall id :: id in ids <==>
              id.stage == s && id.segment < |segments| && id.index < |segments[id.segment].tasks|
    ensures |ids| == TasksIn(segments)
  {
    if segments == [] then {}
    else
      var g := |segments| - 1;
      var before, last := StageIds(segments[..g], s), SegmentIds(s, g, |segments[g].tasks|);
      assert before !! last;
      before + last
  }

  function Ids(plan: Plan): (ids: set<Id>)
    ensures forall id :: id in ids <==> InPlan(plan, id)
    ensures |ids| == TaskCount(plan)
  {
    if plan == [] then {}
    else
      var s := |plan| - 1;
      var before, last := Ids(plan[..s]), StageIds(plan[s], s);
      assert before !! last;
      assert forall id :: InPlan(plan[..s], id) <==> InPlan(plan, id) && id.stage < s;
      before + last
  }

  function Members(ids: seq<Id>): set<Id> { set i | 0 <= i < |ids| :: ids[i] }

  lemma {:induction false} DistinctSize(ids: seq<Id>)
    requires DistinctIds(ids)
    ensures |Members(ids)| == |ids|
  {
    if ids != [] {
      var n := |ids| - 1;
      DistinctSize(ids[..n]);
      assert Members(ids) == Members(ids[..n]) + {ids[n]};
    }
  }

  predicate AllPlanned(ids: seq<Id>, plan: Plan) { forall k :: 0 <= k < |ids| ==> InPlan(plan, ids[k]) }

  ghost predicate AllOf(ids: seq<Id>, plan: Plan) { forall id :: InPlan(plan, id) ==> id in ids }

  lemma PlannedMembers(ids: seq<Id>, plan: Plan)
    ensures AllPlanned(ids, plan) ==> Members(ids) <= Ids(plan)
    ensures AllOf(ids, plan) ==> Ids(plan) <= Members(ids)
  {
    hide InPlan, Ids;
  }

  lemma DistinctWithinPlan(ids: seq<Id>, plan: Plan)
    requires DistinctIds(ids) && AllPlanned(ids, plan)
    ensures |ids| <= TaskCount(plan)
    ensures AllOf(ids, plan) ==> |ids| == TaskCount(plan)
  {
    DistinctSize(ids);
    PlannedMembers(ids, plan);
    hide *;
    SubsetSize(Members(ids), Ids(plan));
    if AllOf(ids, plan) {
      assert Members(ids) == Ids(plan);
    }
  }

  /** No more resources end than were planned, and all of them did if each is in the history. */
  lemma EndedWithinPlan(j: Job)
    requires Once(j)
    ensures |j.ended| <= TaskCount(j.plan)
    ensures AllOf(j.ended, j.plan) ==> |j.ended| == TaskCount(j.plan)
  {
    hide DistinctIds, NotEnded, TaskCount;
    assert AllPlanned(j.ended, j.plan);
    DistinctWithinPlan(j.ended, j.plan);
  }

  // ------------------------------------------------------------------ a complete download

  /** The resource ended at position `k` of the history, accepted, and at no other. */
  predicate AcceptedAt(j: Job, id: Id, k: nat)
    requires |j.ended| == |j.record.log|
  {
    && k < |j.ended| && j.ended[k] == id && j.record.log[k].Accepted? && Tells(j.plan, id, j.record.log[k])
    && forall i :: 0 <= i < |j.ended| && j.ended[i] == id ==> i == k
  }

  ghost predicate AcceptedOnce(j: Job, id: Id) { |j.ended| == |j.record.log| && exists k :: AcceptedAt(j, id, k) }

  predicate KeyRecorded(j: Job, id: Id)
    requires InPlan(j.plan, id)
  {
    TaskOf(j.plan, id).key.Some? ==> TaskOf(j.plan, id).key.value in j.record.cacheKeys
  }

  lemma AllEnded(j: Job, id: Id)
    requires OnPlan(j) && NothingLost(j) && Succeeded(j) && InPlan(j.plan, id)
    ensures id in j.ended
  {
    assert StageOnPlan(j.plan, id.stage, j.stages[id.stage], j.record.stopped);
    hide TileBatches.Inv;
    assert EndedIfBehind(j, id);
  }

  lemma CompleteParts(j: Job)
    requires Inv(j) && j.record.state == Complete
    ensures Succeeded(j) && Whole(j.record)
    ensures OnPlan(j) && Once(j) && NothingLost(j) && Told(j) && Linked(j)
  {
    hide OnPlan, Once, NothingLost, Told, Linked, Failing;
  }

  lemma AcceptedWhenTold(j: Job, id: Id)
    requires Once(j) && Told(j) && id in j.ended && j.record.failures == 0
    ensures AcceptedOnce(j, id) && InPlan(j.plan, id) && KeyRecorded(j, id)
  {
    NoFailureMeansAccepted(j.record);
    hide Exact;
    var k :| 0 <= k < |j.ended| && j.ended[k] == id;
    assert Tells(j.plan, j.ended[k], j.record.log[k]);
    assert AcceptedAt(j, id, k);
  }

  lemma CompleteState(j: Job)
    requires Inv(j) && j.record.state == Complete
    ensures j.record.done == j.record.total == TaskCount(j.plan)
    ensures j.record.failures == 0 && j.record.unavailable == 0
    ensures forall id :: InPlan(j.plan, id) ==> AcceptedOnce(j, id) && KeyRecorded(j, id)
    ensures forall key :: key in j.record.recorded ==> key in j.record.cacheKeys
  {
    hide Inv, Succeeded;
    CompleteParts(j);
    forall id | InPlan(j.plan, id)
      ensures id in j.ended && AcceptedOnce(j, id) && KeyRecorded(j, id)
    {
      AllEnded(j, id);
      AcceptedWhenTold(j, id);
    }
    EndedWithinPlan(j);
    NoFailureMeansAccepted(j.record);
  }

  // ------------------------------------------------------- pinned before it is recorded

  /** Step `i` pinned the key of this resource. */
  predicate PinnedAt(states: seq<Job>, steps: seq<Step>, i: nat, id: Id) {
    && i < |steps| && i + 1 < |states| && steps[i].PinKey?
    && Claiming(states[i], steps[i].w) && IdOf(states[i], steps[i].w) == id
    && var key := TaskAt(states[i], steps[i].w).key;
       key.Some? && key.value in states[i + 1].pins.pins
  }

  /** Step `i` put this resource into the record as accepted. */
  predicate RecordedAt(states: seq<Job>, steps: seq<Step>, i: nat, id: Id) {
    && i < |steps| && i < |states| && steps[i].Accept? && !states[i].record.deleted
    && Claiming(states[i], steps[i].w) && IdOf(states[i], steps[i].w) == id
  }

  ghost predicate PinnedBefore(states: seq<Job>, steps: seq<Step>, n: nat, id: Id) {
    exists i :: 0 <= i < n && PinnedAt(states, steps, i, id)
  }

  ghost predicate PinnedThenRecorded(states: seq<Job>, steps: seq<Step>, n: nat, id: Id) {
    exists m :: 0 <= m < n && RecordedAt(states, steps, m, id) && PinnedBefore(states, steps, m, id)
  }

  lemma HoldingStep(j: Job, step: Step, w: WorkerId)
    requires OnPlan(j) && Enabled(j, step)
    requires w in Apply(j, step).hands && Apply(j, step).hands[w].Holding?
    ensures w in j.hands && Claiming(j, w) && Claiming(Apply(j, step), w) && IdOf(Apply(j, step), w) == IdOf(j, w)
    ensures j.hands[w].Holding? || step == PinKey(w)
    ensures step == PinKey(w) ==> TaskAt(j, w).key.Some? && TaskAt(j, w).key.value in Apply(j, step).pins.pins
  {
    if OfHand(step) && w == step.w {
      HandStepIs(j, step);
      IdStays(j, step, w) by { hide ApplyHand, Enabled; }
      HeldNow(j, step);
      hide Apply, ApplyHand, Enabled, OnPlan, Claiming, IdOf, TaskOf;
    } else {
      hide OnPlan, Apply, Enabled, Claiming;
      HandsStay(j, step, w);
    }
  }

  lemma HeldNow(j: Job, step: Step)
    requires Enabled(j, step) && OfHand(step)
    requires step.w in Apply(j, step).hands && Apply(j, step).hands[step.w].Holding?
    ensures step == PinKey(step.w) && Claiming(j, step.w) && TaskAt(j, step.w).key.Some?
    ensures TaskAt(j, step.w).key.value in Apply(j, step).pins.pins
  {
  }

  lemma {:induction false} HeldWasPinned(states: seq<Job>, steps: seq<Step>, u: Setup, n: nat, w: WorkerId)
    requires Run(states, steps, u) && n <= |steps|
    requires w in states[n].hands && states[n].hands[w].Holding?
    ensures Claiming(states[n], w) && PinnedBefore(states, steps, n, IdOf(states[n], w))
  {
    hide Apply, Enabled, OnPlan, Once, NothingLost, Told, Linked, Lifecycle, Claiming, IdOf, TaskAt;
    if n > 0 {
      var j, step := states[n - 1], steps[n - 1];
      RunKeepsInv(states, steps, u, n - 1);
      HoldingStep(j, step, w);
      if step == PinKey(w) {
        assert PinnedAt(states, steps, n - 1, IdOf(j, w));
      } else {
        HeldWasPinned(states, steps, u, n - 1, w);
        var i :| 0 <= i < n - 1 && PinnedAt(states, steps, i, IdOf(j, w));
        assert PinnedAt(states, steps, i, IdOf(states[n], w));
      }
    }
  }

  predicate AcceptedWithKey(j: Job, k: nat) {
    k < |j.ended| == |j.record.log| && j.record.log[k].Accepted? && j.record.log[k].key.Some?
  }

  lemma ReportOf(j: Job, step: Step)
    requires Enabled(j, step) && (step.Accept? || step.RecordFailure?)
    ensures Reported(j, step).Accepted? <==> step.Accept?
    ensures step.Accept? && Reported(j, step).key.Some? ==> step.w in j.hands && j.hands[step.w].Holding?
  {
    hide PackPins.Enabled;
  }

  /** An accepted key that is new in the record comes from a worker that held its pin. */
  lemma AcceptedStep(j: Job, step: Step, k: nat)
    requires Told(j) && Enabled(j, step) && AcceptedWithKey(Apply(j, step), k)
    ensures (AcceptedWithKey(j, k) && Apply(j, step).ended[k] == j.ended[k])
            || (step.Accept? && !j.record.deleted && step.w in j.hands && j.hands[step.w].Holding?
                && Claiming(j, step.w) && IdOf(j, step.w) == Apply(j, step).ended[k])
  {
    hide Exact, Tells, Apply, Enabled, Claiming, IdOf, Reported, Grown, WithKey;
    StepTells(j, step);
    var t := Apply(j, step);
    if !SameTold(j, t) {
      ReportOf(j, step);
      LogGrows(j.record, Reported(j, step), step.saved);
    }
  }

  lemma LogGrows(r: Record, o: Outcome, saved: bool)
    requires !r.deleted
    ensures Settled(r, o, saved).log == r.log + [o]
  {
  }

  /** Whatever the record counts as accepted under a key was pinned first. */
  lemma {:induction false} AcceptedWasPinned(states: seq<Job>, steps: seq<Step>, u: Setup, n: nat, k: nat)
    requires Run(states, steps, u) && n <= |steps| && AcceptedWithKey(states[n], k)
    ensures PinnedThenRecorded(states, steps, n, states[n].ended[k])
  {
    hide Apply, Enabled, OnPlan, Once, NothingLost, Told, Linked, Lifecycle, Claiming, IdOf, TaskAt, PinnedBefore;
    if n > 0 {
      var j, step := states[n - 1], steps[n - 1];
      RunKeepsInv(states, steps, u, n - 1);
      AcceptedStep(j, step, k);
      if AcceptedWithKey(j, k) && states[n].ended[k] == j.ended[k] {
        AcceptedWasPinned(states, steps, u, n - 1, k);
        var id := j.ended[k];
        var m :| 0 <= m < n - 1 && RecordedAt(states, steps, m, id) && PinnedBefore(states, steps, m, id);
        assert RecordedAt(states, steps, m, states[n].ended[k]);
      } else {
        HeldWasPinned(states, steps, u, n - 1, step.w);
        assert RecordedAt(states, steps, n - 1, states[n].ended[k]);
      }
    }
  }

  // -------------------------------------------------------------- pinned to the very end

  /** The cache loses the entry, or stores metadata copied before the key was pinned. */
  predicate TakesPin(j: Job, step: Step, key: Key) {
    && step.Around?
    && (step.other == PackPins.LoseEntry(key)
        || (step.other.WriteBack? && step.other.r in j.pins.copies &&
            j.pins.copies[step.other.r] == PackPins.Copy(key, false)))
  }

  ghost predicate LeftAlone(states: seq<Job>, steps: seq<Step>, n: nat, key: Key) {
    forall i :: 0 <= i < n && i < |steps| && i < |states| ==> !TakesPin(states[i], steps[i], key)
  }

  predicate HeldBy(j: Job, w: WorkerId, key: Key) { w in j.pins.workers && j.pins.workers[w] == PackPins.Pinned(key) }

  predicate AcceptedAs(j: Job, k: nat, key: Key) {
    k < |j.record.log| && j.record.log[k].Accepted? && j.record.log[k].key == Some(key)
  }

  /** Accepted under this key, or about to be. */
  ghost predicate Counted(j: Job, key: Key) { (exists k :: AcceptedAs(j, k, key)) || exists w :: HeldBy(j, w, key) }

  /** A pin goes only in these steps. */
  lemma PinGoes(j: Job, step: Step, key: Key)
    requires Enabled(j, step) && key in j.pins.pins && key !in Apply(j, step).pins.pins
    ensures TakesPin(j, step, key) || step.TakeBack? || (step.Around? && step.other.Clean?)
  {
    hide TileBatches.Enabled, TileBatches.Apply, Settled, MarkedIncomplete, TaskOf, InPlan;
  }

  lemma CountedStep(j: Job, step: Step, key: Key)
    requires Linked(j) && Enabled(j, step) && Counted(Apply(j, step), key)
    ensures Counted(j, key) || key in Apply(j, step).pins.pins
  {
    var t := Apply(j, step);
    if k :| AcceptedAs(t, k, key) {
      AcceptedAsStep(j, step, k, key);
    } else {
      var w :| HeldBy(t, w, key);
      HeldByStep(j, step, w, key);
    }
  }

  lemma AcceptedAsStep(j: Job, step: Step, k: nat, key: Key)
    requires Linked(j) && Enabled(j, step) && AcceptedAs(Apply(j, step), k, key)
    ensures AcceptedAs(j, k, key) || (OfHand(step) && HeldBy(j, step.w, key))
  {
    hide Apply, Claiming, IdOf, Tells, Grown, WithKey, PackPins.Inv, PackPins.Apply, PackPins.Enabled;
    StepTells(j, step);
    if !SameTold(j, Apply(j, step)) {
      assert PinFits(j, step.w);
      ReportOf(j, step);
    }
  }

  lemma HeldByStep(j: Job, step: Step, w: WorkerId, key: Key)
    requires Enabled(j, step) && HeldBy(Apply(j, step), w, key)
    ensures HeldBy(j, w, key) || key in Apply(j, step).pins.pins
  {
    hide TileBatches.Enabled, TileBatches.Apply, Settled, MarkedIncomplete, TaskOf, InPlan;
  }

  lemma KeptStep(j: Job, step: Step, key: Key)
    requires Linked(j) && Enabled(j, step) && !TakesPin(j, step, key)
    requires !Apply(j, step).record.deleted && !Failing(Apply(j, step)) && Counted(Apply(j, step), key)
    requires Counted(j, key) ==> key in j.pins.pins
    ensures key in Apply(j, step).pins.pins
  {
    hide Counted, TakesPin, Claiming, PackPins.Inv, Failing;
    CountedStep(j, step, key);
    if step.TakeBack? {
      FailingWorker(Apply(j, step), step.w);
    }
    if key in j.pins.pins && key !in Apply(j, step).pins.pins {
      PinGoes(j, step, key);
    }
  }

  lemma NothingCounted(u: Setup, key: Key)
    ensures !Counted(Initial(u), key)
  {
  }

  lemma LeftAloneBefore(states: seq<Job>, steps: seq<Step>, n: nat, key: Key)
    requires 0 < n <= |steps| < |states| && LeftAlone(states, steps, n, key)
    ensures LeftAlone(states, steps, n - 1, key) && !TakesPin(states[n - 1], steps[n - 1], key)
  {
  }

  /** Until a failure is under way or the download is deleted, everything accepted stays
      pinned, as long as the cache itself takes no pin away. */
  lemma {:induction false} KeptPinned(states: seq<Job>, steps: seq<Step>, u: Setup, n: nat, key: Key)
    requires Run(states, steps, u) && n <= |steps| && LeftAlone(states, steps, n, key)
    requires !states[n].record.deleted && !Failing(states[n]) && Counted(states[n], key)
    ensures key in states[n].pins.pins
  {
    hide Enabled, Apply, OnPlan, Once, NothingLost, Told, Linked, Lifecycle, Counted, TakesPin, Failing, LeftAlone;
    if n == 0 {
      NothingCounted(u, key);
    } else {
      var j, step := states[n - 1], steps[n - 1];
      RunKeepsInv(states, steps, u, n - 1);
      LeftAloneBefore(states, steps, n, key);
      StepTells(j, step);
      if Failing(j) {
        FailingStays(j, step);
      }
      if Counted(j, key) {
        KeptPinned(states, steps, u, n - 1, key);
      }
      KeptStep(j, step, key);
    }
  }

  // -------------------------------------------------------------------------- theorems

  /** A key of the plan, pinned and recorded in that order and still pinned. */
  ghost predicate Protected(states: seq<Job>, steps: seq<Step>, n: nat, id: Id)
    requires n < |states| && InPlan(states[n].plan, id) && TaskOf(states[n].plan, id).key.Some?
  {
    var key := TaskOf(states[n].plan, id).key.value;
    && key in states[n].record.cacheKeys && PinnedThenRecorded(states, steps, n, id)
    && (!states[n].record.deleted && LeftAlone(states, steps, n, key) ==> key in states[n].pins.pins)
  }

  lemma AcceptedIsProtected(states: seq<Job>, steps: seq<Step>, u: Setup, n: nat, id: Id)
    requires Run(states, steps, u) && n <= |steps| && states[n].record.state == Complete
    requires InPlan(states[n].plan, id) && TaskOf(states[n].plan, id).key.Some?
    requires AcceptedOnce(states[n], id) && KeyRecorded(states[n], id)
    ensures Protected(states, steps, n, id)
  {
    hide Apply, Enabled, OnPlan, Once, NothingLost, Told, Linked, Lifecycle;
    var j, key := states[n], TaskOf(states[n].plan, id).key.value;
    var k :| AcceptedAt(j, id, k);
    AcceptedWasPinned(states, steps, u, n, k);
    RunKeepsInv(states, steps, u, n);
    CompleteParts(j);
    SuccessIsNotFailing(j);
    assert AcceptedAs(j, k, key);
    hide Failing;
    if !j.record.deleted && LeftAlone(states, steps, n, key) {
      KeptPinned(states, steps, u, n, key);
    }
  }

  /** A download that calls itself complete went through exactly as many resources as the
      estimate named: each ended once, accepted; each key was pinned, then recorded, and is
      still pinned unless the cache lost it or the download was deleted since. */
  lemma CompleteMeansEachOnce(states: seq<Job>, steps: seq<Step>, u: Setup, n: nat)
    requires Run(states, steps, u) && n <= |steps| && states[n].record.state == Complete
    ensures TaskCount(u.plan) == u.total == states[n].record.done && u.unavailable == 0
    ensures forall id :: InPlan(u.plan, id) ==> AcceptedOnce(states[n], id)
    ensures states[n].plan == u.plan
    ensures forall id :: InPlan(u.plan, id) && TaskOf(u.plan, id).key.Some? ==> Protected(states, steps, n, id)
    ensures forall key :: key in u.recorded ==> key in states[n].record.cacheKeys
  {
    hide Inv, AcceptedOnce, KeyRecorded, Protected, Apply, Enabled;
    RunKeepsInv(states, steps, u, n);
    CompleteState(states[n]);
    forall id | InPlan(u.plan, id) && TaskOf(u.plan, id).key.Some?
      ensures Protected(states, steps, n, id)
    {
      AcceptedIsProtected(states, steps, u, n, id);
    }
  }

  /** Nothing but the stages' success leads to the last update: it finds the download
      running (or deleted), every planned resource ended and no worker at work. */
  lemma LastUpdateFindsAllEnded(states: seq<Job>, steps: seq<Step>, u: Setup, n: nat, saved: bool)
    requires Run(states, steps, u) && n <= |steps| && Enabled(states[n], Finish(saved))
    ensures states[n].record.state == Running && states[n].hands == map[]
    ensures forall id :: InPlan(u.plan, id) ==> id in states[n].ended
    ensures |states[n].ended| == |states[n].record.log| == states[n].record.done == TaskCount(u.plan)
  {
    hide Once, NothingLost, Linked, OnPlan, Exact, Failing;
    RunKeepsInv(states, steps, u, n);
    var j := states[n];
    forall id | InPlan(u.plan, id)
      ensures id in j.ended
    {
      AllEnded(j, id);
    }
    EndedWithinPlan(j);
    ExactDone(j.record);
  }

  lemma ExactDone(r: Record)
    requires Exact(r)
    ensures r.done == |r.log|
  {
  }

  lemma IncompleteStep(j: Job, step: Step)
    requires Inv(j) && Enabled(j, step) && j.record.state == Incomplete
    ensures Apply(j, step).record.state == Incomplete
  {
    hide OnPlan, Once, NothingLost, Told, Linked, Failing, PackPins.Enabled, PackPins.Apply;
    hide TileBatches.Enabled, TileBatches.Apply, TaskOf, InPlan;
  }

  /** An incomplete download never turns complete, whatever its other workers still do. */
  lemma {:induction false} IncompleteStays(states: seq<Job>, steps: seq<Step>, u: Setup, m: nat, n: nat)
    requires Run(states, steps, u) && m <= n <= |steps| && states[m].record.state == Incomplete
    ensures states[n].record.state == Incomplete
  {
    hide Inv, Enabled, Apply;
    if m < n {
      IncompleteStays(states, steps, u, m, n - 1);
      RunKeepsInv(states, steps, u, n - 1);
      IncompleteStep(states[n - 1], steps[n - 1]);
    }
  }

  predicate StoppedEarly(j: Job) {
    j.record.stopped && (j.phase == Starting || j.phase == Working || (j.phase == Over && j.record.state != Complete))
  }

  lemma StoppedStep(j: Job, step: Step)
    requires Inv(j) && Enabled(j, step) && StoppedEarly(j)
    ensures StoppedEarly(Apply(j, step))
  {
    hide OnPlan, Once, NothingLost, Told, Linked, Failing, PackPins.Enabled, PackPins.Apply;
    hide TileBatches.Enabled, TileBatches.Apply, TaskOf, InPlan;
  }

  lemma StoppedIsNotComplete(j: Job)
    requires Inv(j) && StoppedEarly(j)
    ensures j.record.state != Complete
  {
    hide OnPlan, Once, NothingLost, Told, Linked, Failing;
  }

  /** A job stopped before its stages have all returned never completes. */
  lemma {:induction false} StoppedNeverCompletes(states: seq<Job>, steps: seq<Step>, u: Setup, m: nat, n: nat)
    requires Run(states, steps, u) && m <= n <= |steps|
    requires states[m].record.stopped && (states[m].phase == Starting || states[m].phase == Working)
    ensures StoppedEarly(states[n]) && states[n].record.state != Complete
  {
    hide Inv, Enabled, Apply;
    if m < n {
      StoppedNeverCompletes(states, steps, u, m, n - 1);
      RunKeepsInv(states, steps, u, n - 1);
      StoppedStep(states[n - 1], steps[n - 1]);
    }
    RunKeepsInv(states, steps, u, n);
    StoppedIsNotComplete(states[n]);
  }

  /** A job that is over has said how it ended, unless it was deleted. */
  lemma OverIsDecided(states: seq<Job>, steps: seq<Step>, u: Setup, n: nat)
    requires Run(states, steps, u) && n <= |steps| && states[n].phase == Over && !states[n].record.deleted
    ensures states[n].record.state == Complete || states[n].record.state == Incomplete
  {
    RunKeepsInv(states, steps, u, n);
    hide OnPlan, Once, NothingLost, Told, Linked;
  }

  /** What is shown adds up at every moment, and never exceeds what was planned. */
  lemma ProgressAddsUp(states: seq<Job>, steps: seq<Step>, u: Setup, n: nat)
    requires Run(states, steps, u) && n <= |steps|
    ensures var r := states[n].record;
            && r.done == OverAll(r.resources, DoneField) && r.failures == OverAll(r.resources, FailedField)
            && r.bytes == OverAll(r.resources, BytesField)
            && 0 <= r.failures <= r.done <= TaskCount(u.plan)
  {
    RunKeepsInv(states, steps, u, n);
    hide OnPlan, Once, NothingLost, Linked, Lifecycle;
    EndedWithinPlan(states[n]);
    CountersAreSums(states[n].record);
    FailuresCount(states[n].record.log);
  }

  // ------------------------------------------------------------------- stops and limits

  /** An update that was refused, and a failure that used up a limit, send their worker to
      report failure; every other settled resource lets it go on. */
  lemma RefusedUpdateFails(j: Job, step: Step)
    requires Enabled(j, step) && (step.Accept? || step.RecordFailure?)
    ensures FailingWith(Apply(j, step), step.w) <==>
              j.record.deleted || !step.saved || (step.RecordFailure? && step.limit)
    ensures !FailingWith(Apply(j, step), step.w) ==> Apply(j, step).hands[step.w] == Returning(true)
  {
    hide Grown, WithKey, PackPins.Apply, PackPins.Enabled, Settled, TaskOf, InPlan;
  }

  predicate AtHand(j: Job, w: WorkerId, hand: Hand) { w in j.hands && j.hands[w] == hand }

  /** A worker that looks after a stop goes no further, and an error seen after a stop is
      none of the resource's. */
  lemma StoppedStepStarts(j: Job, step: Step, w: WorkerId)
    requires Enabled(j, step) && j.record.stopped
    ensures Apply(j, step).record.stopped
    ensures AtHand(Apply(j, step), w, Fetching) ==> AtHand(j, w, Fetching)
    ensures AtHand(Apply(j, step), w, Broken) ==> AtHand(j, w, Broken)
  {
    if OfHand(step) {
      HandStepIs(j, step);
      StoppedHand(j, step);
      hide Apply, ApplyHand, Enabled;
    } else {
      OtherHandsStart(j, step, w);
    }
  }

  lemma StoppedHand(j: Job, step: Step)
    requires Enabled(j, step) && OfHand(step) && j.record.stopped
    ensures step.w in ApplyHand(j, step).hands
    ensures !ApplyHand(j, step).hands[step.w].Fetching? && !ApplyHand(j, step).hands[step.w].Broken?
  {
    hide Grown, WithKey, PackPins.Apply, PackPins.Enabled, Settled, MarkedIncomplete, TaskOf, InPlan;
  }

  lemma OtherHandsStart(j: Job, step: Step, w: WorkerId)
    requires Enabled(j, step) && !OfHand(step)
    ensures j.record.stopped ==> Apply(j, step).record.stopped
    ensures w in Apply(j, step).hands ==>
              (w in j.hands && Apply(j, step).hands[w] == j.hands[w]) || Apply(j, step).hands[w].Checking?
  {
    hide PackPins.Apply, PackPins.Enabled, TileBatches.Apply, TileBatches.Enabled, TaskOf, InPlan;
  }

  /** A stop is not a failure: after it no worker begins another resource, and only errors
      already seen before it are still counted. */
  lemma {:induction false} StopIsNoFailure(
    states: seq<Job>, steps: seq<Step>, u: Setup, m: nat, n: nat, w: WorkerId)
    requires Run(states, steps, u) && m <= n <= |steps| && states[m].record.stopped
    ensures states[n].record.stopped
    ensures AtHand(states[n], w, Fetching) ==> AtHand(states[m], w, Fetching)
    ensures AtHand(states[n], w, Broken) ==> AtHand(states[m], w, Broken)
    decreases n
  {
    hide Enabled, Apply;
    if m < n {
      StopIsNoFailure(states, steps, u, m, n - 1, w);
      StoppedStepStarts(states[n - 1], steps[n - 1], w);
    }
  }
}
