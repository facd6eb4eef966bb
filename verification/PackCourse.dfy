/**
  The course of a download's job: its state, its pins and what is certain when it is over,
  in every run.
 */
module PackCourse {
  import opened Options
  import opened PackStates
  import opened PackProgress
  import opened PackJob
  import opened PackAccount
  import TileBatches
  import PackPins

  // ------------------------------------------------------------------ pins and workers

  /** A worker stands in the pack's pins exactly between pinning and recording or unpinning. */
  ghost predicate PinFits(j: Job, w: WorkerId) {
    && (w in j.pins.workers <==> w in j.hands && (j.hands[w].Holding? || j.hands[w].TakingBack?))
    && (w in j.pins.workers ==>
          && Claiming(j, w) && TaskAt(j, w).key.Some?
          && var key := TaskAt(j, w).key.value;
             j.pins.workers[w] == if j.hands[w].Holding? then PackPins.Pinned(key) else PackPins.Rejected(key))
  }

  ghost predicate Linked(j: Job) {
    && PackPins.Inv(j.pins)
    && j.pins.deleted == j.record.deleted && j.pins.cacheKeys == j.record.cacheKeys
    && (forall w :: PinFits(j, w))
  }

  lemma AroundStays(pins: PackPins.State, other: PackPins.Step)
    requires PackPins.Enabled(pins, other) && !other.Pin? && !other.Record? && !other.TakeBack? && !other.Delete?
    ensures var after := PackPins.Apply(pins, other);
            after.workers == pins.workers && after.cacheKeys == pins.cacheKeys && after.deleted == pins.deleted
  {
  }

  lemma HandStepPins(j: Job, step: Step)
    requires Linked(j) && Enabled(j, step) && OfHand(step)
    ensures var t := ApplyHand(j, step);
            && PackPins.Inv(t.pins)
            && t.pins.deleted == t.record.deleted && t.pins.cacheKeys == t.record.cacheKeys
            && forall w :: w != step.w ==>
                 (w in t.pins.workers <==> w in j.pins.workers) &&
                 (w in j.pins.workers ==> t.pins.workers[w] == j.pins.workers[w])
  {
    hide PackPins.Inv, TileBatches.Enabled, Grown, InPlan, TaskOf;
    assert PinFits(j, step.w);
    match step
    case PinKey(w) => PackPins.StepKeepsInv(j.pins, PackPins.Pin(w, TaskAt(j, w).key.value));
    case Accept(w, _, _, saved) =>
      if TaskAt(j, w).key.Some? {
        PackPins.StepKeepsInv(j.pins, PackPins.Record(w, saved));
      }
    case TakeBack(w, released) => PackPins.StepKeepsInv(j.pins, PackPins.TakeBack(w, released));
    case _ =>
  }

  /** What a step does to the pins. */
  lemma StepPins(j: Job, step: Step)
    requires Linked(j) && Enabled(j, step)
    ensures var t := Apply(j, step);
            && PackPins.Inv(t.pins)
            && t.pins.deleted == t.record.deleted && t.pins.cacheKeys == t.record.cacheKeys
    ensures var t := Apply(j, step);
            if !OfHand(step) then t.pins.workers == j.pins.workers
            else forall w :: w != step.w ==>
              (w in t.pins.workers <==> w in j.pins.workers) &&
              (w in j.pins.workers ==> t.pins.workers[w] == j.pins.workers[w])
  {
    hide PackPins.Inv, ApplyHand, TileBatches.Enabled, TileBatches.Apply, Grown, PinFits, InPlan, TaskOf;
    if OfHand(step) {
      HandStepPins(j, step);
    } else if step.Delete? {
      PackPins.StepKeepsInv(j.pins, PackPins.Delete);
    } else if step.Around? {
      PackPins.StepKeepsInv(j.pins, step.other);
      AroundStays(j.pins, step.other);
    }
  }

  lemma HandStepFitsPin(j: Job, step: Step)
    requires Enabled(j, step) && OfHand(step) && PinFits(j, step.w) && j.pins.deleted == j.record.deleted
    ensures PinFits(Apply(j, step), step.w)
  {
    HandStepIs(j, step);
    hide Grown, Settled, MarkedIncomplete;
  }

  lemma SamePinFits(j: Job, t: Job, w: WorkerId)
    requires PinFits(j, w) && t.plan == j.plan
    requires w in t.pins.workers <==> w in j.pins.workers
    requires w in j.pins.workers ==> t.pins.workers[w] == j.pins.workers[w]
    requires w in j.hands && w in t.hands ==>
               t.hands[w] == j.hands[w] && Claiming(j, w) && Claiming(t, w) && IdOf(t, w) == IdOf(j, w)
    requires w in t.hands && w !in j.hands ==> t.hands[w].Checking?
    requires w in j.hands && w !in t.hands ==> j.hands[w].Returning?
    ensures PinFits(t, w)
  {
    hide Claiming, InPlan;
  }

  /** Who comes, stays and goes in a step, other than the worker that steps. */
  lemma HandsStay(j: Job, step: Step, w: WorkerId)
    requires OnPlan(j) && Enabled(j, step) && (OfHand(step) ==> w != step.w)
    ensures var t := Apply(j, step);
            && t.plan == j.plan
            && (w in j.hands && w in t.hands ==>
                  t.hands[w] == j.hands[w] && Claiming(j, w) && Claiming(t, w) && IdOf(t, w) == IdOf(j, w))
            && (w in t.hands && w !in j.hands ==> t.hands[w].Checking?)
            && (w in j.hands && w !in t.hands ==> j.hands[w].Returning?)
  {
    hide Apply, ApplyHand, ApplyBatch, Enabled, OnPlan, Claiming, TileBatches.Apply, TileBatches.Enabled;
    if w in j.hands && w in Apply(j, step).hands {
      IdStays(j, step, w);
    }
    if OfHand(step) {
      HandStepIs(j, step);
    } else if OfBatch(step) {
      BatchStepIs(j, step);
    } else {
      OtherStepIs(j, step);
    }
  }

  lemma StepKeepsLinked(j: Job, step: Step)
    requires OnPlan(j) && Linked(j) && Enabled(j, step)
    ensures Linked(Apply(j, step))
  {
    hide Apply, Enabled, OnPlan, PackPins.Inv, PinFits;
    StepPins(j, step);
    forall w
      ensures PinFits(Apply(j, step), w)
    {
      assert PinFits(j, w);
      if OfHand(step) && w == step.w {
        HandStepFitsPin(j, step);
      } else {
        HandsStay(j, step, w);
        SamePinFits(j, Apply(j, step), w);
      }
    }
  }

  // ------------------------------------------------------------- the state of the download

  predicate HandFailing(hand: Hand) { hand.Marking? || hand.TakingBack? || hand == Returning(false) }

  predicate StageFailing(st: StageState) {
    st.batch.failed || st.batch.result == Some(false) || st.result == Some(false)
  }

  predicate FailingAt(j: Job, s: nat) { s < |j.stages| && StageFailing(j.stages[s]) }

  predicate FailingWith(j: Job, w: WorkerId) { w in j.hands && HandFailing(j.hands[w]) }

  /** Some worker or stage is on its way to report failure. */
  ghost predicate Failing(j: Job) { (exists s :: FailingAt(j, s)) || exists w :: FailingWith(j, w) }

  ghost predicate Lifecycle(j: Job) {
    && (j.phase != Working ==> forall w :: w !in j.hands)
    && match j.phase
       case Starting => j.record.state == Queued
       case Working => j.record.state == Running || (j.record.state == Incomplete && Failing(j))
       case Finishing => j.record.state == Running && Succeeded(j)
       case Over =>
         && (j.record.state == Complete ==> Succeeded(j) && Whole(j.record))
         && (j.record.state == Complete || j.record.state == Incomplete || j.record.deleted)
  }

  lemma BatchFailingStays(j: Job, step: Step, s: nat)
    requires OnPlan(j) && Enabled(j, step) && OfBatch(step) && FailingAt(j, s)
    ensures FailingAt(Apply(j, step), s)
  {
    hide Apply, ApplyBatch, Enabled, OnPlan, TileBatches.Inv;
    BatchStepIs(j, step);
  }

  lemma FailingStageIsStuck(j: Job, s: nat)
    requires OnPlan(j) && FailingAt(j, s)
    ensures j.stages[s].batch.result != Some(true)
  {
    assert StageOnPlan(j.plan, s, j.stages[s], j.record.stopped);
  }

  lemma OtherFailingStays(j: Job, step: Step, s: nat)
    requires OnPlan(j) && Enabled(j, step) && !OfBatch(step) && FailingAt(j, s)
    ensures FailingAt(Apply(j, step), s)
  {
    FailingStageIsStuck(j, s);
    if OfHand(step) {
      HandStepIs(j, step);
    }
    hide OnPlan, ApplyHand, ApplyBatch;
  }

  lemma ReturnedFailure(j: Job, w: WorkerId)
    requires OnPlan(j) && Enabled(j, Return(w)) && j.hands[w] == Returning(false)
    ensures FailingAt(Apply(j, Return(w)), w.stage)
  {
    hide OnPlan;
    BatchStepIs(j, Return(w));
    assert BatchStep(j, Return(w)) == TileBatches.Fetch(w.worker, false);
  }

  lemma HandFailingStays(j: Job, step: Step, w: WorkerId)
    requires OnPlan(j) && Enabled(j, step) && FailingWith(j, w)
    ensures FailingWith(Apply(j, step), w) || FailingAt(Apply(j, step), w.stage)
  {
    hide OnPlan, TaskAt, InPlan, PackPins.Apply, PackPins.Enabled, Settled, MarkedIncomplete;
    if OfHand(step) {
      HandStepIs(j, step);
    } else if step == Return(w) {
      ReturnedFailure(j, w);
    } else if OfBatch(step) {
      BatchStepIs(j, step);
      IdStays(j, step, w);
    } else {
      OtherStepIs(j, step);
    }
  }

  /** Whoever is to report a failure does so: nothing else ends it. */
  lemma FailingStays(j: Job, step: Step)
    requires OnPlan(j) && Enabled(j, step) && Failing(j)
    ensures Failing(Apply(j, step))
  {
    hide OnPlan, Enabled, Apply, FailingAt, FailingWith;
    if s :| FailingAt(j, s) {
      if OfBatch(step) {
        BatchFailingStays(j, step, s);
      } else {
        OtherFailingStays(j, step, s);
      }
    } else {
      var w :| FailingWith(j, w);
      HandFailingStays(j, step, w);
    }
  }

  lemma SuccessIsNotFailing(j: Job)
    requires OnPlan(j) && Succeeded(j)
    ensures !Failing(j) && forall w :: w !in j.hands
  {
    StartedIsInv(Loop([]));
    forall s | 0 <= s < |j.stages|
      ensures !StageFailing(j.stages[s])
    {
      assert StageOnPlan(j.plan, s, j.stages[s], j.record.stopped);
    }
    JoinedHasNoHands(j);
  }

  lemma JoinedHasNoHands(j: Job)
    requires OnPlan(j) && forall s :: 0 <= s < |j.stages| ==> j.stages[s].result.Some?
    ensures forall w :: w !in j.hands
  {
    forall w | w in j.hands
      ensures false
    {
      BusyIsClaiming(j, w) by { assert Claimed(j, w); }
    }
  }

  /** A worker's update either leaves the state or makes the download incomplete while the
      worker goes on to report failure. */
  lemma HandStepState(j: Job, step: Step)
    requires Enabled(j, step) && OfHand(step)
    ensures var t := Apply(j, step);
            t.record.state == j.record.state || (t.record.state == Incomplete && FailingWith(t, step.w))
  {
    hide TaskAt, InPlan, Claiming, PackPins.Apply, PackPins.Enabled, Grown, WithKey;
  }

  lemma JoinKeepsLifecycle(j: Job, saved: bool)
    requires OnPlan(j) && Lifecycle(j) && Enabled(j, Join(saved))
    ensures Lifecycle(Apply(j, Join(saved)))
  {
    JoinedHasNoHands(j);
    if Succeeded(j) {
      SuccessIsNotFailing(j);
    } else {
      var s :| 0 <= s < |j.stages| && j.stages[s].result != Some(true);
      SomeBool(j.stages[s].result);
      assert StageOnPlan(j.plan, s, j.stages[s], j.record.stopped);
    }
    hide OnPlan;
  }

  lemma MarkedStageIsFailing(j: Job, step: Step)
    requires step.MarkStage? && Enabled(j, step)
    ensures Failing(Apply(j, step))
  {
    assert FailingAt(Apply(j, step), step.s);
  }

  lemma FailingWorker(j: Job, w: WorkerId)
    ensures FailingWith(j, w) ==> Failing(j)
  {
  }

  lemma WorkingStepKeepsLifecycle(j: Job, step: Step)
    requires OnPlan(j) && Lifecycle(j) && Enabled(j, step) && j.phase == Working
    requires OfBatch(step) || OfHand(step) || step.NextSegment? || step.EndStage? || step.MarkStage?
    ensures Lifecycle(Apply(j, step))
  {
    hide OnPlan, Enabled, ApplyHand, ApplyBatch, Failing;
    if Failing(j) {
      FailingStays(j, step);
    }
    if OfHand(step) {
      HandStepIs(j, step);
      HandStepState(j, step);
      FailingWorker(Apply(j, step), step.w);
    } else if OfBatch(step) {
      BatchStepIs(j, step);
    } else if step.MarkStage? {
      MarkedStageIsFailing(j, step);
    }
  }

  lemma OtherStepKeepsLifecycle(j: Job, step: Step)
    requires OnPlan(j) && Lifecycle(j) && Enabled(j, step)
    requires step.Begin? || step.Finish? || step.Stop? || step.Delete? || step.Around?
    ensures Lifecycle(Apply(j, step))
  {
    hide OnPlan, Failing;
    if Failing(j) {
      FailingStays(j, step);
    }
  }

  /** Whose step it is, the job is at work. */
  lemma WorkersStepWhileWorking(j: Job, step: Step)
    requires Lifecycle(j) && Enabled(j, step)
    requires OfBatch(step) || OfHand(step) || step.NextSegment? || step.EndStage? || step.MarkStage?
    ensures j.phase == Working
  {
    hide Failing;
    if OfHand(step) {
      assert step.w in j.hands;
    }
  }

  lemma StepKeepsLifecycle(j: Job, step: Step)
    requires OnPlan(j) && Lifecycle(j) && Enabled(j, step)
    ensures Lifecycle(Apply(j, step))
  {
    hide OnPlan, Lifecycle, Enabled, Apply;
    if step.Join? {
      JoinKeepsLifecycle(j, step.saved);
    } else if step.Begin? || step.Finish? || step.Stop? || step.Delete? || step.Around? {
      OtherStepKeepsLifecycle(j, step);
    } else {
      WorkersStepWhileWorking(j, step);
      WorkingStepKeepsLifecycle(j, step);
    }
  }

  // ------------------------------------------------------------------------ invariant

  ghost predicate Inv(j: Job) {
    OnPlan(j) && Once(j) && NothingLost(j) && Told(j) && Linked(j) && Lifecycle(j)
  }

  /** Every step of stages, workers, requests and cache keeps all of it. */
  lemma StepKeepsInv(j: Job, step: Step)
    requires Inv(j) && Enabled(j, step)
    ensures Inv(Apply(j, step))
  {
    hide OnPlan, Once, NothingLost, Told, Linked, Lifecycle, Enabled, Apply;
    StepKeepsOnPlan(j, step);
    StepKeepsOnce(j, step);
    StepLosesNothing(j, step);
    StepKeepsTold(j, step);
    StepKeepsLinked(j, step);
    StepKeepsLifecycle(j, step);
  }

  // ----------------------------------------------------------------------- whole runs

  /** What a job starts with: its plan, the estimate's totals, and what an earlier attempt
      had recorded and pinned. */
  datatype Setup = Setup(
    plan: Plan, total: int, unavailable: nat, totals: map<Category, Progress>, recorded: seq<Key>, pinned: set<Key>)

  predicate ValidSetup(u: Setup) {
    OnlyTotals(u.totals) && Distinct(u.recorded) && forall key :: key in u.pinned ==> key in u.recorded
  }

  function Initial(u: Setup): Job {
    Job(u.plan, seq(|u.plan|, s requires 0 <= s < |u.plan| => At(u.plan, s, 0)), map[],
        New(u.total, u.unavailable, u.totals, u.recorded), PackPins.Initial(u.recorded, u.pinned), [], Starting)
  }

  ghost predicate Run(states: seq<Job>, steps: seq<Step>, u: Setup) {
    && |states| == |steps| + 1 && ValidSetup(u)
    && states[0] == Initial(u)
    && forall i :: 0 <= i < |steps| ==> Enabled(states[i], steps[i]) && states[i + 1] == Apply(states[i], steps[i])
  }

  lemma InitialIsInv(u: Setup)
    requires ValidSetup(u)
    ensures Inv(Initial(u))
  {
    var j := Initial(u);
    forall s | 0 <= s < |u.plan|
      ensures StageOnPlan(u.plan, s, j.stages[s], false) && GoodEnded(j, s)
      ensures forall w: WorkerId :: w.stage == s ==> !Claimed(j, w)
    {
      StageStartOnPlan(u.plan, s, 0, false);
      StartedIsInv(SegmentAt(u.plan, s, 0));
      hide TileBatches.Inv, Started;
    }
    NewIsExact(u.total, u.unavailable, u.totals, u.recorded);
    PackPins.InitialIsInv(u.recorded, u.pinned);
    hide StageOnPlan, GoodEnded, Exact, PackPins.Inv, Started;
  }

  lemma {:induction false} RunKeepsInv(states: seq<Job>, steps: seq<Step>, u: Setup, n: nat)
    requires Run(states, steps, u) && n <= |steps|
    ensures Inv(states[n])
    ensures states[n].plan == u.plan && states[n].record.recorded == u.recorded
    ensures states[n].record.total == u.total && states[n].record.unavailable == u.unavailable
  {
    hide Inv, Apply, Enabled;
    if n == 0 {
      InitialIsInv(u);
    } else {
      RunKeepsInv(states, steps, u, n - 1);
      StepKeepsInv(states[n - 1], steps[n - 1]);
      StepTells(states[n - 1], steps[n - 1]);
    }
  }
}
