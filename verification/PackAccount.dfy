/**
  What a job's stages have gone through, what its record tells about it and which pins it
  holds: the invariants of every step.
 */
module PackAccount {
  import opened Options
  import opened PackProgress
  import opened PackJob
  import TileBatches
  import PackPins

  // -------------------------------------------------------- every resource at most once

  /** The stage has come to this resource. */
  predicate Passed(j: Job, id: Id) {
    && InPlan(j.plan, id) && id.stage < |j.stages|
    && var st := j.stages[id.stage];
       id.segment < st.at || (id.segment == st.at && id.index < TileBatches.Reached(st.batch))
  }

  predicate DistinctIds(ids: seq<Id>) { forall i, k :: 0 <= i < k < |ids| ==> ids[i] != ids[k] }

  /** Its worker may still record how the resource ended. */
  predicate Unsettled(hand: Hand) { hand.Checking? || hand.Fetching? || hand.Broken? || hand.Holding? }

  predicate NotEnded(j: Job, w: WorkerId) {
    w in j.hands && Unsettled(j.hands[w]) ==> Claiming(j, w) && IdOf(j, w) !in j.ended
  }

  ghost predicate Once(j: Job) {
    && (forall k :: 0 <= k < |j.ended| ==> Passed(j, j.ended[k]))
    && DistinctIds(j.ended)
    && (forall w :: NotEnded(j, w))
  }

  lemma BatchPassedStays(j: Job, step: Step, id: Id)
    requires OnPlan(j) && Enabled(j, step) && OfBatch(step) && Passed(j, id)
    ensures Passed(ApplyBatch(j, step), id)
  {
    hide TileBatches.Inv, TileBatches.Apply, TileBatches.Enabled, ApplyBatch, Enabled, OnPlan, InPlan;
    BatchStepIs(j, step);
    TileBatches.ReachedGrows(Noticed(j, StageOf(step)), BatchStep(j, step));
    assert TileBatches.Reached(Noticed(j, StageOf(step))) == TileBatches.Reached(j.stages[StageOf(step)].batch);
    hide TileBatches.Reached;
  }

  lemma OtherPassedStays(j: Job, step: Step, id: Id)
    requires Enabled(j, step) && !OfBatch(step) && !OfHand(step) && Passed(j, id)
    ensures Passed(Apply(j, step), id)
  {
    OtherStepIs(j, step);
    assert step.NextSegment? ==> Apply(j, step).stages[step.s].at == j.stages[step.s].at + 1;
    hide Apply, Enabled, InPlan;
    assert SameBatch(j, Apply(j, step), id.stage) || step == NextSegment(id.stage);
  }

  lemma PassedStays(j: Job, step: Step, id: Id)
    requires OnPlan(j) && Enabled(j, step) && Passed(j, id)
    ensures Passed(Apply(j, step), id)
  {
    if OfBatch(step) {
      BatchPassedStays(j, step, id);
      hide ApplyBatch, OnPlan, Passed;
    } else if OfHand(step) {
      HandStepIs(j, step);
      hide ApplyHand, OnPlan, InPlan;
    } else {
      OtherPassedStays(j, step, id);
    }
  }

  lemma SameId(j: Job, t: Job, w: WorkerId)
    requires Claiming(j, w) && t.plan == j.plan && |t.stages| == |j.stages|
    requires t.stages[w.stage].at == j.stages[w.stage].at
    requires var crew := t.stages[w.stage].batch.crew;
             w.worker < |crew| && crew[w.worker] == j.stages[w.stage].batch.crew[w.worker]
    ensures Claiming(t, w) && IdOf(t, w) == IdOf(j, w)
  {
  }

  lemma BatchIdStays(j: Job, step: Step, w: WorkerId)
    requires OnPlan(j) && Enabled(j, step) && OfBatch(step) && Claiming(j, w) && step != Return(w)
    ensures Claiming(ApplyBatch(j, step), w) && IdOf(ApplyBatch(j, step), w) == IdOf(j, w)
  {
    BatchStepIs(j, step);
    var t, s, b := ApplyBatch(j, step), StageOf(step), BatchStep(j, step);
    if w.stage == s {
      TileBatches.ClaimStays(Noticed(j, s), b, w.worker);
    }
    hide *;
    SameId(j, t, w);
  }

  lemma BatchHandStays(j: Job, step: Step, w: WorkerId)
    requires Enabled(j, step) && OfBatch(step) && Claiming(j, w) && w in j.hands && w in Apply(j, step).hands
    ensures Apply(j, step) == ApplyBatch(j, step) && step != Return(w)
    ensures ApplyBatch(j, step).hands[w] == j.hands[w]
  {
    hide TaskAt;
  }

  lemma HandIdStays(j: Job, step: Step, w: WorkerId)
    requires Enabled(j, step) && OfHand(step) && Claiming(j, w)
    ensures Claiming(Apply(j, step), w) && IdOf(Apply(j, step), w) == IdOf(j, w)
  {
    HandStepIs(j, step);
    hide Enabled, InPlan, ApplyHand;
    SameId(j, Apply(j, step), w);
  }

  lemma OtherIdStays(j: Job, step: Step, w: WorkerId)
    requires OnPlan(j) && Enabled(j, step) && !OfBatch(step) && !OfHand(step) && w in j.hands && Claiming(j, w)
    ensures Claiming(Apply(j, step), w) && IdOf(Apply(j, step), w) == IdOf(j, w)
  {
    OtherStepIs(j, step);
    if step.NextSegment? {
      NoHandsAfterSuccess(j, step.s);
    }
    var t := Apply(j, step);
    hide OnPlan, Apply, Enabled, InPlan;
    assert SameBatch(j, t, w.stage);
  }

  /** A worker keeps its resource until it returns. */
  lemma IdStays(j: Job, step: Step, w: WorkerId)
    requires OnPlan(j) && Enabled(j, step) && w in j.hands && w in Apply(j, step).hands
    ensures Claiming(j, w) && Claiming(Apply(j, step), w) && IdOf(Apply(j, step), w) == IdOf(j, w)
    ensures OfBatch(step) ==> Apply(j, step).hands[w] == j.hands[w]
  {
    BusyIsClaiming(j, w) by { assert Claimed(j, w); }
    hide *;
    if OfBatch(step) {
      BatchHandStays(j, step, w);
      BatchIdStays(j, step, w);
    } else if OfHand(step) {
      HandIdStays(j, step, w);
    } else {
      OtherIdStays(j, step, w);
    }
  }

  /** Two workers of a stage never hold one resource. */
  lemma HandsApart(j: Job, v: WorkerId, w: WorkerId)
    requires OnPlan(j) && v in j.hands && w in j.hands && v != w
    ensures Claiming(j, v) && Claiming(j, w) && IdOf(j, v) != IdOf(j, w)
  {
    BusyIsClaiming(j, v);
    BusyIsClaiming(j, w);
    if v.stage == w.stage {
      assert StageOnPlan(j.plan, v.stage, j.stages[v.stage], j.record.stopped);
      assert v.worker != w.worker;
    }
  }

  /** How a hand step moves the history. */
  lemma HandStepEnds(j: Job, step: Step)
    requires Enabled(j, step) && OfHand(step)
    ensures var t, w := ApplyHand(j, step), step.w;
            && w in j.hands && w in t.hands && Claiming(j, w)
            && (t.ended == j.ended || (Unsettled(j.hands[w]) && t.ended == j.ended + [IdOf(j, w)]))
            && (Unsettled(t.hands[w]) ==> Unsettled(j.hands[w]) && t.ended == j.ended)
            && (t.hands[w] == Returning(true) ==> t.ended == j.ended + [IdOf(j, w)])
  {
    HandStepIs(j, step);
  }

  /** A claimed resource is one the stage had not come to. */
  lemma ClaimIsNew(j: Job, w: WorkerId)
    requires OnPlan(j) && Enabled(j, Claim(w)) && w in Apply(j, Claim(w)).hands
    ensures w !in j.hands
    ensures var t := Apply(j, Claim(w));
            t.hands[w] == Checking && Claiming(t, w) && !Passed(j, IdOf(t, w))
  {
    BatchStepIs(j, Claim(w));
    BatchStepKeepsOnPlan(j, Claim(w));
    TileBatches.ReachedGrows(Noticed(j, w.stage), TileBatches.Claim(w.worker));
    hide TileBatches.Inv;
    assert !Claimed(j, w);
    BusyIsClaiming(Apply(j, Claim(w)), w);
    hide OnPlan;
  }

  lemma BatchStepKeepsOnce(j: Job, step: Step)
    requires OnPlan(j) && Once(j) && Enabled(j, step) && OfBatch(step)
    ensures Once(Apply(j, step))
  {
    var t := Apply(j, step);
    BatchStepIs(j, step);
    hide TileBatches.Inv, OnPlan, ApplyBatch, Passed;
    forall k | 0 <= k < |t.ended|
      ensures Passed(t, t.ended[k])
    {
      PassedStays(j, step, j.ended[k]);
    }
    forall w | w in t.hands && Unsettled(t.hands[w])
      ensures NotEnded(t, w)
    {
      if w in j.hands {
        assert NotEnded(j, w);
        IdStays(j, step, w);
      } else {
        NewHand(j, step, w);
        ClaimIsNew(j, w);
      }
    }
  }

  lemma NewHand(j: Job, step: Step, w: WorkerId)
    requires Enabled(j, step) && w !in j.hands && w in Apply(j, step).hands
    ensures step == Claim(w)
  {
    if OfHand(step) {
      HandStepIs(j, step);
    }
  }

  lemma HandStepNotEnded(j: Job, step: Step, v: WorkerId)
    requires OnPlan(j) && Enabled(j, step) && OfHand(step)
    requires NotEnded(j, v) && NotEnded(j, step.w)
    ensures NotEnded(Apply(j, step), v)
  {
    hide OnPlan, Apply, ApplyHand, Enabled, Claiming, Unsettled, InPlan;
    var t, w := Apply(j, step), step.w;
    HandStepIs(j, step);
    HandStepEnds(j, step);
    if v in t.hands {
      IdStays(j, step, v);
      if v != w {
        HandsApart(j, v, w);
      }
    }
  }

  lemma BusyIsPassed(j: Job, w: WorkerId)
    requires OnPlan(j) && w in j.hands
    ensures Claiming(j, w) && Passed(j, IdOf(j, w))
  {
    BusyIsClaiming(j, w) by { assert Claimed(j, w); }
  }

  lemma AppendIsDistinct(ids: seq<Id>, id: Id)
    requires DistinctIds(ids) && id !in ids
    ensures DistinctIds(ids + [id])
  {
  }

  lemma HandStepKeepsOnce(j: Job, step: Step)
    requires OnPlan(j) && Once(j) && Enabled(j, step) && OfHand(step)
    ensures Once(Apply(j, step))
  {
    hide OnPlan, Apply, ApplyHand, Enabled, Claiming, Passed, DistinctIds;
    var t, w := Apply(j, step), step.w;
    HandStepIs(j, step);
    HandStepEnds(j, step);
    BusyIsPassed(j, w);
    assert NotEnded(j, w);
    if t.ended != j.ended {
      AppendIsDistinct(j.ended, IdOf(j, w));
    }
    hide NotEnded;
    forall v
      ensures NotEnded(t, v)
    {
      assert NotEnded(j, v);
      HandStepNotEnded(j, step, v);
    }
    forall k | 0 <= k < |t.ended|
      ensures Passed(t, t.ended[k])
    {
      assert k < |j.ended| ==> Passed(j, j.ended[k]);
      PassedStays(j, step, t.ended[k]);
    }
  }

  lemma StepKeepsOnce(j: Job, step: Step)
    requires OnPlan(j) && Once(j) && Enabled(j, step)
    ensures Once(Apply(j, step))
  {
    var t := Apply(j, step);
    if OfBatch(step) {
      BatchStepKeepsOnce(j, step);
    } else if OfHand(step) {
      HandStepKeepsOnce(j, step);
    } else {
      hide OnPlan, Passed;
      forall k | 0 <= k < |t.ended|
        ensures Passed(t, t.ended[k])
      {
        PassedStays(j, step, j.ended[k]);
      }
      forall w
        ensures NotEnded(t, w)
      {
        assert NotEnded(j, w);
        if w in j.hands {
          IdStays(j, step, w);
        }
      }
    }
  }

  // ------------------------------------------------------ nothing that was passed is lost

  /** Every fetch that a batch counts as good has ended. */
  ghost predicate GoodEnded(j: Job, s: nat)
    requires s < |j.stages|
  {
    forall k :: 0 <= k < |j.stages[s].batch.log| && j.stages[s].batch.log[k].ok ==>
      Id(s, j.stages[s].at, j.stages[s].batch.log[k].index) in j.ended
  }

  predicate EndedIfGood(j: Job, w: WorkerId) {
    w in j.hands && j.hands[w] == Returning(true) ==> Claiming(j, w) && IdOf(j, w) in j.ended
  }

  predicate EndedIfBehind(j: Job, id: Id) {
    InPlan(j.plan, id) && id.stage < |j.stages| && id.segment < j.stages[id.stage].at ==> id in j.ended
  }

  ghost predicate NothingLost(j: Job) {
    && (forall id :: EndedIfBehind(j, id))
    && (forall s :: 0 <= s < |j.stages| ==> GoodEnded(j, s))
    && (forall w :: EndedIfGood(j, w))
  }

  lemma SegmentEnded(j: Job, s: nat, id: Id)
    requires OnPlan(j) && NothingLost(j) && s < |j.stages| && j.stages[s].batch.result == Some(true)
    requires InPlan(j.plan, id) && id.stage == s && id.segment == j.stages[s].at
    ensures id in j.ended
  {
    var batch := j.stages[s].batch;
    assert StageOnPlan(j.plan, s, j.stages[s], j.record.stopped);
    TileBatches.SuccessIsAllOnce(batch);
    hide TileBatches.Inv;
    assert GoodEnded(j, s);
    var k :| 0 <= k < |batch.log| && batch.log[k] == TileBatches.Fetched(id.index, true);
  }

  lemma NextSegmentLosesNothing(j: Job, s: nat)
    requires OnPlan(j) && NothingLost(j) && Enabled(j, NextSegment(s))
    ensures NothingLost(Apply(j, NextSegment(s)))
  {
    var t := Apply(j, NextSegment(s));
    StartedIsInv(SegmentAt(j.plan, s, j.stages[s].at + 1));
    hide TileBatches.Inv, Started;
    forall id
      ensures EndedIfBehind(t, id)
    {
      assert EndedIfBehind(j, id);
      if InPlan(j.plan, id) && id.stage == s && id.segment == j.stages[s].at {
        SegmentEnded(j, s, id);
      }
    }
    forall i | 0 <= i < |t.stages|
      ensures GoodEnded(t, i)
    {
      assert GoodEnded(j, i);
    }
    forall w
      ensures EndedIfGood(t, w)
    {
      assert EndedIfGood(j, w);
      if w in j.hands {
        IdStays(j, NextSegment(s), w);
      }
    }
  }

  /** A fetch that a batch counts as good was one that its worker returned as ended. */
  lemma BatchLogEnded(j: Job, step: Step, s: nat)
    requires OnPlan(j) && Enabled(j, step) && OfBatch(step) && s < |j.stages|
    requires GoodEnded(j, s) && (step.Return? ==> EndedIfGood(j, step.w))
    ensures |ApplyBatch(j, step).stages| == |j.stages| && GoodEnded(ApplyBatch(j, step), s)
  {
    hide OnPlan, Enabled, ApplyBatch, InPlan, TaskAt, TileBatches.Inv, TileBatches.End;
    BatchStepIs(j, step);
  }

  lemma BatchStepLosesNothing(j: Job, step: Step)
    requires OnPlan(j) && NothingLost(j) && Enabled(j, step) && OfBatch(step)
    ensures NothingLost(Apply(j, step))
  {
    hide Apply, ApplyBatch, Enabled, OnPlan, InPlan, TileBatches.Inv, TileBatches.Apply, TileBatches.Enabled, GoodEnded;
    var t := Apply(j, step);
    BatchStepIs(j, step);
    forall id
      ensures EndedIfBehind(t, id)
    {
      assert EndedIfBehind(j, id);
    }
    forall w
      ensures EndedIfGood(t, w)
    {
      assert EndedIfGood(j, w);
      if w in j.hands && w in t.hands {
        IdStays(j, step, w);
      }
    }
    hide EndedIfGood, EndedIfBehind;
    forall s | 0 <= s < |t.stages|
      ensures GoodEnded(t, s)
    {
      assert step.Return? ==> EndedIfGood(j, step.w);
      BatchLogEnded(j, step, s);
    }
  }

  lemma HandStepLosesNothing(j: Job, step: Step)
    requires OnPlan(j) && NothingLost(j) && Enabled(j, step) && OfHand(step)
    ensures NothingLost(Apply(j, step))
  {
    hide Apply, ApplyHand, Enabled, OnPlan, InPlan;
    var t, w := Apply(j, step), step.w;
    HandStepIs(j, step);
    HandStepEnds(j, step);
    forall id
      ensures EndedIfBehind(t, id)
    {
      assert EndedIfBehind(j, id);
    }
    forall s | 0 <= s < |t.stages|
      ensures GoodEnded(t, s)
    {
      assert GoodEnded(j, s);
    }
    forall v
      ensures EndedIfGood(t, v)
    {
      assert EndedIfGood(j, v);
    }
  }

  lemma StepLosesNothing(j: Job, step: Step)
    requires OnPlan(j) && NothingLost(j) && Enabled(j, step)
    ensures NothingLost(Apply(j, step))
  {
    hide Apply, Enabled, OnPlan, InPlan;
    if OfBatch(step) {
      BatchStepLosesNothing(j, step);
    } else if OfHand(step) {
      HandStepLosesNothing(j, step);
    } else if step.NextSegment? {
      NextSegmentLosesNothing(j, step.s);
    } else {
      var t := Apply(j, step);
      OtherStepIs(j, step);
      forall id
        ensures EndedIfBehind(t, id)
      {
        assert EndedIfBehind(j, id);
        assert id.stage < |j.stages| ==> SameBatch(j, t, id.stage);
      }
      forall s | 0 <= s < |t.stages|
        ensures GoodEnded(t, s)
      {
        assert GoodEnded(j, s) && SameBatch(j, t, s);
      }
      forall w
        ensures EndedIfGood(t, w)
      {
        assert EndedIfGood(j, w);
        if w in j.hands {
          IdStays(j, step, w);
        }
      }
    }
  }

  // ------------------------------------------------------------- what the record tells

  /** The log's entry is about this planned resource. */
  predicate Tells(plan: Plan, id: Id, o: Outcome) {
    && InPlan(plan, id) && o.category == TaskOf(plan, id).category
    && (o.Accepted? ==> o.key == TaskOf(plan, id).key)
  }

  ghost predicate Told(j: Job) {
    && |j.ended| == |j.record.log|
    && (forall k :: 0 <= k < |j.ended| ==> Tells(j.plan, j.ended[k], j.record.log[k]))
    && Exact(j.record)
  }

  predicate SameCounts(a: Record, b: Record) {
    && a.log == b.log && a.cacheKeys == b.cacheKeys && a.done == b.done && a.failures == b.failures
    && a.bytes == b.bytes && a.resources == b.resources
  }

  lemma ExactStays(a: Record, b: Record)
    requires Exact(a) && SameCounts(a, b) && a.recorded == b.recorded
    ensures Exact(b)
  {
  }

  /** The history and the log take the same resource. */
  predicate OneMoreTold(j: Job, t: Job, step: Step)
    requires Enabled(j, step)
  {
    && (step.Accept? || step.RecordFailure?) && !j.record.deleted
    && Claiming(j, step.w) && t.ended == j.ended + [IdOf(j, step.w)]
    && Tells(j.plan, IdOf(j, step.w), Reported(j, step))
    && t.record == Settled(j.record, Reported(j, step), step.saved)
  }

  predicate SameTold(j: Job, t: Job) { SameCounts(j.record, t.record) && t.ended == j.ended }

  lemma UpdateKeepsTotals(r: Record, o: Outcome, saved: bool)
    ensures forall t | t == Settled(r, o, saved) || t == MarkedIncomplete(r, saved) ::
              t.recorded == r.recorded && t.total == r.total && t.unavailable == r.unavailable && t.deleted == r.deleted
    ensures SameCounts(r, MarkedIncomplete(r, saved)) && (r.deleted ==> Settled(r, o, saved) == r)
  {
  }

  lemma SettleTells(j: Job, step: Step)
    requires Enabled(j, step) && (step.Accept? || step.RecordFailure?)
    ensures ApplyHand(j, step).record == Settled(j.record, Reported(j, step), step.saved)
    ensures !j.record.deleted ==> OneMoreTold(j, ApplyHand(j, step), step)
    ensures j.record.deleted ==> ApplyHand(j, step).ended == j.ended
  {
    hide Settled, PackPins.Apply, PackPins.Enabled, InPlan;
  }

  lemma HandStepTells(j: Job, step: Step)
    requires Enabled(j, step) && OfHand(step)
    ensures var t := ApplyHand(j, step);
            && t.record.recorded == j.record.recorded
            && t.record.total == j.record.total && t.record.unavailable == j.record.unavailable
            && (j.record.deleted ==> t.record.deleted)
            && (SameTold(j, t) || OneMoreTold(j, t, step))
  {
    hide OneMoreTold, Settled, MarkedIncomplete, Reported, PackPins.Apply, PackPins.Enabled, TaskAt, IdOf;
    if step.Accept? || step.RecordFailure? {
      UpdateKeepsTotals(j.record, Reported(j, step), step.saved);
      SettleTells(j, step);
      hide ApplyHand, Enabled;
    } else if step.Mark? {
      UpdateKeepsTotals(j.record, Failed(POIs, 0), step.saved);
    }
  }

  /** What the record and the history say after a step: the same, or one resource more. */
  lemma StepTells(j: Job, step: Step)
    requires Enabled(j, step)
    ensures var t := Apply(j, step);
            && t.plan == j.plan && t.record.recorded == j.record.recorded
            && t.record.total == j.record.total && t.record.unavailable == j.record.unavailable
            && (j.record.deleted ==> t.record.deleted)
            && (SameTold(j, t) || (OfHand(step) && OneMoreTold(j, t, step)))
  {
    hide OneMoreTold, ApplyHand, PackPins.Apply, PackPins.Enabled, TileBatches.Enabled, TileBatches.Apply, InPlan;
    if OfHand(step) {
      HandStepIs(j, step);
      HandStepTells(j, step);
    }
  }

  function Reported(j: Job, step: Step): Outcome
    requires Enabled(j, step) && (step.Accept? || step.RecordFailure?)
  {
    var task := TaskAt(j, step.w);
    if step.Accept? then Accepted(task.category, task.key, step.bytes, step.items)
    else Failed(task.category, if task.key.None? then step.bytes else 0)
  }

  lemma StepKeepsTold(j: Job, step: Step)
    requires Told(j) && Enabled(j, step)
    ensures Told(Apply(j, step))
  {
    hide Exact, Apply, Enabled, Tells;
    StepTells(j, step);
    var t := Apply(j, step);
    if SameTold(j, t) {
      ExactStays(j.record, t.record);
    } else {
      UpdateKeepsExact(j.record, Reported(j, step), step.saved);
    }
  }
}
