/**
  A job that nothing disturbs: from every setup it reaches its end with every resource
  accepted. With it, exactly when a download can complete and when `Done` can pass `Total`.
 */
module PackFullRun {
  import opened Options
  import opened PackStates
  import opened PackProgress
  import opened PackJob
  import opened PackAccount
  import opened PackCourse
  import opened PackCompletion
  import TileBatches
  import PackPins

  // ------------------------------------------------------------------ the undisturbed job

  predicate Undisturbed(r: Record) { !r.stopped && !r.deleted && r.state == Running && r.failures == 0 }

  predicate Smooth(hand: Hand) { hand.Checking? || hand.Fetching? || hand.Holding? || hand == Returning(true) }

  function First(s: nat): WorkerId { PackPins.WorkerId(s, 0) }

  /** The stages before `s` have succeeded, and of the others only the first worker of `s`
      is at work. */
  ghost predicate Solo(j: Job, s: nat) {
    && Inv(j) && j.phase == Working && Undisturbed(j.record) && s <= |j.stages|
    && (forall w :: w in j.hands ==> w == First(s) && Smooth(j.hands[w]))
    && (forall i :: 0 <= i < s ==> j.stages[i].result == Some(true))
    && (forall i :: s <= i < |j.stages| ==> j.stages[i].result == None && !FailingAt(j, i))
  }

  function LookingCrew(crew: seq<TileBatches.Phase>): nat {
    if crew == [] then 0
    else LookingCrew(crew[..|crew| - 1]) + if crew[|crew| - 1].Looking? then 1 else 0
  }

  function Rank(j: Job, s: nat): nat {
    if First(s) !in j.hands then 0
    else
      match j.hands[First(s)]
      case Checking => 4
      case Fetching => 3
      case Holding => 2
      case _ => 1
  }

  function Above(n: int): nat { if n < 0 then 0 else n }

  function SegmentsLeft(j: Job, s: nat): nat
    requires s < |j.stages| && s < |j.plan|
  {
    Above(|j.plan[s]| - j.stages[s].at)
  }

  function TilesLeft(b: TileBatches.State): nat { Above(b.tiles - b.start) }

  function Unclaimed(b: TileBatches.State): nat { Above(TileBatches.End(b) - TileBatches.Reached(b)) }

  /** The next step of stage `s` brings it closer to its end. */
  predicate Closer(t: Job, j: Job, s: nat)
    requires s < |j.stages| && s < |j.plan| && s < |t.stages| && s < |t.plan|
  {
    var b, c := j.stages[s].batch, t.stages[s].batch;
    SegmentsLeft(t, s) < SegmentsLeft(j, s) || (SegmentsLeft(t, s) == SegmentsLeft(j, s) &&
      (TilesLeft(c) < TilesLeft(b) || (TilesLeft(c) == TilesLeft(b) &&
        (Unclaimed(c) < Unclaimed(b) || (Unclaimed(c) == Unclaimed(b) &&
          (Rank(t, s) < Rank(j, s) || (Rank(t, s) == Rank(j, s) &&
            LookingCrew(c.crew) < LookingCrew(b.crew))))))))
  }

  // ------------------------------------------------------------------- one step at a time

  lemma {:induction false} OneLessLooking(crew: seq<TileBatches.Phase>, v: nat)
    requires v < |crew| && crew[v].Looking?
    ensures LookingCrew(crew[v := TileBatches.Left]) == LookingCrew(crew) - 1
  {
    var n := |crew| - 1;
    if v < n {
      OneLessLooking(crew[..n], v);
      assert crew[v := TileBatches.Left][..n] == crew[..n][v := TileBatches.Left];
    } else {
      assert crew[v := TileBatches.Left][..n] == crew[..n];
    }
  }

  function HandNext(j: Job, s: nat): Step
    requires Claiming(j, First(s)) && First(s) in j.hands
  {
    var w := First(s);
    match j.hands[w]
    case Checking => Look(w)
    case Fetching => if TaskAt(j, w).key.Some? then PinKey(w) else Accept(w, 0, 0, true)
    case Holding => Accept(w, 0, 0, true)
    case _ => Return(w)
  }

  lemma HandNextIsEnabled(j: Job, s: nat)
    requires Solo(j, s) && First(s) in j.hands
    ensures Claiming(j, First(s)) && s < |j.stages| && Enabled(j, HandNext(j, s))
  {
    var w := First(s);
    assert Claimed(j, w);
    BusyIsClaiming(j, w);
    assert PinFits(j, w);
    hide OnPlan, Once, NothingLost, Told, Lifecycle, PackPins.Inv, InPlan;
  }

  /** Still undisturbed, with the other stages as they were, and closer to the end. */
  ghost predicate Onward(t: Job, j: Job, s: nat)
    requires s < |j.stages| && s < |j.plan|
  {
    && Undisturbed(t.record) && t.phase == Working && t.plan == j.plan && |t.stages| == |j.stages|
    && (forall w :: w in t.hands ==> w == First(s) && Smooth(t.hands[w]))
    && (forall i :: 0 <= i < |j.stages| ==>
          t.stages[i].result == j.stages[i].result && (FailingAt(t, i) ==> FailingAt(j, i)))
    && Closer(t, j, s)
  }

  lemma HandNextCloses(j: Job, s: nat)
    requires Claiming(j, First(s)) && s < |j.stages| && First(s) in j.hands && Enabled(j, HandNext(j, s))
    requires Undisturbed(j.record) && j.phase == Working
    requires forall w :: w in j.hands ==> w == First(s) && Smooth(j.hands[w])
    ensures Onward(Apply(j, HandNext(j, s)), j, s)
  {
    hide PackPins.Apply, PackPins.Enabled, Grown, WithKey, TileBatches.Inv;
  }

  /** What holds of a stage whose first worker is between two resources. */
  ghost predicate Idle(j: Job, s: nat) {
    && j.phase == Working && Undisturbed(j.record) && |j.stages| == |j.plan| && s < |j.stages|
    && j.stages[s].result == None && !FailingAt(j, s) && (forall w :: w !in j.hands)
    && (forall w: WorkerId :: w.stage == s ==> !Claimed(j, w))
    && StageOnPlan(j.plan, s, j.stages[s], false)
  }

  lemma SoloIsIdle(j: Job, s: nat)
    requires Solo(j, s) && s < |j.stages| && First(s) !in j.hands
    ensures Idle(j, s)
  {
    hide Once, NothingLost, Told, Linked, Lifecycle, StageOnPlan;
    assert forall w :: w in j.hands <==> Claimed(j, w);
    assert StageOnPlan(j.plan, s, j.stages[s], j.record.stopped);
  }

  lemma ClaimCloses(j: Job, s: nat)
    requires Idle(j, s) && j.stages[s].batch.result == None && Unclaimed(j.stages[s].batch) > 0
    ensures Enabled(j, Claim(First(s))) && Onward(Apply(j, Claim(First(s))), j, s)
  {
    assert !Claimed(j, First(s));
  }

  lemma LeaveCloses(j: Job, s: nat, v: nat)
    requires Idle(j, s) && j.stages[s].batch.result == None && Unclaimed(j.stages[s].batch) == 0
    requires v < |j.stages[s].batch.crew| && j.stages[s].batch.crew[v].Looking?
    ensures Enabled(j, Claim(PackPins.WorkerId(s, v)))
    ensures Onward(Apply(j, Claim(PackPins.WorkerId(s, v))), j, s)
  {
    OneLessLooking(j.stages[s].batch.crew, v);
    hide TileBatches.Inv;
  }

  lemma AdvanceCloses(j: Job, s: nat)
    requires Idle(j, s) && j.stages[s].batch.result == None && Unclaimed(j.stages[s].batch) == 0
    requires forall v :: 0 <= v < |j.stages[s].batch.crew| ==> !j.stages[s].batch.crew[v].Looking?
    ensures Enabled(j, Advance(s)) && Onward(Apply(j, Advance(s)), j, s)
  {
    forall v | 0 <= v < |j.stages[s].batch.crew|
      ensures j.stages[s].batch.crew[v].Left?
    {
      assert !Claimed(j, PackPins.WorkerId(s, v));
    }
  }

  lemma NextSegmentCloses(j: Job, s: nat)
    requires Idle(j, s) && j.stages[s].batch.result != None && j.stages[s].at < |j.plan[s]|
    ensures Enabled(j, NextSegment(s)) && Onward(Apply(j, NextSegment(s)), j, s)
  {
    SomeBool(j.stages[s].batch.result);
    StartedIsInv(SegmentAt(j.plan, s, j.stages[s].at + 1));
    hide Started, TileBatches.Inv;
  }

  /** The stage has gone through all its segments. */
  predicate AtEnd(j: Job, s: nat)
    requires s < |j.stages| && s < |j.plan|
  {
    First(s) !in j.hands && j.stages[s].batch.result != None && j.stages[s].at >= |j.plan[s]|
  }

  lemma IdleStep(j: Job, s: nat) returns (step: Step)
    requires Idle(j, s) && !AtEnd(j, s)
    ensures Enabled(j, step) && Onward(Apply(j, step), j, s)
  {
    hide StageOnPlan, Onward, Enabled, Apply;
    var b := j.stages[s].batch;
    if b.result == None {
      if Unclaimed(b) > 0 {
        step := Claim(First(s));
        ClaimCloses(j, s);
      } else if v :| 0 <= v < |b.crew| && b.crew[v].Looking? {
        step := Claim(PackPins.WorkerId(s, v));
        LeaveCloses(j, s, v);
      } else {
        step := Advance(s);
        AdvanceCloses(j, s);
      }
    } else {
      step := NextSegment(s);
      NextSegmentCloses(j, s);
    }
  }

  lemma OneStep(j: Job, s: nat) returns (step: Step)
    requires Solo(j, s) && s < |j.stages| == |j.plan| && !AtEnd(j, s)
    ensures Enabled(j, step) && Solo(Apply(j, step), s) && Onward(Apply(j, step), j, s)
  {
    hide Inv, Enabled, Apply, AtEnd, Closer, HandNext;
    if First(s) in j.hands {
      HandNextIsEnabled(j, s);
      step := HandNext(j, s);
      HandNextCloses(j, s);
    } else {
      SoloIsIdle(j, s);
      step := IdleStep(j, s);
    }
    StepKeepsInv(j, step);
  }

  lemma EndOfStage(j: Job, s: nat)
    requires Solo(j, s) && s < |j.stages| == |j.plan| && AtEnd(j, s)
    ensures Enabled(j, EndStage(s)) && Solo(Apply(j, EndStage(s)), s + 1)
  {
    SoloIsIdle(j, s);
    SomeBool(j.stages[s].batch.result);
    assert Enabled(j, EndStage(s));
    StepKeepsInv(j, EndStage(s));
    hide Inv, StageOnPlan;
  }

  lemma RunExtends(states: seq<Job>, steps: seq<Step>, u: Setup, step: Step)
    requires Run(states, steps, u) && Enabled(states[|steps|], step)
    ensures Run(states + [Apply(states[|steps|], step)], steps + [step], u)
  {
    hide Enabled, Apply, ValidSetup;
  }

  lemma {:induction false} StageRuns(states: seq<Job>, steps: seq<Step>, u: Setup, s: nat)
    returns (states': seq<Job>, steps': seq<Step>)
    requires Run(states, steps, u) && Solo(states[|steps|], s)
    requires s < |states[|steps|].stages| == |states[|steps|].plan|
    ensures Run(states', steps', u) && Solo(states'[|steps'|], s + 1)
    decreases SegmentsLeft(states[|steps|], s), TilesLeft(states[|steps|].stages[s].batch),
      Unclaimed(states[|steps|].stages[s].batch), Rank(states[|steps|], s),
      LookingCrew(states[|steps|].stages[s].batch.crew)
  {
    hide Inv, Enabled, Apply, AtEnd, LookingCrew, Rank, Unclaimed, TilesLeft, SegmentsLeft, ValidSetup;
    var j := states[|steps|];
    if AtEnd(j, s) {
      EndOfStage(j, s);
      RunExtends(states, steps, u, EndStage(s));
      states', steps' := states + [Apply(j, EndStage(s))], steps + [EndStage(s)];
    } else {
      var step := OneStep(j, s);
      RunExtends(states, steps, u, step);
      states', steps' := StageRuns(states + [Apply(j, step)], steps + [step], u, s);
    }
  }

  lemma {:induction false} StagesRun(states: seq<Job>, steps: seq<Step>, u: Setup, s: nat)
    returns (states': seq<Job>, steps': seq<Step>)
    requires Run(states, steps, u) && Solo(states[|steps|], s) && s <= |u.plan|
    ensures Run(states', steps', u) && Solo(states'[|steps'|], |u.plan|)
    decreases |u.plan| - s
  {
    hide Inv, Enabled, Apply, ValidSetup;
    if s == |u.plan| {
      states', steps' := states, steps;
    } else {
      RunKeepsInv(states, steps, u, |steps|);
      InvHasStages(states[|steps|]);
      states', steps' := StageRuns(states, steps, u, s);
      states', steps' := StagesRun(states', steps', u, s + 1);
    }
  }

  lemma InvHasStages(j: Job)
    requires Inv(j)
    ensures |j.stages| == |j.plan|
  {
  }

  lemma BegunIsSolo(u: Setup)
    requires ValidSetup(u)
    ensures Enabled(Initial(u), Begin(true)) && Solo(Apply(Initial(u), Begin(true)), 0)
  {
    InitialIsInv(u);
    StepKeepsInv(Initial(u), Begin(true));
    forall i | 0 <= i < |u.plan|
      ensures !FailingAt(Apply(Initial(u), Begin(true)), i)
    {
      StartedIsInv(SegmentAt(u.plan, i, 0));
    }
    hide Inv, ValidSetup;
  }

  lemma JoinedAndFinished(j: Job)
    requires Solo(j, |j.plan|)
    ensures Enabled(j, Join(true)) && Enabled(Apply(j, Join(true)), Finish(true))
    ensures Apply(Apply(j, Join(true)), Finish(true)).record == Finished(j.record, true)
  {
    InvHasStages(j);
    hide Inv;
  }

  lemma JoinedCounts(j: Job)
    requires Solo(j, |j.plan|)
    ensures j.record.done == TaskCount(j.plan) && j.record.failures == 0 && !j.record.deleted
  {
    InvHasStages(j);
    assert OnPlan(j) && Once(j) && NothingLost(j) && Told(j);
    hide Inv, Lifecycle, Linked, Exact, Once, OnPlan, NothingLost;
    forall id | InPlan(j.plan, id)
      ensures id in j.ended
    {
      AllEnded(j, id);
    }
    EndedWithinPlan(j);
    ExactDone(j.record);
  }

  /** From every setup, the undisturbed run goes through every planned resource without a
      failure, and its last update decides by the two counts alone. */
  lemma FullRun(u: Setup) returns (states: seq<Job>, steps: seq<Step>)
    requires ValidSetup(u)
    ensures Run(states, steps, u)
    ensures var r := states[|steps|].record;
            && r.done == TaskCount(u.plan) && r.failures == 0 && !r.deleted
            && r.state == if TaskCount(u.plan) == u.total && u.unavailable == 0 then Complete else Incomplete
  {
    hide Inv, Enabled, Apply, Solo, ValidSetup;
    var j := Initial(u);
    BegunIsSolo(u);
    states, steps := [j, Apply(j, Begin(true))], [Begin(true)];
    states, steps := StagesRun(states, steps, u, 0);
    j := states[|steps|];
    RunKeepsInv(states, steps, u, |steps|);
    JoinedAndFinished(j);
    JoinedCounts(j);
    RunExtends(states, steps, u, Join(true));
    states, steps := states + [Apply(j, Join(true))], steps + [Join(true)];
    j := states[|steps|];
    RunExtends(states, steps, u, Finish(true));
    states, steps := states + [Apply(j, Finish(true))], steps + [Finish(true)];
  }

  // -------------------------------------------------------------------------- exactly when

  ghost predicate Completes(states: seq<Job>, steps: seq<Step>, u: Setup) {
    Run(states, steps, u) && states[|steps|].record.state == Complete
  }

  ghost predicate CanComplete(u: Setup) { exists states, steps :: Completes(states, steps, u) }

  /** Some run completes exactly when the job has as many resources as the estimate named and
      none was unavailable. */
  lemma CompletesIff(u: Setup)
    requires ValidSetup(u)
    ensures CanComplete(u) <==> TaskCount(u.plan) == u.total && u.unavailable == 0
  {
    if TaskCount(u.plan) == u.total && u.unavailable == 0 {
      var states, steps := FullRun(u);
      assert Completes(states, steps, u);
    }
    forall states, steps | Completes(states, steps, u)
      ensures TaskCount(u.plan) == u.total && u.unavailable == 0
    {
      CompleteMeansEachOnce(states, steps, u, |steps|);
    }
  }

  ghost predicate StaysWithin(states: seq<Job>, steps: seq<Step>, u: Setup) {
    Run(states, steps, u) ==> forall n :: 0 <= n < |states| ==> states[n].record.done <= u.total
  }

  ghost predicate AlwaysWithin(u: Setup) { forall states, steps :: StaysWithin(states, steps, u) }

  /** `Done` stays within `Total` in every run exactly when the job has no more resources
      than the estimate named. */
  lemma WithinTotalIff(u: Setup)
    requires ValidSetup(u)
    ensures AlwaysWithin(u) <==> TaskCount(u.plan) <= u.total
  {
    var states, steps := FullRun(u);
    if AlwaysWithin(u) {
      assert StaysWithin(states, steps, u);
    }
    forall states: seq<Job>, steps: seq<Step> | Run(states, steps, u) && TaskCount(u.plan) <= u.total
      ensures StaysWithin(states, steps, u)
    {
      forall n | 0 <= n < |states|
        ensures states[n].record.done <= u.total
      {
        ProgressAddsUp(states, steps, u, n);
      }
    }
  }

  // ------------------------------------------------------------- estimated and then run

  /** What an estimate lists. Of the map's core it keeps only how many keys there were. */
  datatype Estimate = Estimate(
    elevation: seq<Task>, core: nat, glyphs: seq<Task>, tiles: seq<seq<Task>>, rasters: seq<seq<Task>>,
    auxiliary: seq<Task>)

  const ELEVATION_WORKERS: Positive := 4
  const REGIONAL_WORKERS: Positive := 4

  function Listed(lists: seq<seq<Task>>): nat {
    if lists == [] then 0 else Listed(lists[..|lists| - 1]) + |lists[|lists| - 1]|
  }

  /** `Total`, as the estimate counts it. */
  function Resources(e: Estimate): nat {
    |e.elevation| + e.core + |e.glyphs| + Listed(e.tiles) + Listed(e.rasters) + |e.auxiliary|
  }

  function Loops(lists: seq<seq<Task>>): seq<Segment> { seq(|lists|, i requires 0 <= i < |lists| => Loop(lists[i])) }

  function TileSegments(lists: seq<seq<Task>>, regional: bool): seq<Segment> {
    if regional then seq(|lists|, i requires 0 <= i < |lists| => Batches(lists[i], REGIONAL_WORKERS)) else Loops(lists)
  }

  /** What the job goes through: the estimate's lists as they were, but the map's core keys as
      they are when the job comes to them, and those only if the estimate had any. */
  function CoreTasks(e: Estimate, core: seq<Key>): seq<Task> {
    if e.core > 0 then seq(|core|, i requires 0 <= i < |core| => Task(VectorMap, Some(core[i]))) else []
  }

  function PlanOf(e: Estimate, core: seq<Key>, regional: bool): Plan {
    [[Batches(e.elevation, ELEVATION_WORKERS)],
     [Loop(CoreTasks(e, core)), Loop(e.glyphs)] + TileSegments(e.tiles, regional) + Loops(e.rasters),
     [Loop(e.auxiliary)]]
  }

  lemma {:induction false} SegmentsCount(segments: seq<Segment>, lists: seq<seq<Task>>)
    requires |segments| == |lists| && forall i :: 0 <= i < |lists| ==> segments[i].tasks == lists[i]
    ensures TasksIn(segments) == Listed(lists)
  {
    if lists != [] {
      SegmentsCount(segments[..|lists| - 1], lists[..|lists| - 1]);
    }
  }

  lemma {:induction false} TasksAdd(a: seq<Segment>, b: seq<Segment>)
    ensures TasksIn(a + b) == TasksIn(a) + TasksIn(b)
  {
    if b == [] {
      assert a + b == a;
    } else {
      TasksAdd(a, b[..|b| - 1]);
      assert (a + b)[..|a + b| - 1] == a + b[..|b| - 1];
    }
  }

  lemma FewTasks(a: Segment, b: Segment)
    ensures TasksIn([a]) == |a.tasks| && TasksIn([a, b]) == |a.tasks| + |b.tasks|
  {
    assert [a][..0] == [] && [a, b][..1] == [a];
  }

  lemma ThreeStages(a: seq<Segment>, b: seq<Segment>, c: seq<Segment>)
    ensures TaskCount([a, b, c]) == TasksIn(a) + TasksIn(b) + TasksIn(c)
  {
    var three, two, one: Plan := [a, b, c], [a, b], [a];
    assert three[..2] == two && two[..1] == one && one[..0] == [];
    assert TaskCount(one) == TasksIn(a);
    assert TaskCount(two) == TasksIn(a) + TasksIn(b);
  }

  lemma PlanCounts(e: Estimate, core: seq<Key>, regional: bool)
    ensures TaskCount(PlanOf(e, core, regional)) == Resources(e) - e.core + if e.core > 0 then |core| else 0
  {
    var first := [Loop(CoreTasks(e, core)), Loop(e.glyphs)];
    var tiles, rasters := TileSegments(e.tiles, regional), Loops(e.rasters);
    FewTasks(Loop(CoreTasks(e, core)), Loop(e.glyphs));
    SegmentsCount(tiles, e.tiles);
    SegmentsCount(rasters, e.rasters);
    TasksAdd(first, tiles);
    TasksAdd(first + tiles, rasters);
    var elevation := Batches(e.elevation, ELEVATION_WORKERS);
    FewTasks(elevation, elevation);
    FewTasks(Loop(e.auxiliary), elevation);
    ThreeStages([elevation], first + tiles + rasters, [Loop(e.auxiliary)]);
    hide TasksIn, TaskCount;
  }

  /** Whether `Done` can pass `Total` depends on the map alone: it stays within in every run
      exactly when the map has no more core keys than the estimate saw, or the estimate saw
      none; and a run can complete exactly when there are as many. */
  lemma DoneWithinTotalIff(e: Estimate, core: seq<Key>, regional: bool, u: Setup)
    requires ValidSetup(u) && u.plan == PlanOf(e, core, regional) && u.total == Resources(e)
    ensures AlwaysWithin(u) <==> e.core == 0 || |core| <= e.core
    ensures CanComplete(u) <==> (e.core == 0 || |core| == e.core) && u.unavailable == 0
  {
    PlanCounts(e, core, regional);
    WithinTotalIff(u);
    CompletesIff(u);
  }
}
