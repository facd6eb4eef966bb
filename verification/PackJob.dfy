/**
  One download's job from its first update to its last: three concurrent stages, each a
  list of loops and tile batches, whose workers pin, record and fail resources while the
  job is cancelled, the download deleted and the cache changed underneath.
 */
module PackJob {
  import opened Options
  import opened PackProgress
  import TileBatches
  import PackPins

  type WorkerId = PackPins.WorkerId

  /** One resource to prepare. Elevation tiles have no cache key of their own. */
  datatype Task = Task(category: Category, key: Option<Key>)

  type Positive = n: nat | n > 0 witness 1

  /** A plain loop of a stage, or tiles that several workers fetch in batches. */
  datatype Segment = Loop(tasks: seq<Task>) | Batches(tasks: seq<Task>, workers: Positive)

  /** What each stage goes through, in order. */
  type Plan = seq<seq<Segment>>

  datatype Id = Id(stage: nat, segment: nat, index: nat)

  datatype StageState = StageState(at: nat, batch: TileBatches.State, result: Option<bool>)

  /** What a worker is at with the resource it claimed. */
  datatype Hand =
    | Checking             // looks whether the job was stopped
    | Fetching
    | Broken               // the fetch or the pin failed, to be recorded
    | Holding              // pinned, to be recorded
    | Marking              // stopped or out of budget: to mark the download incomplete
    | TakingBack           // its update was refused: to unpin
    | Returning(ok: bool)

  datatype Phase = Starting | Working | Finishing | Over

  /** `ended` is ghost history: which resource each entry of the record's log was about. */
  datatype Job = Job(
    plan: Plan, stages: seq<StageState>, hands: map<WorkerId, Hand>, record: Record,
    pins: PackPins.State, ended: seq<Id>, phase: Phase)

  datatype Step =
    | Begin(saved: bool)
    | Claim(w: WorkerId)
    | Leave(w: WorkerId)
    | Advance(s: nat)                     // every worker of a batch has left
    | Look(w: WorkerId)
    | Break(w: WorkerId)                  // an error: a stop is not a failure
    | RecordFailure(w: WorkerId, bytes: int, limit: bool, saved: bool)
    | PinKey(w: WorkerId)
    | Accept(w: WorkerId, bytes: int, items: int, saved: bool)
    | Mark(w: WorkerId, saved: bool)
    | TakeBack(w: WorkerId, released: bool)
    | Return(w: WorkerId)
    | NextSegment(s: nat)
    | MarkStage(s: nat, saved: bool)      // a stage that sees its batch stopped
    | EndStage(s: nat)
    | Join(saved: bool)                   // all stages have returned
    | Finish(saved: bool)                 // the last update
    | Stop                                // cancelled, timed out, or the server stops
    | Delete
    | Around(other: PackPins.Step)        // clean-up, refreshes and lost entries

  // -------------------------------------------------------------------- where things are

  predicate InPlan(plan: Plan, id: Id) {
    id.stage < |plan| && id.segment < |plan[id.stage]| && id.index < |plan[id.stage][id.segment].tasks|
  }

  function TaskOf(plan: Plan, id: Id): Task
    requires InPlan(plan, id)
  {
    plan[id.stage][id.segment].tasks[id.index]
  }

  function SegmentAt(plan: Plan, s: nat, at: nat): Segment
    requires s < |plan|
  {
    if at < |plan[s]| then plan[s][at] else Loop([])
  }

  function Started(segment: Segment): TileBatches.State {
    match segment
    case Loop(tasks) => TileBatches.Initial(|tasks|, 1, true)
    case Batches(tasks, workers) => TileBatches.Initial(|tasks|, workers, false)
  }

  function At(plan: Plan, s: nat, at: nat): StageState
    requires s < |plan|
  {
    StageState(at, Started(SegmentAt(plan, s, at)), None)
  }

  /** The worker has claimed a planned resource. */
  predicate Claiming(j: Job, w: WorkerId) {
    && w.stage < |j.plan| && w.stage < |j.stages| && w.worker < |j.stages[w.stage].batch.crew|
    && var phase := j.stages[w.stage].batch.crew[w.worker];
       phase.Claimed? && InPlan(j.plan, Id(w.stage, j.stages[w.stage].at, phase.index))
  }

  function IdOf(j: Job, w: WorkerId): (id: Id)
    requires Claiming(j, w)
    ensures InPlan(j.plan, id)
  {
    Id(w.stage, j.stages[w.stage].at, j.stages[w.stage].batch.crew[w.worker].index)
  }

  function TaskAt(j: Job, w: WorkerId): Task
    requires Claiming(j, w)
  {
    TaskOf(j.plan, IdOf(j, w))
  }

  predicate Has(j: Job, w: WorkerId, hand: Hand) { w in j.hands && j.hands[w] == hand && Claiming(j, w) }

  /** The batch as it sees the job's context now. */
  function Noticed(j: Job, s: nat): TileBatches.State
    requires s < |j.stages|
  {
    j.stages[s].batch.(stopped := j.record.stopped)
  }

  predicate Active(j: Job, s: nat) {
    j.phase == Working && s < |j.plan| && s < |j.stages| && j.stages[s].result == None
  }

  // ---------------------------------------------------------------------------- steps

  predicate Enabled(j: Job, step: Step) {
    match step
    case Begin(_) => j.phase == Starting
    case Claim(w) => Active(j, w.stage) && TileBatches.Enabled(Noticed(j, w.stage), TileBatches.Claim(w.worker))
    case Leave(w) => Active(j, w.stage) && TileBatches.Enabled(Noticed(j, w.stage), TileBatches.Leave(w.worker))
    case Advance(s) => Active(j, s) && TileBatches.Enabled(Noticed(j, s), TileBatches.Advance)
    case Look(w) => Has(j, w, Checking)
    case Break(w) => Has(j, w, Fetching)
    case RecordFailure(w, _, _, _) => Has(j, w, Broken)
    case PinKey(w) =>
      Has(j, w, Fetching) && TaskAt(j, w).key.Some? && PackPins.Enabled(j.pins, PackPins.Pin(w, TaskAt(j, w).key.value))
    case Accept(w, _, _, saved) =>
      if w in j.hands && j.hands[w] == Holding then
        Claiming(j, w) && TaskAt(j, w).key.Some? && PackPins.Enabled(j.pins, PackPins.Record(w, saved))
      else Has(j, w, Fetching) && TaskAt(j, w).key.None?
    case Mark(w, _) => Has(j, w, Marking)
    case TakeBack(w, released) => Has(j, w, TakingBack) && PackPins.Enabled(j.pins, PackPins.TakeBack(w, released))
    case Return(w) =>
      && w in j.hands && j.hands[w].Returning? && Active(j, w.stage)
      && TileBatches.Enabled(Noticed(j, w.stage), TileBatches.Fetch(w.worker, j.hands[w].ok))
    case NextSegment(s) => Active(j, s) && j.stages[s].batch.result == Some(true) && j.stages[s].at < |j.plan[s]|
    case MarkStage(s, _) => Active(j, s) && j.stages[s].batch.result == Some(false) && j.record.stopped
    case EndStage(s) =>
      Active(j, s) && (j.stages[s].batch.result == Some(false) || j.stages[s].at == |j.plan[s]|)
    case Join(_) => j.phase == Working && forall s :: 0 <= s < |j.stages| ==> j.stages[s].result.Some?
    case Finish(_) => j.phase == Finishing
    case Stop => true
    case Delete => !j.record.deleted && PackPins.Enabled(j.pins, PackPins.Delete)
    case Around(other) =>
      && (other.Clean? || other.CopyMetadata? || other.WriteBack? || other.LoseEntry?)
      && PackPins.Enabled(j.pins, other)
  }

  predicate Succeeded(j: Job) { forall s :: 0 <= s < |j.stages| ==> j.stages[s].result == Some(true) }

  function WithBatch(j: Job, s: nat, batch: TileBatches.State): Job
    requires s < |j.stages|
  {
    j.(stages := j.stages[s := j.stages[s].(batch := batch)])
  }

  function WithHand(j: Job, w: WorkerId, hand: Hand): Job { j.(hands := j.hands[w := hand]) }

  /** The update that records how a worker's resource ended. */
  function Settle(j: Job, w: WorkerId, o: Outcome, saved: bool): Job
    requires Claiming(j, w)
  {
    j.(record := Settled(j.record, o, saved), ended := if j.record.deleted then j.ended else j.ended + [IdOf(j, w)])
  }

  predicate OfBatch(step: Step) { step.Claim? || step.Leave? || step.Advance? || step.Return? }

  predicate OfHand(step: Step) {
    step.Look? || step.Break? || step.RecordFailure? || step.PinKey? || step.Accept? || step.Mark? || step.TakeBack?
  }

  function ApplyBatch(j: Job, step: Step): Job
    requires Enabled(j, step) && OfBatch(step)
  {
    match step
    case Claim(w) =>
      var batch := TileBatches.Apply(Noticed(j, w.stage), TileBatches.Claim(w.worker));
      var claimed := WithBatch(j, w.stage, batch);
      if batch.crew[w.worker].Claimed? then WithHand(claimed, w, Checking) else claimed
    case Leave(w) =>
      WithBatch(j, w.stage, TileBatches.Apply(Noticed(j, w.stage), TileBatches.Leave(w.worker)))
    case Advance(s) => WithBatch(j, s, TileBatches.Apply(Noticed(j, s), TileBatches.Advance))
    case Return(w) =>
      WithBatch(j, w.stage, TileBatches.Apply(Noticed(j, w.stage), TileBatches.Fetch(w.worker, j.hands[w].ok)))
        .(hands := j.hands - {w})
  }

  function ApplyHand(j: Job, step: Step): Job
    requires Enabled(j, step) && OfHand(step)
  {
    match step
    case Look(w) => WithHand(j, w, if j.record.stopped then Marking else Fetching)
    case Break(w) => WithHand(j, w, if j.record.stopped then Marking else Broken)
    case RecordFailure(w, bytes, limit, saved) =>
      var task := TaskAt(j, w);
      var failed := Failed(task.category, if task.key.None? then bytes else 0);
      var applied := !j.record.deleted && saved;
      WithHand(Settle(j, w, failed, saved), w, if applied && limit then Marking else Returning(applied))
    case PinKey(w) =>
      WithHand(j, w, Holding).(pins := PackPins.Apply(j.pins, PackPins.Pin(w, TaskAt(j, w).key.value)))
    case Accept(w, bytes, items, saved) =>
      var task := TaskAt(j, w);
      var settled := Settle(j, w, Accepted(task.category, task.key, bytes, items), saved);
      var applied := !j.record.deleted && saved;
      if task.key.None? then WithHand(settled, w, Returning(applied))
      else
        WithHand(settled, w, if applied then Returning(true) else TakingBack)
          .(pins := PackPins.Apply(j.pins, PackPins.Record(w, saved)))
    case Mark(w, saved) => WithHand(j, w, Returning(false)).(record := MarkedIncomplete(j.record, saved))
    case TakeBack(w, released) =>
      WithHand(j, w, Returning(false)).(pins := PackPins.Apply(j.pins, PackPins.TakeBack(w, released)))
  }

  function Apply(j: Job, step: Step): Job
    requires Enabled(j, step)
  {
    match step
    case Begin(saved) =>
      j.(record := Began(j.record, saved), phase := if !j.record.deleted && saved then Working else Over)
    case NextSegment(s) => j.(stages := j.stages[s := At(j.plan, s, j.stages[s].at + 1)])
    case MarkStage(_, saved) => j.(record := MarkedIncomplete(j.record, saved))
    case EndStage(s) =>
      var ok := j.stages[s].batch.result == Some(true);
      j.(stages := j.stages[s := j.stages[s].(result := Some(ok))],
         record := j.record.(stopped := j.record.stopped || !ok))
    case Join(saved) =>
      j.(record := if j.record.stopped then MarkedIncomplete(j.record, saved) else j.record,
         phase := if Succeeded(j) && !j.record.stopped then Finishing else Over)
    case Finish(saved) => j.(record := Finished(j.record, saved), phase := Over)
    case Stop => j.(record := j.record.(stopped := true))
    case Delete => j.(record := Deleted(j.record), pins := PackPins.Apply(j.pins, PackPins.Delete))
    case Around(other) => j.(pins := PackPins.Apply(j.pins, other))
    case Claim(_) => ApplyBatch(j, step)
    case Leave(_) => ApplyBatch(j, step)
    case Advance(_) => ApplyBatch(j, step)
    case Return(_) => ApplyBatch(j, step)
    case _ => ApplyHand(j, step)
  }

  // --------------------------------------------------------------- stages and workers

  ghost predicate StageOnPlan(plan: Plan, s: nat, st: StageState, stopped: bool)
    requires s < |plan|
  {
    && st.at <= |plan[s]| && TileBatches.Inv(st.batch) && (st.batch.stopped ==> stopped)
    && st.batch.tiles == |SegmentAt(plan, s, st.at).tasks|
    && (st.at == |plan[s]| ==> st.batch == Started(Loop([])))
    && (st.result == Some(true) ==> st.at == |plan[s]|)
    && (st.result == Some(false) ==> st.batch.result == Some(false) && stopped)
  }

  predicate Claimed(j: Job, w: WorkerId) {
    && w.stage < |j.stages| && w.worker < |j.stages[w.stage].batch.crew|
    && j.stages[w.stage].batch.crew[w.worker].Claimed?
  }

  /** The stages follow the plan, and exactly the workers that claimed something are busy. */
  ghost predicate OnPlan(j: Job) {
    && |j.stages| == |j.plan|
    && (forall s :: 0 <= s < |j.stages| ==> StageOnPlan(j.plan, s, j.stages[s], j.record.stopped))
    && (forall w :: w in j.hands <==> Claimed(j, w))
  }

  lemma StartedIsInv(segment: Segment)
    ensures TileBatches.Inv(Started(segment)) && Started(segment).tiles == |segment.tasks|
    ensures !Started(segment).stopped && !Started(segment).failed && Started(segment).log == []
    ensures forall w :: 0 <= w < |Started(segment).crew| ==> Started(segment).crew[w].Looking?
    ensures Started(segment).result == if segment.tasks == [] then Some(true) else None
  {
  }

  lemma StageStartOnPlan(plan: Plan, s: nat, at: nat, stopped: bool)
    requires s < |plan| && at <= |plan[s]|
    ensures StageOnPlan(plan, s, At(plan, s, at), stopped)
  {
    StartedIsInv(SegmentAt(plan, s, at));
  }

  lemma SomeBool(r: Option<bool>)
    ensures r == None || r == Some(true) || r == Some(false)
  {
    if r.Some? && r.value {
      assert r == Some(true);
    }
  }

  lemma BusyIsClaiming(j: Job, w: WorkerId)
    requires OnPlan(j) && Claimed(j, w)
    ensures Claiming(j, w) && IdOf(j, w).index < TileBatches.Reached(j.stages[w.stage].batch)
    ensures j.stages[w.stage].batch.result == None && j.stages[w.stage].result == None
  {
    var st := j.stages[w.stage];
    assert StageOnPlan(j.plan, w.stage, st, j.record.stopped);
    StartedIsInv(Loop([]));
    SomeBool(st.result);
  }

  lemma NoticedIsInv(j: Job, s: nat)
    requires OnPlan(j) && s < |j.stages|
    ensures TileBatches.Inv(Noticed(j, s))
  {
    assert StageOnPlan(j.plan, s, j.stages[s], j.record.stopped);
  }

  function StageOf(step: Step): nat
    requires OfBatch(step)
  {
    match step
    case Advance(s) => s
    case _ => step.w.stage
  }

  function BatchStep(j: Job, step: Step): TileBatches.Step
    requires Enabled(j, step) && OfBatch(step)
  {
    match step
    case Claim(w) => TileBatches.Claim(w.worker)
    case Leave(w) => TileBatches.Leave(w.worker)
    case Advance(_) => TileBatches.Advance
    case Return(w) => TileBatches.Fetch(w.worker, j.hands[w].ok)
  }

  /** A batch step is a step of that stage's batch and touches nothing else of the stages. */
  lemma BatchStepIs(j: Job, step: Step)
    requires OnPlan(j) && Enabled(j, step) && OfBatch(step)
    ensures Apply(j, step) == ApplyBatch(j, step)
    ensures var t, s, b := ApplyBatch(j, step), StageOf(step), BatchStep(j, step);
            && s < |j.stages| && TileBatches.Enabled(Noticed(j, s), b) && TileBatches.Inv(Noticed(j, s))
            && t.stages == j.stages[s := j.stages[s].(batch := TileBatches.Apply(Noticed(j, s), b))]
            && TileBatches.Inv(t.stages[s].batch)
            && t.plan == j.plan && t.record == j.record && t.pins == j.pins && t.ended == j.ended && t.phase == j.phase
            && (t.hands == j.hands
                || (step.Claim? && t.hands == j.hands[step.w := Checking])
                || (step.Return? && t.hands == j.hands - {step.w}))
            && (step.Return? ==> step.w in j.hands && j.hands[step.w].Returning?)
  {
    hide TileBatches.Inv;
    NoticedIsInv(j, StageOf(step));
    TileBatches.StepKeepsInv(Noticed(j, StageOf(step)), BatchStep(j, step));
  }

  lemma BatchStepKeepsStage(plan: Plan, s: nat, st: StageState, stopped: bool, step: TileBatches.Step)
    requires s < |plan| && StageOnPlan(plan, s, st, stopped) && st.result == None
    requires TileBatches.Enabled(st.batch.(stopped := stopped), step)
    requires TileBatches.Inv(TileBatches.Apply(st.batch.(stopped := stopped), step)) && !step.Stop?
    ensures StageOnPlan(plan, s, st.(batch := TileBatches.Apply(st.batch.(stopped := stopped), step)), stopped)
  {
    hide TileBatches.Inv;
  }

  lemma BatchStepKeepsClaims(j: Job, step: Step, v: WorkerId)
    requires Enabled(j, step) && OfBatch(step) && StageOf(step) < |j.stages|
    requires v in j.hands <==> Claimed(j, v)
    ensures v in ApplyBatch(j, step).hands <==> Claimed(ApplyBatch(j, step), v)
  {
    hide TaskAt, Claiming;
  }

  /** A later stop takes nothing from a stage. */
  lemma StopKeepsStage(plan: Plan, s: nat, st: StageState, before: bool, after: bool)
    requires s < |plan| && StageOnPlan(plan, s, st, before) && (before ==> after)
    ensures StageOnPlan(plan, s, st, after)
  {
    hide TileBatches.Inv;
  }

  lemma OneStageOnPlan(j: Job, t: Job, s: nat)
    requires OnPlan(j) && s < |j.stages| && t.plan == j.plan && (j.record.stopped ==> t.record.stopped)
    requires |t.stages| == |j.stages| && forall i :: 0 <= i < |t.stages| && i != s ==> t.stages[i] == j.stages[i]
    requires StageOnPlan(t.plan, s, t.stages[s], t.record.stopped)
    requires forall w :: w in t.hands <==> Claimed(t, w)
    ensures OnPlan(t)
  {
    hide StageOnPlan, Claimed;
    forall i | 0 <= i < |t.stages| && i != s
      ensures StageOnPlan(t.plan, i, t.stages[i], t.record.stopped)
    {
      StopKeepsStage(j.plan, i, j.stages[i], j.record.stopped, t.record.stopped);
    }
  }

  lemma BatchStepKeepsOnPlan(j: Job, step: Step)
    requires OnPlan(j) && Enabled(j, step) && OfBatch(step)
    ensures OnPlan(ApplyBatch(j, step))
  {
    BatchStepIs(j, step);
    var t, s := ApplyBatch(j, step), StageOf(step);
    BatchStepKeepsStage(j.plan, s, j.stages[s], j.record.stopped, BatchStep(j, step));
    hide StageOnPlan, TileBatches.Inv, ApplyBatch, Claimed;
    forall w
      ensures w in t.hands <==> Claimed(t, w)
    {
      assert w in j.hands <==> Claimed(j, w);
      BatchStepKeepsClaims(j, step, w);
    }
    OneStageOnPlan(j, t, s);
  }

  /** Without another batch, claim or hand, only a stop can happen to the stages. */
  lemma SameStagesOnPlan(j: Job, t: Job)
    requires OnPlan(j) && t.plan == j.plan && t.stages == j.stages && t.hands.Keys == j.hands.Keys
    requires j.record.stopped ==> t.record.stopped
    ensures OnPlan(t)
  {
    hide StageOnPlan;
    forall s | 0 <= s < |t.stages|
      ensures StageOnPlan(t.plan, s, t.stages[s], t.record.stopped)
    {
      StopKeepsStage(j.plan, s, j.stages[s], j.record.stopped, t.record.stopped);
    }
    forall w
      ensures w in t.hands <==> Claimed(t, w)
    {
      assert w in j.hands <==> Claimed(j, w);
    }
  }

  lemma HandStepIs(j: Job, step: Step)
    requires Enabled(j, step) && OfHand(step)
    ensures Apply(j, step) == ApplyHand(j, step)
    ensures var t := ApplyHand(j, step);
            && step.w in j.hands && Claiming(j, step.w)
            && t.stages == j.stages && t.plan == j.plan && t.phase == j.phase
            && t.hands == j.hands[step.w := t.hands[step.w]] && t.hands.Keys == j.hands.Keys
            && (j.record.stopped ==> t.record.stopped)
  {
  }

  lemma NoHandsAfterSuccess(j: Job, s: nat)
    requires OnPlan(j) && s < |j.stages| && j.stages[s].batch.result == Some(true)
    ensures forall w :: w in j.hands ==> w.stage != s
    ensures forall w: WorkerId :: w.stage == s ==> !Claimed(j, w)
  {
    forall w: WorkerId | w.stage == s
      ensures !Claimed(j, w)
    {
      if Claimed(j, w) {
        BusyIsClaiming(j, w);
      }
    }
  }

  lemma NextSegmentKeepsOnPlan(j: Job, s: nat)
    requires OnPlan(j) && Enabled(j, NextSegment(s))
    ensures OnPlan(Apply(j, NextSegment(s)))
  {
    var t := Apply(j, NextSegment(s));
    StageStartOnPlan(j.plan, s, j.stages[s].at + 1, j.record.stopped);
    StartedIsInv(SegmentAt(j.plan, s, j.stages[s].at + 1));
    NoHandsAfterSuccess(j, s);
    hide TileBatches.Inv, Started, StageOnPlan;
    forall w
      ensures w in t.hands <==> Claimed(t, w)
    {
      assert w in j.hands <==> Claimed(j, w);
    }
    OneStageOnPlan(j, t, s);
  }

  lemma EndedStageOnPlan(plan: Plan, s: nat, st: StageState, stopped: bool)
    requires s < |plan| && StageOnPlan(plan, s, st, stopped) && st.result == None
    requires st.batch.result == Some(false) || st.at == |plan[s]|
    ensures var ok := st.batch.result == Some(true);
            StageOnPlan(plan, s, st.(result := Some(ok)), stopped || !ok)
  {
    StartedIsInv(Loop([]));
    hide TileBatches.Inv;
  }

  lemma EndStageKeepsOnPlan(j: Job, s: nat)
    requires OnPlan(j) && Enabled(j, EndStage(s))
    ensures OnPlan(Apply(j, EndStage(s)))
  {
    var t := Apply(j, EndStage(s));
    EndedStageOnPlan(j.plan, s, j.stages[s], j.record.stopped);
    hide StageOnPlan;
    forall w
      ensures w in t.hands <==> Claimed(t, w)
    {
      assert w in j.hands <==> Claimed(j, w);
    }
    OneStageOnPlan(j, t, s);
  }

  predicate SameBatch(j: Job, t: Job, s: nat) {
    s < |j.stages| && s < |t.stages| && t.stages[s].at == j.stages[s].at && t.stages[s].batch == j.stages[s].batch
  }

  /** The other steps leave workers and history, and all batches but a finished one. */
  lemma OtherStepIs(j: Job, step: Step)
    requires Enabled(j, step) && !OfBatch(step) && !OfHand(step)
    ensures var t := Apply(j, step);
            && t.plan == j.plan && t.hands == j.hands && t.ended == j.ended && |t.stages| == |j.stages|
            && forall s :: 0 <= s < |j.stages| ==> SameBatch(j, t, s) || step == NextSegment(s)
  {
  }

  lemma StepKeepsOnPlan(j: Job, step: Step)
    requires OnPlan(j) && Enabled(j, step)
    ensures OnPlan(Apply(j, step))
  {
    hide OnPlan;
    if OfBatch(step) {
      BatchStepKeepsOnPlan(j, step);
    } else if OfHand(step) {
      HandStepIs(j, step);
      SameStagesOnPlan(j, Apply(j, step));
    } else if step.NextSegment? {
      NextSegmentKeepsOnPlan(j, step.s);
    } else if step.EndStage? {
      EndStageKeepsOnPlan(j, step.s);
    } else {
      SameStagesOnPlan(j, Apply(j, step));
    }
  }
}
