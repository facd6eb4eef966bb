/**
  The trip-pack manager's job slots and waiting line, as the critical sections that its
  requests and job goroutines run under one lock.
 */
module PackScheduler {
  import opened FiniteSets
  import opened Options
  import opened Owners
  import opened PackStates

  type PackId = string

  /** What was asked for: two display labels, the work itself, and whether a marker made it. */
  datatype Input = Input(name: string, coverage: string, work: string, automatic: bool)

  datatype Manifest = Manifest(
    id: PackId, owner: Owner, input: Input, state: PackState, updated: int,
    working: bool, cancellable: bool, cancelled: bool, queueSeq: nat, deleted: bool)

  /** Where one job goroutine stands between two critical sections. */
  datatype Phase =
    | Begun(handle: nat)       // launched; its first update is still to come
    | Working(handle: nat)
    | Ending(handle: nat)      // its work is over; it still holds the slot
    | Starting                 // about to look for a waiting pack
    | Estimating(handle: nat)  // reserved a slot for a waiting pack

  /** Handles stand for references to manifests: a goroutine's handle can outlive the table entry. */
  datatype State = State(
    table: map<PackId, nat>,
    manifests: seq<Manifest>,
    queueSeq: nat,
    stopping: bool,
    workers: map<nat, Phase>,
    launched: nat)

  const MAX_ACTIVE_PACK_JOBS := 2
  const MAX_QUEUED_PACK_JOBS := 48
  const MAX_OWNER_PACK_JOBS := 16
  const MAX_PENDING_PACK_JOBS := MAX_ACTIVE_PACK_JOBS + MAX_QUEUED_PACK_JOBS
  const NO_MANIFEST := Manifest("", Local, Input("", "", "", false), Incomplete, 0, false, false, false, 0, true)

  function OwnerPackJobLimit(owner: Owner): nat {
    if owner == Local then MAX_PENDING_PACK_JOBS else MAX_OWNER_PACK_JOBS
  }

  // --------------------------------------------------------------- reading the table

  function Of(s: State, h: nat): Manifest { if h < |s.manifests| then s.manifests[h] else NO_MANIFEST }

  function At(s: State, id: PackId): Manifest { if id in s.table then Of(s, s.table[id]) else NO_MANIFEST }

  predicate HoldsSlot(m: Manifest) { m.working || m.state.Running? }

  predicate IsActive(m: Manifest) { m.working || m.state.Queued? || m.state.Running? }

  predicate IsWaiting(m: Manifest) { m.state.Queued? && !m.working }

  function Holding(s: State): set<PackId> { set id | id in s.table && HoldsSlot(At(s, id)) }

  function HoldingOf(s: State, owner: Owner): set<PackId> {
    set id | id in s.table && HoldsSlot(At(s, id)) && At(s, id).owner == owner
  }

  function Active(s: State): set<PackId> { set id | id in s.table && IsActive(At(s, id)) }

  function ActiveOf(s: State, owner: Owner): set<PackId> {
    set id | id in s.table && IsActive(At(s, id)) && At(s, id).owner == owner
  }

  /** Not launched yet: waiting, or being estimated for a slot. */
  predicate IsInLine(m: Manifest) { m.state.Queued? && !m.cancellable }

  function InLine(s: State): set<PackId> { set id | id in s.table && IsInLine(At(s, id)) }

  function Waiting(s: State): set<PackId> { set id | id in s.table && IsWaiting(At(s, id)) }

  /** Fewer running packs of its owner first, then the earlier request. */
  predicate Precedes(s: State, a: PackId, b: PackId) {
    var ra, rb := |HoldingOf(s, At(s, a).owner)|, |HoldingOf(s, At(s, b).owner)|;
    ra < rb || (ra == rb && At(s, a).queueSeq < At(s, b).queueSeq)
  }

  ghost predicate IsNext(s: State, id: PackId) {
    id in Waiting(s) && forall other :: other in Waiting(s) ==> !Precedes(s, other, id)
  }

  predicate Matches(candidate: Input, requested: Input) {
    candidate == if requested.automatic && !candidate.automatic then requested.(automatic := false) else requested
  }

  predicate SameWork(candidate: Input, requested: Input) {
    candidate.work == requested.work && candidate.automatic == requested.automatic
  }

  predicate IsMatch(s: State, owner: Owner, input: Input, id: PackId) {
    && id in s.table && At(s, id).owner == owner && !At(s, id).state.Incomplete?
    && Matches(At(s, id).input, input)
  }

  predicate IsRetry(s: State, owner: Owner, input: Input, id: PackId) {
    && id in s.table && At(s, id).owner == owner && At(s, id).state.Incomplete?
    && SameWork(At(s, id).input, input)
  }

  ghost predicate IsNewestRetry(s: State, owner: Owner, input: Input, id: PackId) {
    && IsRetry(s, owner, input, id)
    && forall other :: IsRetry(s, owner, input, other) ==> At(s, other).updated <= At(s, id).updated
  }

  // ------------------------------------------------------------- critical sections

  function Put(s: State, h: nat, m: Manifest): State {
    if h < |s.manifests| then s.(manifests := s.manifests[h := m]) else s
  }

  predicate HasRoom(s: State, owner: Owner) {
    |Active(s)| < MAX_PENDING_PACK_JOBS && |ActiveOf(s, owner)| < OwnerPackJobLimit(owner)
  }

  /** A new download joins the table: at work at once if a slot is free, else in line. */
  function Add(s: State, id: PackId, owner: Owner, input: Input, now: int): State {
    var h := |s.manifests|;
    var m := Manifest(id, owner, input, Queued, now, false, false, false, 0, false);
    if |Holding(s)| < MAX_ACTIVE_PACK_JOBS then
      s.(table := s.table[id := h], manifests := s.manifests + [m.(working := true, cancellable := true)],
         workers := s.workers[s.launched := Begun(h)], launched := s.launched + 1)
    else
      s.(table := s.table[id := h], manifests := s.manifests + [m.(queueSeq := s.queueSeq + 1)],
         queueSeq := s.queueSeq + 1)
  }

  /** Stops a pack: its job is told to, or it leaves the line. */
  function Cancel(s: State, id: PackId, now: int): State
    requires id in s.table
  {
    var m := At(s, id);
    if m.cancellable then Put(s, s.table[id], m.(cancelled := true))
    else if m.state.Queued? then Put(s, s.table[id], m.(state := Incomplete, updated := now))
    else s
  }

  function Delete(s: State, id: PackId): State
    requires id in s.table
  {
    var m := At(s, id);
    Put(s, s.table[id], m.(deleted := true, cancelled := m.cancelled || m.cancellable)).(table := s.table - {id})
  }

  /** The job's first update: it is running, unless it was deleted or cannot be saved. */
  function BeginRun(s: State, g: nat, now: int, saved: bool): State
    requires g in s.workers && s.workers[g].Begun?
  {
    var h := s.workers[g].handle;
    var m := Of(s, h);
    if m.deleted then s.(workers := s.workers[g := Ending(h)])
    else if saved then Put(s, h, m.(state := Running, updated := now)).(workers := s.workers[g := Working(h)])
    else
      Put(s, h, m.(state := Incomplete, cancelled := true, cancellable := false, updated := now))
      .(workers := s.workers[g := Ending(h)])
  }

  /** A limit, a storage error or a stop: the pack is incomplete while its workers wind down. */
  function StopRun(s: State, g: nat, now: int, unsaved: bool): State
    requires g in s.workers && s.workers[g].Working?
  {
    var h := s.workers[g].handle;
    var m := Of(s, h);
    if m.deleted then s
    else
      var cancelled := m.cancelled || (unsaved && m.cancellable);
      Put(s, h, m.(state := Incomplete, cancelled := cancelled, cancellable := false, updated := now))
  }

  /** The job's last update; it looks at the progress alone, not at the state. */
  function EndRun(s: State, g: nat, now: int, complete: bool): State
    requires g in s.workers && s.workers[g].Working?
  {
    var h := s.workers[g].handle;
    var m := Of(s, h);
    var ended := s.(workers := s.workers[g := Ending(h)]);
    if m.deleted then ended
    else
      Put(ended, h, m.(state := if complete then Complete else Incomplete, cancellable := false, updated := now))
  }

  function Release(s: State, g: nat): State
    requires g in s.workers && s.workers[g].Ending?
  {
    var h := s.workers[g].handle;
    Put(s, h, Of(s, h).(working := false)).(workers := s.workers[g := Starting])
  }

  predicate NothingToStart(s: State) { s.stopping || |Holding(s)| >= MAX_ACTIVE_PACK_JOBS || Waiting(s) == {} }

  function Reserve(s: State, g: nat, id: PackId): State
    requires g in s.workers && id in s.table
  {
    Put(s, s.table[id], At(s, id).(working := true)).(workers := s.workers[g := Estimating(s.table[id])])
  }

  function LeaveStarting(s: State, g: nat): State { s.(workers := s.workers - {g}) }

  /** The re-estimated pack is launched, refused, or was taken back meanwhile. */
  function Admit(s: State, g: nat, now: int, admissible: bool): State
    requires g in s.workers && s.workers[g].Estimating?
  {
    var h := s.workers[g].handle;
    var m := Of(s, h);
    var looking := s.(workers := s.workers[g := Starting]);
    if m.deleted || !m.state.Queued? || s.stopping then Put(looking, h, m.(working := false))
    else if !admissible then Put(looking, h, m.(working := false, state := Incomplete, updated := now))
    else
      Put(looking, h, m.(cancellable := true))
      .(workers := looking.workers[s.launched := Begun(h)], launched := s.launched + 1)
  }

  // ----------------------------------------------------------------- the invariant

  ghost predicate EntryFits(m: Manifest, id: PackId) {
    m.id == id && !m.deleted && (m.state.Running? ==> m.working) && (IsWaiting(m) ==> IsInLine(m))
  }

  ghost predicate TableFits(table: map<PackId, nat>, manifests: seq<Manifest>) {
    forall id :: id in table ==> table[id] < |manifests| && EntryFits(manifests[table[id]], id)
  }

  ghost predicate PhaseFits(m: Manifest, phase: Phase) {
    && m.working
    && match phase
       case Begun(_) => m.deleted || (m.state.Queued? && m.cancellable)
       case Working(_) => m.deleted || m.state.Running? || m.state.Incomplete?
       case Ending(_) => m.deleted || ((m.state.Complete? || m.state.Incomplete?) && !m.cancellable)
       case Estimating(_) => m.deleted || ((m.state.Queued? || m.state.Incomplete?) && !m.cancellable)
       case Starting => true
  }

  ghost predicate WorkersFit(workers: map<nat, Phase>, manifests: seq<Manifest>, launched: nat) {
    && (forall g :: g in workers ==> g < launched)
    && (forall g :: g in workers && !workers[g].Starting? ==>
          workers[g].handle < |manifests| && PhaseFits(manifests[workers[g].handle], workers[g]))
    && (forall f, g :: f in workers && g in workers && f != g && !workers[f].Starting? && !workers[g].Starting? ==>
          workers[f].handle != workers[g].handle)
  }

  predicate Holds(workers: map<nat, Phase>, g: nat, h: nat) {
    g in workers && !workers[g].Starting? && workers[g].handle == h
  }

  /** Every slot in the table is held by a live goroutine. */
  ghost predicate SlotsHeld(table: map<PackId, nat>, manifests: seq<Manifest>, workers: map<nat, Phase>) {
    forall id :: id in table && table[id] < |manifests| && manifests[table[id]].working ==>
      exists g :: Holds(workers, g, table[id])
  }

  /** Packs in line were numbered in the order they joined it. */
  ghost predicate LineNumbered(s: State) {
    && (forall id :: id in InLine(s) ==> At(s, id).queueSeq <= s.queueSeq)
    && (forall a, b :: a in InLine(s) && b in InLine(s) && a != b ==> At(s, a).queueSeq != At(s, b).queueSeq)
  }

  ghost predicate Bounded(s: State) {
    && |Holding(s)| <= MAX_ACTIVE_PACK_JOBS
    && |Active(s)| <= MAX_PENDING_PACK_JOBS
    && forall owner :: |ActiveOf(s, owner)| <= OwnerPackJobLimit(owner)
  }

  /** This goroutine is still to run, or to finish, its search for a waiting pack - even
      if every pack now holding a slot keeps it for ever. */
  ghost predicate WillLook(s: State, g: nat) {
    && g in s.workers
    && match s.workers[g]
       case Starting => true
       case Estimating(_) => true
       case p => p.handle < |s.manifests| && s.manifests[p.handle].deleted
  }

  /** No lost wakeup: a pack waits beside a free slot only while someone is to look. */
  ghost predicate NoneForgotten(s: State) { NothingToStart(s) || exists g :: WillLook(s, g) }

  ghost predicate Fits(s: State) {
    && TableFits(s.table, s.manifests)
    && WorkersFit(s.workers, s.manifests, s.launched)
    && SlotsHeld(s.table, s.manifests, s.workers)
  }

  ghost predicate Inv(s: State) { Fits(s) && LineNumbered(s) && Bounded(s) && NoneForgotten(s) }

  /** A freshly loaded table: every earlier download is complete or interrupted. */
  ghost predicate Loaded(s: State) {
    && TableFits(s.table, s.manifests)
    && (forall id :: id in s.table ==> !IsActive(At(s, id)))
    && s.workers == map[] && !s.stopping
  }

  lemma LoadedIsInv(s: State)
    requires Loaded(s)
    ensures Inv(s)
  {
    assert Holding(s) == {} && Active(s) == {} && Waiting(s) == {} && InLine(s) == {};
    assert forall owner :: ActiveOf(s, owner) == {};
  }

  // -------------------------------------------------------- the bounds and the line

  /** `now` takes no place in any count that `was` did not take. */
  predicate Calmer(now: Manifest, was: Manifest) {
    && now.owner == was.owner && now.queueSeq == was.queueSeq
    && (HoldsSlot(now) ==> HoldsSlot(was)) && (IsActive(now) ==> IsActive(was)) && (IsInLine(now) ==> IsInLine(was))
  }

  /** Steps that only give places back keep the bounds and the line. */
  lemma CalmerKeepsCounts(s: State, t: State)
    requires LineNumbered(s) && Bounded(s) && t.queueSeq == s.queueSeq
    requires t.table.Keys <= s.table.Keys
    requires forall id :: id in t.table ==> Calmer(At(t, id), At(s, id))
    ensures LineNumbered(t) && Bounded(t)
  {
    SubsetSize(Holding(t), Holding(s));
    SubsetSize(Active(t), Active(s));
    forall owner
      ensures |ActiveOf(t, owner)| <= OwnerPackJobLimit(owner)
    {
      SubsetSize(ActiveOf(t, owner), ActiveOf(s, owner));
    }
  }

  /** The rest of the table looks as it did. */
  ghost predicate OthersSame(s: State, t: State, id: PackId) {
    && t.table.Keys == s.table.Keys + {id}
    && forall other :: other != id ==> At(t, other) == At(s, other)
  }

  lemma OneMoreSets(s: State, t: State, id: PackId, owner: Owner)
    requires OthersSame(s, t, id)
    ensures Holding(t) <= Holding(s) + if HoldsSlot(At(t, id)) then {id} else {}
    ensures Active(t) <= Active(s) + {id}
    ensures ActiveOf(t, owner) <= ActiveOf(s, owner) + if owner == At(t, id).owner then {id} else {}
  {
    hide At, HoldsSlot, IsActive;
  }

  lemma {:induction false} OneMoreSize<T>(more: set<T>, some: set<T>, one: T)
    requires more <= some + {one}
    ensures |more| <= |some| + 1
    ensures one in some || more <= some ==> |more| <= |some|
  {
    SubsetSize(more, some + {one});
    if one in some || more <= some { SubsetSize(more, some); }
  }

  lemma OneMoreOfOwner(s: State, t: State, id: PackId, owner: Owner)
    requires Bounded(s) && OthersSame(s, t, id)
    requires id in ActiveOf(s, At(t, id).owner) || HasRoom(s, At(t, id).owner)
    ensures |ActiveOf(t, owner)| <= OwnerPackJobLimit(owner)
  {
    hide Of, At, Holding, Active, ActiveOf, OthersSame, OwnerPackJobLimit;
    OneMoreSets(s, t, id, owner);
    OneMoreSize(ActiveOf(t, owner), ActiveOf(s, owner), id);
  }

  /** A place taken by one pack fits when there was room for it. */
  lemma OneMoreIsBounded(s: State, t: State, id: PackId)
    requires Bounded(s) && OthersSame(s, t, id)
    requires id in ActiveOf(s, At(t, id).owner) || HasRoom(s, At(t, id).owner)
    requires HoldsSlot(At(t, id)) ==> id in Holding(s) || |Holding(s)| < MAX_ACTIVE_PACK_JOBS
    ensures Bounded(t)
  {
    assert id in ActiveOf(s, At(t, id).owner) ==> id in Active(s);
    hide Of, At, HoldsSlot, IsActive, Holding, Active, ActiveOf, OthersSame, OwnerPackJobLimit;
    OneMoreSets(s, t, id, At(t, id).owner);
    OneMoreSize(Holding(t), Holding(s), id);
    OneMoreSize(Active(t), Active(s), id);
    forall owner
      ensures |ActiveOf(t, owner)| <= OwnerPackJobLimit(owner)
    {
      OneMoreOfOwner(s, t, id, owner);
    }
  }

  lemma AddAt(s: State, id: PackId, owner: Owner, input: Input, now: int)
    requires TableFits(s.table, s.manifests)
    ensures var t := Add(s, id, owner, input, now);
            && OthersSame(s, t, id) && id in t.table && At(t, id).owner == owner
            && At(t, id).state == Queued && At(t, id).cancellable == At(t, id).working
            && (if |Holding(s)| < MAX_ACTIVE_PACK_JOBS then At(t, id).working && t.queueSeq == s.queueSeq
                else !At(t, id).working && t.queueSeq == s.queueSeq + 1 == At(t, id).queueSeq)
  {
    hide EntryFits;
    var t := Add(s, id, owner, input, now);
    forall other | other != id
      ensures At(t, other) == At(s, other)
    {
    }
  }

  /** One more pack is active, within its owner's share and the whole. */
  lemma AddKeepsCounts(s: State, id: PackId, owner: Owner, input: Input, now: int)
    requires TableFits(s.table, s.manifests) && LineNumbered(s) && Bounded(s)
    requires HasRoom(s, owner) && !IsActive(At(s, id))
    ensures LineNumbered(Add(s, id, owner, input, now)) && Bounded(Add(s, id, owner, input, now))
  {
    hide Add, At, TableFits, Bounded, HasRoom;
    var t := Add(s, id, owner, input, now);
    AddAt(s, id, owner, input, now);
    OneMoreIsBounded(s, t, id);
  }

  lemma ReserveKeepsCounts(s: State, g: nat, id: PackId)
    requires TableFits(s.table, s.manifests) && LineNumbered(s) && Bounded(s)
    requires g in s.workers && id in Waiting(s) && |Holding(s)| < MAX_ACTIVE_PACK_JOBS
    ensures LineNumbered(Reserve(s, g, id)) && Bounded(Reserve(s, g, id))
  {
    hide Bounded;
    var t := Reserve(s, g, id);
    forall other | other != id
      ensures At(t, other) == At(s, other)
    {
      assert other in s.table ==> EntryFits(s.manifests[s.table[other]], other);
      assert EntryFits(s.manifests[s.table[id]], id);
    }
    OneMoreIsBounded(s, t, id);
    assert InLine(t) <= InLine(s);
  }

  // ------------------------------------------------------------ every section keeps it

  /** One changed manifest still fits its place in the table. */
  lemma PutTableFits(table: map<PackId, nat>, manifests: seq<Manifest>, h: nat, m: Manifest)
    requires TableFits(table, manifests) && h < |manifests| && m.id == manifests[h].id
    requires EntryFits(manifests[h], m.id) ==> EntryFits(m, m.id)
    ensures TableFits(table, manifests[h := m])
  {
    hide IsWaiting, IsInLine;
    forall id | id in table
      ensures table[id] < |manifests| && EntryFits(manifests[h := m][table[id]], id)
    {
      assert EntryFits(manifests[table[id]], id);
    }
  }

  /** Slots stay held when every goroutine keeps its handle and no new slot is taken. */
  lemma PutSlotsHeld(table: map<PackId, nat>, manifests: seq<Manifest>, h: nat, m: Manifest,
                     before: map<nat, Phase>, after: map<nat, Phase>)
    requires SlotsHeld(table, manifests, before) && h < |manifests| && (m.working ==> manifests[h].working)
    requires forall g, k :: Holds(before, g, k) && (k != h || m.working) ==> Holds(after, g, k)
    ensures SlotsHeld(table, manifests[h := m], after)
  {
    hide Holds;
    forall id | id in table && table[id] < |manifests| && manifests[h := m][table[id]].working
      ensures exists g :: Holds(after, g, table[id])
    {
      var g :| Holds(before, g, table[id]);
      assert Holds(after, g, table[id]);
    }
  }

  /** A job moves on, keeping its slot. */
  ghost predicate JobMoves(s: State, t: State, g: nat) {
    && g in s.workers && !s.workers[g].Starting? && s.workers[g].handle < |s.manifests|
    && g in t.workers && Holds(t.workers, g, s.workers[g].handle)
    && var h := s.workers[g].handle;
       && |t.manifests| == |s.manifests|
       && t == s.(manifests := s.manifests[h := t.manifests[h]], workers := s.workers[g := t.workers[g]])
       && t.manifests[h].id == s.manifests[h].id && t.manifests[h].deleted == s.manifests[h].deleted
       && Calmer(t.manifests[h], s.manifests[h]) && PhaseFits(t.manifests[h], t.workers[g])
  }

  lemma JobMovesFits(s: State, t: State, g: nat)
    requires Fits(s) && JobMoves(s, t, g) && !s.workers[g].Estimating?
    ensures Fits(t)
    ensures forall id :: id in t.table ==> Calmer(At(t, id), At(s, id))
    ensures Holding(t) == Holding(s) && Waiting(t) <= Waiting(s)
  {
    var h := s.workers[g].handle;
    var m := t.manifests[h];
    assert PhaseFits(s.manifests[h], s.workers[g]);
    assert Fits(t) by {
      PutTableFits(s.table, s.manifests, h, m);
      PutSlotsHeld(s.table, s.manifests, h, m, s.workers, t.workers);
    }
  }

  lemma JobMovesKeepsInv(s: State, t: State, g: nat)
    requires Inv(s) && JobMoves(s, t, g) && !s.workers[g].Estimating?
    ensures Inv(t)
  {
    hide TableFits, WorkersFit, SlotsHeld, LineNumbered, Bounded;
    JobMovesFits(s, t, g);
    CalmerKeepsCounts(s, t);
    if exists f :: WillLook(s, f) {
      var f :| WillLook(s, f);
      assert WillLook(t, f);
    }
  }

  /** A job ends and turns to the waiting line, its slot given back. */
  ghost predicate JobLeaves(s: State, t: State, g: nat) {
    && g in s.workers && !s.workers[g].Starting? && s.workers[g].handle < |s.manifests|
    && var h := s.workers[g].handle;
       && |t.manifests| == |s.manifests|
       && t == s.(manifests := s.manifests[h := t.manifests[h]], workers := s.workers[g := Starting])
       && t.manifests[h].id == s.manifests[h].id && t.manifests[h].deleted == s.manifests[h].deleted
       && Calmer(t.manifests[h], s.manifests[h]) && !t.manifests[h].working
       && (t.manifests[h].deleted || (!t.manifests[h].state.Running? && !t.manifests[h].cancellable))
  }

  lemma JobLeavesKeepsInv(s: State, t: State, g: nat)
    requires Inv(s) && JobLeaves(s, t, g)
    ensures Inv(t)
  {
    JobLeavesFits(s, t, g);
    CalmerKeepsCounts(s, t);
    assert WillLook(t, g);
  }

  lemma JobLeavesFits(s: State, t: State, g: nat)
    requires Fits(s) && JobLeaves(s, t, g)
    ensures Fits(t)
    ensures forall id :: id in t.table ==> Calmer(At(t, id), At(s, id))
  {
    var h := s.workers[g].handle;
    PutTableFits(s.table, s.manifests, h, t.manifests[h]);
    PutSlotsHeld(s.table, s.manifests, h, t.manifests[h], s.workers, t.workers);
  }

  lemma CancelKeepsInv(s: State, id: PackId, now: int)
    requires Inv(s) && id in s.table
    ensures Inv(Cancel(s, id, now))
  {
    hide WorkersFit, SlotsHeld, LineNumbered, Bounded;
    var t := Cancel(s, id, now);
    CancelFits(s, id, now);
    CalmerKeepsCounts(s, t);
    assert Holding(t) == Holding(s) && Waiting(t) <= Waiting(s);
    if exists f :: WillLook(s, f) {
      var f :| WillLook(s, f);
      assert WillLook(t, f);
    }
  }

  lemma CancelFits(s: State, id: PackId, now: int)
    requires Fits(s) && id in s.table
    ensures Fits(Cancel(s, id, now))
    ensures var t := Cancel(s, id, now);
            forall other :: other in t.table ==>
              Calmer(At(t, other), At(s, other)) && HoldsSlot(At(t, other)) == HoldsSlot(At(s, other)) &&
              (IsWaiting(At(t, other)) ==> IsWaiting(At(s, other)))
  {
    var t := Cancel(s, id, now);
    var h := s.table[id];
    assert EntryFits(s.manifests[h], id);
    if t != s {
      PutTableFits(s.table, s.manifests, h, t.manifests[h]);
      PutSlotsHeld(s.table, s.manifests, h, t.manifests[h], s.workers, t.workers);
    }
  }

  lemma DeleteKeepsInv(s: State, id: PackId)
    requires Inv(s) && id in s.table
    ensures Inv(Delete(s, id))
  {
    hide WorkersFit, LineNumbered, Bounded;
    var t := Delete(s, id);
    DeleteFits(s, id);
    CalmerKeepsCounts(s, t);
    assert Waiting(t) <= Waiting(s);
    if At(s, id).working {
      var f :| Holds(s.workers, f, s.table[id]);
      assert WillLook(t, f);
    } else {
      assert EntryFits(s.manifests[s.table[id]], id);
      assert Holding(t) == Holding(s);
      if exists f :: WillLook(s, f) {
        var f :| WillLook(s, f);
        assert WillLook(t, f);
      }
    }
  }

  lemma DeleteFits(s: State, id: PackId)
    requires Fits(s) && id in s.table
    ensures Fits(Delete(s, id))
    ensures var t := Delete(s, id);
            && t.table.Keys == s.table.Keys - {id}
            && forall other :: other in t.table ==> At(t, other) == At(s, other) && Calmer(At(t, other), At(s, other))
  {
    var t := Delete(s, id);
    var h := s.table[id];
    assert EntryFits(s.manifests[h], id);
    assert forall k :: 0 <= k < |t.manifests| && k != h ==> t.manifests[k] == s.manifests[k];
    forall other | other in t.table
      ensures t.table[other] < |t.manifests| && t.table[other] != h && EntryFits(t.manifests[t.table[other]], other)
    {
      assert EntryFits(s.manifests[s.table[other]], other);
    }
    forall other | other in t.table && t.manifests[t.table[other]].working
      ensures exists f :: Holds(t.workers, f, t.table[other])
    {
      assert s.manifests[s.table[other]].working;
    }
  }

  lemma LeaveStartingKeepsInv(s: State, g: nat)
    requires Inv(s) && g in s.workers && s.workers[g].Starting? && NothingToStart(s)
    ensures Inv(LeaveStarting(s, g))
  {
    hide EntryFits, PhaseFits, LineNumbered, Bounded;
    var t := LeaveStarting(s, g);
    assert forall id :: At(t, id) == At(s, id);
    assert Holding(t) == Holding(s) && Waiting(t) == Waiting(s);
    CalmerKeepsCounts(s, t);
    forall id | id in t.table && t.manifests[t.table[id]].working
      ensures exists f :: Holds(t.workers, f, t.table[id])
    {
      var f :| Holds(s.workers, f, s.table[id]);
      assert Holds(t.workers, f, t.table[id]);
    }
  }

  lemma ReserveKeepsInv(s: State, g: nat, id: PackId)
    requires Inv(s) && g in s.workers && s.workers[g].Starting? && !NothingToStart(s) && id in Waiting(s)
    ensures Inv(Reserve(s, g, id))
  {
    hide WorkersFit, SlotsHeld, LineNumbered, Bounded;
    var t := Reserve(s, g, id);
    ReserveFits(s, g, id);
    ReserveKeepsCounts(s, g, id);
    assert WillLook(t, g);
  }

  lemma ReserveFits(s: State, g: nat, id: PackId)
    requires Fits(s) && g in s.workers && s.workers[g].Starting? && id in Waiting(s)
    ensures Fits(Reserve(s, g, id))
  {
    var t := Reserve(s, g, id);
    var h := s.table[id];
    assert EntryFits(s.manifests[h], id);
    assert forall k :: 0 <= k < |t.manifests| && k != h ==> t.manifests[k] == s.manifests[k];
    forall other | other in t.table
      ensures t.table[other] < |t.manifests| && EntryFits(t.manifests[t.table[other]], other)
    {
      assert EntryFits(s.manifests[s.table[other]], other);
    }
    assert Holds(t.workers, g, h);
    forall other | other in t.table && other != id && t.manifests[t.table[other]].working
      ensures exists f :: Holds(t.workers, f, t.table[other])
    {
      assert EntryFits(s.manifests[s.table[other]], other);
      assert s.manifests[s.table[other]].working;
      var f :| Holds(s.workers, f, s.table[other]);
      assert Holds(t.workers, f, t.table[other]);
    }
  }

  lemma AddKeepsInv(s: State, id: PackId, owner: Owner, input: Input, now: int)
    requires Inv(s) && HasRoom(s, owner) && !IsActive(At(s, id))
    ensures Inv(Add(s, id, owner, input, now))
  {
    hide TableFits, WorkersFit, SlotsHeld, LineNumbered, Bounded, NoneForgotten, Add;
    AddFits(s, id, owner, input, now);
    AddKeepsCounts(s, id, owner, input, now);
    AddForgetsNone(s, id, owner, input, now);
  }

  lemma AddForgetsNone(s: State, id: PackId, owner: Owner, input: Input, now: int)
    requires Fits(s) && NoneForgotten(s) && !IsActive(At(s, id))
    ensures NoneForgotten(Add(s, id, owner, input, now))
  {
    hide EntryFits, PhaseFits, SlotsHeld;
    var t := Add(s, id, owner, input, now);
    if exists f :: WillLook(s, f) {
      var f :| WillLook(s, f);
      KnownWorker(s, f);
      assert WillLook(t, f);
    } else {
      hide Add, At, TableFits, WorkersFit;
      AddAt(s, id, owner, input, now);
      if |Holding(s)| < MAX_ACTIVE_PACK_JOBS {
        assert Waiting(t) <= Waiting(s);
      } else {
        assert Holding(t) == Holding(s);
      }
      assert t.stopping == s.stopping by { AddStops(s, id, owner, input, now); }
    }
  }

  lemma AddStops(s: State, id: PackId, owner: Owner, input: Input, now: int)
    ensures Add(s, id, owner, input, now).stopping == s.stopping
  {
  }

  lemma KnownWorker(s: State, g: nat)
    requires Fits(s) && g in s.workers
    ensures g < s.launched
    ensures !s.workers[g].Starting? ==> s.workers[g].handle < |s.manifests|
  {
  }

  lemma AddFits(s: State, id: PackId, owner: Owner, input: Input, now: int)
    requires Fits(s)
    ensures Fits(Add(s, id, owner, input, now))
  {
    hide Holding;
    var t := Add(s, id, owner, input, now);
    var h := |s.manifests|;
    assert forall k :: 0 <= k < h ==> t.manifests[k] == s.manifests[k];
    forall other | other in t.table
      ensures t.table[other] < |t.manifests| && EntryFits(t.manifests[t.table[other]], other)
    {
      if other != id {
        assert EntryFits(s.manifests[s.table[other]], other);
      } else {
        NewEntryFits(t.manifests[h], id);
      }
    }
    assert WorkersFit(t.workers, t.manifests, t.launched) by { NewJobFits(s, t); }
    AddSlotsHeld(s, id, owner, input, now);
  }

  lemma NewEntryFits(m: Manifest, id: PackId)
    requires m.id == id && !m.deleted && m.state.Queued? && m.cancellable == m.working
    ensures EntryFits(m, id)
  {
  }

  lemma NewJobFits(s: State, t: State)
    requires WorkersFit(s.workers, s.manifests, s.launched)
    requires s.manifests <= t.manifests && s.launched <= t.launched
    requires || t.workers == s.workers
             || (&& |t.manifests| == |s.manifests| + 1 && t.launched == s.launched + 1
                 && t.workers == s.workers[s.launched := Begun(|s.manifests|)]
                 && PhaseFits(t.manifests[|s.manifests|], Begun(|s.manifests|)))
    ensures WorkersFit(t.workers, t.manifests, t.launched)
  {
    hide PhaseFits;
  }

  lemma AddSlotsHeld(s: State, id: PackId, owner: Owner, input: Input, now: int)
    requires Fits(s)
    ensures var t := Add(s, id, owner, input, now); SlotsHeld(t.table, t.manifests, t.workers)
  {
    hide Holding, WorkersFit, EntryFits;
    var t := Add(s, id, owner, input, now);
    forall other | other in t.table && t.manifests[t.table[other]].working
      ensures exists f :: Holds(t.workers, f, t.table[other])
    {
      if other == id {
        assert Holds(t.workers, s.launched, |s.manifests|);
      } else {
        assert t.manifests[t.table[other]] == s.manifests[s.table[other]];
        var f :| Holds(s.workers, f, s.table[other]);
        KnownWorker(s, f);
        assert Holds(t.workers, f, t.table[other]);
      }
    }
  }

  /** Launching a re-estimated pack: the job takes over the reserved slot. */
  lemma LaunchKeepsInv(s: State, g: nat, now: int)
    requires Inv(s) && g in s.workers && s.workers[g].Estimating?
    requires var m := s.manifests[s.workers[g].handle]; !m.deleted && m.state.Queued? && !s.stopping
    ensures Inv(Admit(s, g, now, true))
  {
    hide WorkersFit, SlotsHeld, LineNumbered, Bounded;
    KnownWorker(s, g);
    var t := Admit(s, g, now, true);
    LaunchFits(s, g, now);
    CalmerKeepsCounts(s, t);
    assert WillLook(t, g);
  }

  lemma LaunchFits(s: State, g: nat, now: int)
    requires Fits(s) && g in s.workers && s.workers[g].Estimating?
    requires var m := s.manifests[s.workers[g].handle]; !m.deleted && m.state.Queued? && !s.stopping
    ensures Fits(Admit(s, g, now, true))
    ensures var t := Admit(s, g, now, true); forall id :: id in t.table ==> Calmer(At(t, id), At(s, id))
  {
    var t := Admit(s, g, now, true);
    var h := s.workers[g].handle;
    var m := t.manifests[h];
    assert PhaseFits(s.manifests[h], s.workers[g]);
    PutTableFits(s.table, s.manifests, h, m);
    LaunchSlotsHeld(s, t, g);
    hide SlotsHeld;
  }

  /** The new goroutine holds what the one that reserved the slot held. */
  lemma LaunchSlotsHeld(s: State, t: State, g: nat)
    requires SlotsHeld(s.table, s.manifests, s.workers) && t.table == s.table && |t.manifests| == |s.manifests|
    requires forall k :: 0 <= k < |s.manifests| && t.manifests[k].working ==> s.manifests[k].working
    requires g in s.workers && s.workers[g].Estimating? && s.launched !in s.workers
    requires t.workers == s.workers[g := Starting][s.launched := Begun(s.workers[g].handle)]
    ensures SlotsHeld(t.table, t.manifests, t.workers)
  {
    forall id | id in t.table && t.table[id] < |t.manifests| && t.manifests[t.table[id]].working
      ensures exists f :: Holds(t.workers, f, t.table[id])
    {
      var f :| Holds(s.workers, f, s.table[id]);
      assert Holds(t.workers, if f == g then s.launched else f, t.table[id]);
    }
  }

  lemma AdmitKeepsInv(s: State, g: nat, now: int, admissible: bool)
    requires Inv(s) && g in s.workers && s.workers[g].Estimating?
    ensures Inv(Admit(s, g, now, admissible))
  {
    hide TableFits, SlotsHeld, LineNumbered, Bounded, NoneForgotten;
    var t := Admit(s, g, now, admissible);
    var m := s.manifests[s.workers[g].handle];
    assert PhaseFits(m, s.workers[g]);
    if !m.deleted && m.state.Queued? && !s.stopping && admissible {
      LaunchKeepsInv(s, g, now);
    } else {
      JobLeavesKeepsInv(s, t, g);
    }
  }

  lemma BeginRunKeepsInv(s: State, g: nat, now: int, saved: bool)
    requires Inv(s) && g in s.workers && s.workers[g].Begun?
    ensures Inv(BeginRun(s, g, now, saved))
  {
    hide TableFits, SlotsHeld, LineNumbered, Bounded, NoneForgotten;
    var t := BeginRun(s, g, now, saved);
    var h := s.workers[g].handle;
    assert PhaseFits(s.manifests[h], s.workers[g]);
    assert t.workers == s.workers[g := t.workers[g]] && t.manifests == s.manifests[h := t.manifests[h]];
    JobMovesKeepsInv(s, t, g);
  }

  lemma StopRunKeepsInv(s: State, g: nat, now: int, unsaved: bool)
    requires Inv(s) && g in s.workers && s.workers[g].Working?
    ensures Inv(StopRun(s, g, now, unsaved))
  {
    hide TableFits, SlotsHeld, LineNumbered, Bounded, NoneForgotten;
    var t := StopRun(s, g, now, unsaved);
    var h := s.workers[g].handle;
    assert PhaseFits(s.manifests[h], s.workers[g]);
    assert t.workers == s.workers[g := t.workers[g]] && t.manifests == s.manifests[h := t.manifests[h]];
    JobMovesKeepsInv(s, t, g);
  }

  lemma EndRunKeepsInv(s: State, g: nat, now: int, complete: bool)
    requires Inv(s) && g in s.workers && s.workers[g].Working?
    ensures Inv(EndRun(s, g, now, complete))
  {
    hide TableFits, SlotsHeld, LineNumbered, Bounded, NoneForgotten;
    var t := EndRun(s, g, now, complete);
    var h := s.workers[g].handle;
    assert PhaseFits(s.manifests[h], s.workers[g]);
    assert t.workers == s.workers[g := t.workers[g]] && t.manifests == s.manifests[h := t.manifests[h]];
    JobMovesKeepsInv(s, t, g);
  }

  lemma ReleaseKeepsInv(s: State, g: nat)
    requires Inv(s) && g in s.workers && s.workers[g].Ending?
    ensures Inv(Release(s, g))
  {
    hide TableFits, SlotsHeld, LineNumbered, Bounded, NoneForgotten;
    assert PhaseFits(s.manifests[s.workers[g].handle], s.workers[g]);
    JobLeavesKeepsInv(s, Release(s, g), g);
  }

  // -------------------------------------------------------------------- whole runs

  datatype Step =
    | Start(id: PackId, owner: Owner, input: Input, now: int)
    | Stop(id: PackId, now: int)
    | Remove(id: PackId)
    | JobBegins(g: nat, now: int, saved: bool)
    | JobStops(g: nat, now: int, unsaved: bool)
    | JobEnds(g: nat, now: int, complete: bool)
    | SlotReleased(g: nat)
    | Reserved(g: nat, id: PackId)
    | NothingReserved(g: nat)
    | Admitted(g: nat, now: int, admissible: bool)
    | Shutdown

  /** A new entry, or the next attempt of the newest matching download that has stopped. */
  ghost predicate MayAdd(s: State, id: PackId, owner: Owner, input: Input) {
    && HasRoom(s, owner)
    && (forall other :: !IsMatch(s, owner, input, other))
    && if exists other :: IsRetry(s, owner, input, other)
       then IsNewestRetry(s, owner, input, id) && !At(s, id).working
       else id !in s.table
  }

  ghost predicate Enabled(s: State, step: Step) {
    match step
    case Start(id, owner, input, _) => MayAdd(s, id, owner, input)
    case Stop(id, _) => id in s.table
    case Remove(id) => id in s.table
    case JobBegins(g, _, _) => g in s.workers && s.workers[g].Begun?
    case JobStops(g, _, _) => g in s.workers && s.workers[g].Working?
    case JobEnds(g, _, _) => g in s.workers && s.workers[g].Working?
    case SlotReleased(g) => g in s.workers && s.workers[g].Ending?
    case Reserved(g, id) => g in s.workers && s.workers[g].Starting? && !NothingToStart(s) && IsNext(s, id)
    case NothingReserved(g) => g in s.workers && s.workers[g].Starting? && NothingToStart(s)
    case Admitted(g, _, _) => g in s.workers && s.workers[g].Estimating?
    case Shutdown => true
  }

  ghost function Apply(s: State, step: Step): State
    requires Enabled(s, step)
  {
    match step
    case Start(id, owner, input, now) => Add(s, id, owner, input, now)
    case Stop(id, now) => Cancel(s, id, now)
    case Remove(id) => Delete(s, id)
    case JobBegins(g, now, saved) => BeginRun(s, g, now, saved)
    case JobStops(g, now, unsaved) => StopRun(s, g, now, unsaved)
    case JobEnds(g, now, complete) => EndRun(s, g, now, complete)
    case SlotReleased(g) => Release(s, g)
    case Reserved(g, id) => Reserve(s, g, id)
    case NothingReserved(g) => LeaveStarting(s, g)
    case Admitted(g, now, admissible) => Admit(s, g, now, admissible)
    case Shutdown => s.(stopping := true)
  }

  lemma ShutdownKeepsInv(s: State)
    requires Inv(s)
    ensures Inv(s.(stopping := true))
  {
    var t := s.(stopping := true);
    CalmerKeepsCounts(s, t);
  }

  lemma StepKeepsInv(s: State, step: Step)
    requires Inv(s) && Enabled(s, step)
    ensures Inv(Apply(s, step))
  {
    hide Inv, Fits, LineNumbered, Bounded, NoneForgotten;
    hide Add, Cancel, Delete, BeginRun, StopRun, EndRun, Release, Reserve, Admit, LeaveStarting;
    match step
    case Start(id, owner, input, now) => AddKeepsInv(s, id, owner, input, now);
    case Stop(id, now) => CancelKeepsInv(s, id, now);
    case Remove(id) => DeleteKeepsInv(s, id);
    case JobBegins(g, now, saved) => BeginRunKeepsInv(s, g, now, saved);
    case JobStops(g, now, unsaved) => StopRunKeepsInv(s, g, now, unsaved);
    case JobEnds(g, now, complete) => EndRunKeepsInv(s, g, now, complete);
    case SlotReleased(g) => ReleaseKeepsInv(s, g);
    case Reserved(g, id) => ReserveKeepsInv(s, g, id);
    case NothingReserved(g) => LeaveStartingKeepsInv(s, g);
    case Admitted(g, now, admissible) => AdmitKeepsInv(s, g, now, admissible);
    case Shutdown => ShutdownKeepsInv(s);
  }

  ghost predicate Run(states: seq<State>, steps: seq<Step>) {
    && |states| == |steps| + 1
    && Loaded(states[0])
    && forall i :: 0 <= i < |steps| ==> Enabled(states[i], steps[i]) && states[i + 1] == Apply(states[i], steps[i])
  }

  lemma {:induction false} RunKeepsInv(states: seq<State>, steps: seq<Step>, n: nat)
    requires Run(states, steps) && n <= |steps|
    ensures Inv(states[n])
  {
    hide Inv, Apply, Enabled, Loaded, Fits;
    if n == 0 {
      LoadedIsInv(states[0]);
    } else {
      RunKeepsInv(states, steps, n - 1);
      StepKeepsInv(states[n - 1], steps[n - 1]);
    }
  }

  /** At most two packs hold slots, fifty are active, and one account has sixteen of them. */
  lemma PackBounds(states: seq<State>, steps: seq<Step>, n: nat, owner: Owner)
    requires Run(states, steps) && n <= |steps|
    ensures |Holding(states[n])| <= 2 && |Active(states[n])| <= 50
    ensures owner.Account? ==> |ActiveOf(states[n], owner)| <= 16
  {
    hide Apply, Enabled, Fits, LineNumbered, NoneForgotten;
    RunKeepsInv(states, steps, n);
  }

  /** A pack waits beside a free slot only while some goroutine is still to look for it. */
  lemma NoLostWakeup(states: seq<State>, steps: seq<Step>, n: nat, id: PackId)
    requires Run(states, steps) && n <= |steps|
    requires id in Waiting(states[n]) && |Holding(states[n])| < MAX_ACTIVE_PACK_JOBS && !states[n].stopping
    ensures exists g :: WillLook(states[n], g)
  {
    hide Apply, Enabled, Fits, LineNumbered, Bounded;
    RunKeepsInv(states, steps, n);
  }

  /** When every goroutine has finished, no pack is left waiting. */
  lemma NothingWaitsForEver(states: seq<State>, steps: seq<Step>, n: nat)
    requires Run(states, steps) && n <= |steps|
    requires states[n].workers == map[] && !states[n].stopping
    ensures Waiting(states[n]) == {}
  {
    hide Apply, Enabled, LineNumbered, Bounded;
    RunKeepsInv(states, steps, n);
    var s := states[n];
    forall id | id in s.table
      ensures !HoldsSlot(At(s, id))
    {
      assert EntryFits(s.manifests[s.table[id]], id);
      assert forall g :: !Holds(s.workers, g, s.table[id]);
    }
    assert Holding(s) == {};
  }

  /** Every pack at work in the table has exactly one goroutine, so a retry never shares
      its manifest with an earlier attempt that is still stopping. */
  lemma OneGoroutinePerPack(states: seq<State>, steps: seq<Step>, n: nat, id: PackId)
    requires Run(states, steps) && n <= |steps| && id in Holding(states[n])
    ensures exists g :: Holds(states[n].workers, g, states[n].table[id])
    ensures var s := states[n];
            forall f, g :: Holds(s.workers, f, s.table[id]) && Holds(s.workers, g, s.table[id]) ==> f == g
  {
    hide Apply, Enabled, LineNumbered, Bounded, NoneForgotten;
    RunKeepsInv(states, steps, n);
    assert EntryFits(At(states[n], id), id);
  }

  /** The choice of the next pack is never a matter of map order: the line is numbered. */
  lemma NextIsUnique(s: State, a: PackId, b: PackId)
    requires TableFits(s.table, s.manifests) && LineNumbered(s) && IsNext(s, a) && IsNext(s, b)
    ensures a == b
  {
    assert a in InLine(s) && b in InLine(s) by {
      assert EntryFits(At(s, a), a) && EntryFits(At(s, b), b);
    }
  }

  /** Slots are shared fairly: nobody with fewer running packs is passed over, and one
      owner's packs start in the order they were asked for. */
  lemma FairChoice(states: seq<State>, steps: seq<Step>, n: nat, other: PackId)
    requires Run(states, steps) && n < |steps| && steps[n].Reserved?
    requires other in Waiting(states[n]) && other != steps[n].id
    ensures var s, id := states[n], steps[n].id;
            && |HoldingOf(s, At(s, id).owner)| <= |HoldingOf(s, At(s, other).owner)|
            && (At(s, id).owner == At(s, other).owner ==> At(s, id).queueSeq < At(s, other).queueSeq)
  {
    hide Apply, Bounded, NoneForgotten, WorkersFit, SlotsHeld;
    RunKeepsInv(states, steps, n);
    var s, id := states[n], steps[n].id;
    assert IsNext(s, id);
    assert EntryFits(At(s, id), id) && EntryFits(At(s, other), other);
    assert id in InLine(s) && other in InLine(s);
  }

  /** An entry whose manifest keeps its number joins no line it was not in. */
  lemma PutLine(s: State, h: nat, m: Manifest, id: PackId)
    requires m.queueSeq == Of(s, h).queueSeq && (IsInLine(m) ==> IsInLine(Of(s, h)))
    requires id in InLine(Put(s, h, m))
    ensures id in InLine(s) && At(Put(s, h, m), id).queueSeq == At(s, id).queueSeq
  {
    hide IsInLine;
  }

  lemma StartLine(s: State, step: Step, id: PackId)
    requires TableFits(s.table, s.manifests) && Enabled(s, step) && step.Start? && id in InLine(Apply(s, step))
    ensures if step.id == id then At(Apply(s, step), id).queueSeq == s.queueSeq + 1
            else id in InLine(s) && At(Apply(s, step), id).queueSeq == At(s, id).queueSeq
  {
    hide MayAdd, Holding, EntryFits;
  }

  /** Only a start puts a pack in line, with the next number; numbers in line never change. */
  lemma LineStep(s: State, step: Step, id: PackId)
    requires TableFits(s.table, s.manifests) && WorkersFit(s.workers, s.manifests, s.launched) && Enabled(s, step)
    requires id in InLine(Apply(s, step))
    ensures || (id in InLine(s) && At(Apply(s, step), id).queueSeq == At(s, id).queueSeq)
            || (step.Start? && step.id == id && At(Apply(s, step), id).queueSeq == s.queueSeq + 1)
  {
    var h := Handled(s, step);
    if step.Start? {
      StartLine(s, step, id);
    } else if h.Some? {
      var m := Of(Apply(s, step), h.value);
      HandledLine(s, step);
      hide TableFits, WorkersFit, Enabled, Apply, IsInLine, InLine;
      PutLine(s, h.value, m, id);
      SameLine(Put(s, h.value, m), Apply(s, step), id);
    } else {
      hide TableFits, WorkersFit, MayAdd;
      SameLine(s, Apply(s, step), id);
    }
  }

  lemma SameLine(s: State, t: State, id: PackId)
    requires forall other :: other in t.table ==> other in s.table && t.table[other] == s.table[other]
    requires t.manifests == s.manifests
    ensures id in InLine(t) ==> id in InLine(s) && At(t, id) == At(s, id)
  {
  }

  /** The manifest that a step changes. */
  function Handled(s: State, step: Step): Option<nat> {
    match step
    case Stop(id, _) => if id in s.table then Some(s.table[id]) else None
    case Remove(id) => if id in s.table then Some(s.table[id]) else None
    case Reserved(_, id) => if id in s.table then Some(s.table[id]) else None
    case Start(_, _, _, _) => None
    case NothingReserved(_) => None
    case Shutdown => None
    case _ => if step.g in s.workers && !s.workers[step.g].Starting? then Some(s.workers[step.g].handle) else None
  }

  lemma HandledLine(s: State, step: Step)
    requires TableFits(s.table, s.manifests) && WorkersFit(s.workers, s.manifests, s.launched) && Enabled(s, step)
    requires Handled(s, step).Some?
    ensures var t, h := Apply(s, step), Handled(s, step).value;
            && t.manifests == Put(s, h, Of(t, h)).manifests
            && (forall id :: id in t.table ==> id in s.table && t.table[id] == s.table[id])
            && Of(t, h).queueSeq == Of(s, h).queueSeq && (IsInLine(Of(t, h)) ==> IsInLine(Of(s, h)))
  {
    hide MayAdd, Holding, HoldingOf, IsNext, TableFits;
    var h := Handled(s, step).value;
    if h < |s.manifests| && step.JobBegins? { assert PhaseFits(s.manifests[h], s.workers[step.g]); }
    if h < |s.manifests| && step.JobEnds? { assert PhaseFits(s.manifests[h], s.workers[step.g]); }
    if h < |s.manifests| && step.Admitted? { assert PhaseFits(s.manifests[h], s.workers[step.g]); }
  }

  lemma RunLineStep(states: seq<State>, steps: seq<Step>, k: nat, id: PackId)
    requires Run(states, steps) && k < |steps|
    ensures states[k].queueSeq <= states[k + 1].queueSeq
    ensures id in InLine(states[k + 1]) ==>
              || (id in InLine(states[k]) && At(states[k + 1], id).queueSeq == At(states[k], id).queueSeq)
              || (id !in InLine(states[k]) && At(states[k + 1], id).queueSeq == states[k].queueSeq + 1)
  {
    hide Apply, Enabled, InLine, LineNumbered, Bounded, NoneForgotten, TableFits, WorkersFit, SlotsHeld;
    RunKeepsInv(states, steps, k);
    CounterGrows(states[k], steps[k]);
    if id in InLine(states[k + 1]) {
      LineStep(states[k], steps[k], id);
      if steps[k].Start? { StartedWasOut(states[k], steps[k]); }
    }
  }

  /** A pack in line keeps its number as long as it stays in line. */
  lemma {:induction false} NumberStays(states: seq<State>, steps: seq<Step>, m: nat, n: nat, id: PackId)
    requires Run(states, steps) && m <= n <= |steps|
    requires forall k :: m <= k <= n ==> id in InLine(states[k])
    ensures At(states[n], id).queueSeq == At(states[m], id).queueSeq
    decreases n
  {
    hide InLine, At, Apply, Enabled, Loaded;
    if m < n {
      NumberStays(states, steps, m, n - 1, id);
      RunLineStep(states, steps, n - 1, id);
      assert id in InLine(states[n - 1]) && id in InLine(states[n]);
    }
  }

  lemma StartedWasOut(s: State, step: Step)
    requires Enabled(s, step) && step.Start?
    ensures step.id !in InLine(s)
  {
  }

  /** Whatever joins the line later gets a larger number than all who were in it. */
  lemma {:induction false} LaterNumbered(states: seq<State>, steps: seq<Step>, m: nat, n: nat, id: PackId)
    requires Run(states, steps) && m <= n <= |steps|
    requires id !in InLine(states[m])
    ensures states[m].queueSeq <= states[n].queueSeq
    ensures id in InLine(states[n]) ==> states[m].queueSeq < At(states[n], id).queueSeq
    decreases n
  {
    hide InLine, At, Apply, Enabled, Loaded;
    if m < n {
      LaterNumbered(states, steps, m, n - 1, id);
      RunLineStep(states, steps, n - 1, id);
    }
  }

  lemma CounterGrows(s: State, step: Step)
    requires Enabled(s, step)
    ensures s.queueSeq <= Apply(s, step).queueSeq
  {
    hide MayAdd, Holding, HoldingOf, Waiting, IsNext;
  }

  /** First come, first served: while a pack waits, none of its owner's packs that joined
      the line after it is reserved before it. */
  lemma FirstComeFirstServed(states: seq<State>, steps: seq<Step>, m: nat, n: nat, early: PackId)
    requires Run(states, steps) && m <= n < |steps| && steps[n].Reserved?
    requires forall k :: m <= k <= n ==> early in InLine(states[k])
    requires early in Waiting(states[n]) && steps[n].id !in InLine(states[m])
    ensures At(states[n], steps[n].id).owner != At(states[n], early).owner
  {
    hide Apply, Bounded, NoneForgotten, WorkersFit, SlotsHeld, HoldingOf;
    var s, late := states[n], steps[n].id;
    RunKeepsInv(states, steps, m);
    RunKeepsInv(states, steps, n);
    NumberStays(states, steps, m, n, early);
    LaterNumbered(states, steps, m, n, late);
    assert early in InLine(states[m]);
    assert IsNext(s, late) && EntryFits(At(s, late), late);
    assert late in InLine(s) && !Precedes(s, early, late);
  }

  // ------------------------------------------------------------- cancelled while in line

  /** What a step makes of one manifest: every update of it, told apart from all others. */
  lemma ManifestStep(s: State, step: Step, h: nat)
    requires Enabled(s, step) && h < |s.manifests|
    ensures var m, n := Of(s, h), Of(Apply(s, step), h);
            && h < |Apply(s, step).manifests| && (m.cancelled ==> n.cancelled)
            && (n.state == Queued ==> m.state == Queued)
  {
    hide MayAdd, Holding, HoldingOf, NothingToStart;
    match step
    case Start(_, _, _, _) =>
    case Stop(_, _) =>
    case Remove(_) =>
    case Reserved(_, _) =>
    case NothingReserved(_) =>
    case Shutdown =>
    case _ => JobStepManifest(s, step, h);
  }

  lemma JobStepManifest(s: State, step: Step, h: nat)
    requires Enabled(s, step) && h < |s.manifests|
    requires step.JobBegins? || step.JobStops? || step.JobEnds? || step.SlotReleased? || step.Admitted?
    ensures var m, n := Of(s, h), Of(Apply(s, step), h);
            && h < |Apply(s, step).manifests| && (m.cancelled ==> n.cancelled)
            && (n.state == Queued ==> m.state == Queued)
  {
    var k := s.workers[step.g].handle;
    assert Apply(s, step).manifests == Put(s, k, Of(Apply(s, step), k)).manifests;
  }

  /** Nothing puts a manifest back among those that wait. */
  lemma QueuedStep(s: State, step: Step, h: nat)
    requires Enabled(s, step) && h < |s.manifests|
    ensures h < |Apply(s, step).manifests|
    ensures Of(Apply(s, step), h).state == Queued ==> Of(s, h).state == Queued
  {
    hide Apply, Enabled;
    ManifestStep(s, step, h);
  }

  lemma {:induction false} NeverQueuedAgain(states: seq<State>, steps: seq<Step>, m: nat, n: nat, h: nat)
    requires Run(states, steps) && m <= n <= |steps| && h < |states[m].manifests|
    requires Of(states[m], h).state != Queued
    ensures h < |states[n].manifests| && Of(states[n], h).state != Queued
    decreases n
  {
    hide Enabled, Apply, Loaded;
    if m < n {
      NeverQueuedAgain(states, steps, m, n - 1, h);
      QueuedStep(states[n - 1], steps[n - 1], h);
    }
  }

  /** The step starts a goroutine for this manifest. */
  predicate Launches(s: State, t: State, h: nat) {
    t.launched == s.launched + 1 && s.launched in t.workers && t.workers[s.launched] == Begun(h)
  }

  lemma LaunchIsQueued(s: State, step: Step, h: nat)
    requires WorkersFit(s.workers, s.manifests, s.launched) && Enabled(s, step)
    requires h < |s.manifests| && Launches(s, Apply(s, step), h)
    ensures Of(s, h).state == Queued
  {
    hide MayAdd, Holding, HoldingOf, Waiting, IsNext, NothingToStart, PhaseFits;
  }

  /** An attempt that was cancelled before its job began never gets a slot or a job: its
      identifier is reserved again only after a new start. */
  lemma CancelledIsNotReserved(states: seq<State>, steps: seq<Step>, m: nat, n: nat)
    requires Run(states, steps) && m < n < |steps|
    requires steps[m].Stop? && steps[m].id in InLine(states[m])
    ensures var h := states[m].table[steps[m].id];
            && !Launches(states[n], states[n + 1], h)
            && (steps[n].Reserved? && steps[n].id in states[n].table ==> states[n].table[steps[n].id] != h)
    ensures (forall k :: m < k < n ==> !(steps[k].Start? && steps[k].id == steps[m].id)) ==>
              steps[m].id !in InLine(states[n]) && !(steps[n].Reserved? && steps[n].id == steps[m].id)
  {
    hide LineNumbered, Bounded, NoneForgotten, SlotsHeld, PhaseFits, MayAdd, IsNext, HoldingOf;
    var id := steps[m].id;
    var h := states[m].table[id];
    RunKeepsInv(states, steps, m);
    RunKeepsInv(states, steps, n);
    assert h < |states[m].manifests| by { assert EntryFits(Of(states[m], h), id); }
    CancelTakesOut(states[m], id, steps[m].now);
    hide Apply, Cancel, TableFits;
    NeverQueuedAgain(states, steps, m + 1, n, h);
    if Launches(states[n], states[n + 1], h) { LaunchIsQueued(states[n], steps[n], h); }
    if forall k :: m < k < n ==> !(steps[k].Start? && steps[k].id == id) { StaysOut(states, steps, m + 1, n, id); }
    if steps[n].Reserved? { ReservedWaits(states[n], steps[n].id); }
  }

  lemma CancelTakesOut(s: State, id: PackId, now: int)
    requires id in InLine(s) && s.table[id] < |s.manifests|
    ensures var t := Cancel(s, id, now);
            id !in InLine(t) && |t.manifests| == |s.manifests| && Of(t, s.table[id]).state != Queued
  {
  }

  lemma ReservedWaits(s: State, id: PackId)
    requires IsNext(s, id) && TableFits(s.table, s.manifests)
    ensures id in InLine(s) && Of(s, s.table[id]).state == Queued
  {
    assert EntryFits(Of(s, s.table[id]), id);
  }

  lemma {:induction false} StaysOut(states: seq<State>, steps: seq<Step>, m: nat, n: nat, id: PackId)
    requires Run(states, steps) && m <= n <= |steps| && id !in InLine(states[m])
    requires forall k :: m <= k < n ==> !(steps[k].Start? && steps[k].id == id)
    ensures id !in InLine(states[n])
    decreases n
  {
    hide InLine, At, Apply, Enabled, Loaded, LineNumbered, Bounded, NoneForgotten, TableFits, WorkersFit, SlotsHeld;
    if m < n {
      StaysOut(states, steps, m, n - 1, id);
      RunKeepsInv(states, steps, n - 1);
      if id in InLine(states[n]) { LineStep(states[n - 1], steps[n - 1], id); }
    }
  }

  /** A job that was told to stop stays told. */
  lemma {:induction false} CancelledStays(states: seq<State>, steps: seq<Step>, m: nat, n: nat, h: nat)
    requires Run(states, steps) && m <= n <= |steps| && h < |states[m].manifests| && Of(states[m], h).cancelled
    ensures h < |states[n].manifests| && Of(states[n], h).cancelled
    decreases n
  {
    hide Enabled, Apply, Loaded;
    if m < n {
      CancelledStays(states, steps, m, n - 1, h);
      CancelledStep(states[n - 1], steps[n - 1], h);
    }
  }

  lemma CancelledStep(s: State, step: Step, h: nat)
    requires Enabled(s, step) && h < |s.manifests| && Of(s, h).cancelled
    ensures h < |Apply(s, step).manifests| && Of(Apply(s, step), h).cancelled
  {
    hide Apply, Enabled;
    ManifestStep(s, step, h);
  }
}
