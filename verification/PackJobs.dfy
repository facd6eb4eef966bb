/**
  The pack manager itself: a table changed under one lock, whose every critical section
  is one step of the scheduler.
 */
module PackJobs {
  import opened Options
  import opened Owners
  import opened PackScheduler
  import opened PackStates

  datatype StartResult =
    | Existing(id: PackId)
    | QueueFull
    | StillStopping
    | CallerGone
    | NotSaved
    | Launched(id: PackId)
    | InLineAs(id: PackId)

  function Count(running: map<Owner, nat>, owner: Owner): nat { if owner in running then running[owner] else 0 }

  ghost function HoldingAmong(s: State, seen: set<PackId>, owner: Owner): set<PackId> {
    set id | id in seen && HoldsSlot(At(s, id)) && At(s, id).owner == owner
  }

  lemma NothingAmongNone(s: State)
    ensures forall owner :: HoldingAmong(s, {}, owner) == {}
  {
  }

  lemma AllAmong(s: State)
    ensures forall owner :: HoldingAmong(s, s.table.Keys, owner) == HoldingOf(s, owner)
  {
  }

  function Taken(m: Manifest, owner: Owner): nat { if HoldsSlot(m) && m.owner == owner then 1 else 0 }

  lemma OneMoreAmong(s: State, seen: set<PackId>, id: PackId)
    requires id !in seen
    ensures forall owner ::
              |HoldingAmong(s, seen + {id}, owner)| == |HoldingAmong(s, seen, owner)| + Taken(At(s, id), owner)
  {
    hide At, HoldsSlot;
    forall owner
      ensures HoldingAmong(s, seen + {id}, owner) ==
              HoldingAmong(s, seen, owner) + if HoldsSlot(At(s, id)) && At(s, id).owner == owner then {id} else {}
    {
    }
  }

  /** A new manifest stands in the table: with a slot and a goroutine of its own, or last in
      line under the next number. Nothing else is different. */
  ghost predicate Joined(s: State, t: State, id: PackId, owner: Owner, input: Input, now: int, launch: bool) {
    var h := |s.manifests|;
    && t.table == s.table[id := h] && |t.manifests| == h + 1 && t.manifests[..h] == s.manifests
    && var m := t.manifests[h];
       && m.id == id && m.owner == owner && m.input == input && m.state == Queued && m.updated == now
       && m.working == m.cancellable == launch && !m.cancelled && !m.deleted
       && m.queueSeq == (if launch then 0 else s.queueSeq + 1) && t.stopping == s.stopping
       && t.queueSeq == (if launch then s.queueSeq else s.queueSeq + 1)
       && t.workers == (if launch then s.workers[s.launched := Begun(h)] else s.workers)
       && t.launched == (if launch then s.launched + 1 else s.launched)
  }

  class PackManager {
    var packs: map<PackId, nat>
    var manifests: seq<Manifest>
    var queueSeq: nat
    var stopping: bool
    ghost var workers: map<nat, Phase>
    ghost var launched: nat

    ghost function Contents(): State
      reads this
    {
      State(packs, manifests, queueSeq, stopping, workers, launched)
    }

    ghost predicate Valid()
      reads this
    {
      Inv(Contents())
    }

    function Entry(id: PackId): (m: Manifest)
      requires id in packs && packs[id] < |manifests|
      reads this`packs, this`manifests
      ensures m == At(Contents(), id)
    {
      manifests[packs[id]]
    }

    ghost predicate TableInRange()
      reads this`packs, this`manifests
    {
      forall id :: id in packs ==> packs[id] < |manifests|
    }

    /** Starts from what was loaded: earlier downloads, complete or interrupted. */
    constructor (loaded: map<PackId, nat>, saved: seq<Manifest>)
      requires Loaded(State(loaded, saved, 0, false, map[], 0))
      ensures Valid() && Loaded(Contents()) && packs == loaded && manifests == saved
    {
      packs, manifests, queueSeq, stopping := loaded, saved, 0, false;
      workers, launched := map[], 0;
      new;
      LoadedIsInv(Contents());
    }

    method RunningLocked() returns (running: nat)
      requires TableInRange()
      ensures running == |Holding(Contents())|
    {
      running := 0;
      ghost var counted: set<PackId> := {};
      var rest := packs.Keys;
      while rest != {}
        invariant rest <= packs.Keys
        invariant counted == set id | id in packs.Keys - rest && HoldsSlot(At(Contents(), id))
        invariant running == |counted|
        decreases rest
      {
        var id :| id in rest;
        rest := rest - {id};
        if HoldsSlot(Entry(id)) {
          running := running + 1;
          counted := counted + {id};
        }
      }
      assert counted == Holding(Contents());
    }

    method ActiveLocked() returns (active: nat)
      requires TableInRange()
      ensures active == |Active(Contents())|
    {
      active := 0;
      ghost var counted: set<PackId> := {};
      var rest := packs.Keys;
      while rest != {}
        invariant rest <= packs.Keys
        invariant counted == set id | id in packs.Keys - rest && IsActive(At(Contents(), id))
        invariant active == |counted|
        decreases rest
      {
        var id :| id in rest;
        rest := rest - {id};
        if IsActive(Entry(id)) {
          active := active + 1;
          counted := counted + {id};
        }
      }
      assert counted == Active(Contents());
    }

    method ActiveOwnerLocked(owner: Owner) returns (active: nat)
      requires TableInRange()
      ensures active == |ActiveOf(Contents(), owner)|
    {
      active := 0;
      ghost var counted: set<PackId> := {};
      var rest := packs.Keys;
      while rest != {}
        invariant rest <= packs.Keys
        invariant counted ==
          set id | id in packs.Keys - rest && IsActive(At(Contents(), id)) && At(Contents(), id).owner == owner
        invariant active == |counted|
        decreases rest
      {
        var id :| id in rest;
        rest := rest - {id};
        if IsActive(Entry(id)) && Entry(id).owner == owner {
          active := active + 1;
          counted := counted + {id};
        }
      }
      assert counted == ActiveOf(Contents(), owner);
    }

    /** How many packs each owner has at work. */
    method RunningPerOwner() returns (running: map<Owner, nat>)
      requires TableInRange()
      ensures forall owner :: Count(running, owner) == |HoldingOf(Contents(), owner)|
    {
      hide HoldingAmong, HoldingOf, At, HoldsSlot;
      running := map[];
      var rest := packs.Keys;
      NothingAmongNone(Contents());
      assert packs.Keys - rest == {};
      while rest != {}
        invariant rest <= packs.Keys
        invariant forall owner :: Count(running, owner) == |HoldingAmong(Contents(), packs.Keys - rest, owner)|
        decreases rest
      {
        var id :| id in rest;
        ghost var seen := packs.Keys - rest;
        rest := rest - {id};
        assert packs.Keys - rest == seen + {id};
        OneMoreAmong(Contents(), seen, id);
        var m := Entry(id);
        if HoldsSlot(m) {
          running := running[m.owner := Count(running, m.owner) + 1];
        }
      }
      AllAmong(Contents());
      assert packs.Keys - rest == packs.Keys;
    }

    /** The waiting pack to start: its owner has the fewest at work, and it waits longest. */
    method NextQueuedLocked() returns (next: Option<PackId>)
      requires TableInRange()
      ensures next.None? <==> Waiting(Contents()) == {}
      ensures next.Some? ==> IsNext(Contents(), next.value)
    {
      hide HoldingOf;
      var running := RunningPerOwner();
      next := None;
      var rest := packs.Keys;
      while rest != {}
        invariant rest <= packs.Keys
        invariant next.None? ==> forall id :: id in packs && id !in rest ==> !IsWaiting(At(Contents(), id))
        invariant next.Some? ==> next.value in Waiting(Contents())
        invariant next.Some? ==> forall id :: id in Waiting(Contents()) && id !in rest ==>
          !Precedes(Contents(), id, next.value)
        decreases rest
      {
        var id :| id in rest;
        rest := rest - {id};
        var m := Entry(id);
        if IsWaiting(m) {
          if next.None? {
            next := Some(id);
          } else {
            var best := Entry(next.value);
            var mine, least := Count(running, m.owner), Count(running, best.owner);
            if mine < least || (mine == least && m.queueSeq < best.queueSeq) {
              next := Some(id);
            }
          }
        }
      }
    }

    method MatchingPackLocked(owner: Owner, input: Input) returns (found: Option<PackId>)
      requires TableInRange()
      ensures found.Some? ==> IsMatch(Contents(), owner, input, found.value)
      ensures found.None? ==> forall id :: !IsMatch(Contents(), owner, input, id)
    {
      var rest := packs.Keys;
      while rest != {}
        invariant rest <= packs.Keys
        invariant forall id :: id in packs && id !in rest ==> !IsMatch(Contents(), owner, input, id)
        decreases rest
      {
        var id :| id in rest;
        rest := rest - {id};
        var m := Entry(id);
        if m.owner == owner && (m.state.Queued? || m.state.Running? || m.state.Complete?) && Matches(m.input, input) {
          return Some(id);
        }
      }
      return None;
    }

    method RetryPackLocked(owner: Owner, input: Input) returns (newest: Option<PackId>)
      requires TableInRange()
      ensures newest.Some? ==> IsNewestRetry(Contents(), owner, input, newest.value)
      ensures newest.None? ==> forall id :: !IsRetry(Contents(), owner, input, id)
    {
      newest := None;
      var rest := packs.Keys;
      while rest != {}
        invariant rest <= packs.Keys
        invariant newest.Some? ==> IsRetry(Contents(), owner, input, newest.value)
        invariant forall id :: id !in rest && IsRetry(Contents(), owner, input, id) ==>
          newest.Some? && At(Contents(), id).updated <= At(Contents(), newest.value).updated
        decreases rest
      {
        var id :| id in rest;
        rest := rest - {id};
        var m := Entry(id);
        if m.state.Incomplete? && m.owner == owner && SameWork(m.input, input) {
          if newest.None? || m.updated > Entry(newest.value).updated {
            newest := Some(id);
          }
        }
      }
    }

    method HasRoomLocked(owner: Owner) returns (room: bool)
      requires TableInRange()
      ensures room == HasRoom(Contents(), owner)
    {
      var active := ActiveLocked();
      var ownerActive := ActiveOwnerLocked(owner);
      room := active < MAX_PENDING_PACK_JOBS && ownerActive < OwnerPackJobLimit(owner);
    }

    /** Puts a new manifest into the table, with a slot or at the end of the line. */
    method AddLocked(id: PackId, owner: Owner, input: Input, now: int, launch: bool)
      requires launch == (|Holding(Contents())| < MAX_ACTIVE_PACK_JOBS)
      modifies this`packs, this`manifests, this`queueSeq, this`workers, this`launched
      ensures Contents() == Add(old(Contents()), id, owner, input, now)
      ensures Joined(old(Contents()), Contents(), id, owner, input, now, launch)
    {
      var m := Manifest(id, owner, input, Queued, now, launch, launch, false, 0, false);
      if launch {
        workers, launched := workers[launched := Begun(|manifests|)], launched + 1;
      } else {
        queueSeq := queueSeq + 1;
        m := m.(queueSeq := queueSeq);
      }
      packs, manifests := packs[id := |manifests|], manifests + [m];
    }

    /** The locked half of starting a download. A repeated request finds its pack, a
        stopped one is retried under its own identifier, and a new one takes `newID`. */
    method StartLocked(owner: Owner, input: Input, newID: PackId, now: int, callerGone: bool, saved: bool)
      returns (r: StartResult)
      requires Valid() && newID !in packs
      modifies this
      ensures Valid()
      ensures !r.Launched? && !r.InLineAs? ==> Contents() == old(Contents())
      ensures match r
              case Existing(id) => IsMatch(old(Contents()), owner, input, id)
              case QueueFull => !old(HasRoom(Contents(), owner))
              case StillStopping =>
                exists id :: IsNewestRetry(old(Contents()), owner, input, id) && old(At(Contents(), id)).working
              case CallerGone => callerGone
              case NotSaved => !saved
              case Launched(id) =>
                && old(MayAdd(Contents(), id, owner, input))
                && Contents() == Add(old(Contents()), id, owner, input, now)
                && Joined(old(Contents()), Contents(), id, owner, input, now, true)
                && old(|Holding(Contents())| < MAX_ACTIVE_PACK_JOBS)
              case InLineAs(id) =>
                && old(MayAdd(Contents(), id, owner, input))
                && Contents() == Add(old(Contents()), id, owner, input, now)
                && Joined(old(Contents()), Contents(), id, owner, input, now, false)
                && !old(|Holding(Contents())| < MAX_ACTIVE_PACK_JOBS)
    {
      hide EntryFits, WorkersFit, SlotsHeld, LineNumbered, Bounded, NoneForgotten;
      hide Holding, HasRoom, Matches, SameWork, Add, Joined;
      var existing := MatchingPackLocked(owner, input);
      if existing.Some? {
        return Existing(existing.value);
      }
      var room := HasRoomLocked(owner);
      if !room {
        return QueueFull;
      }
      var id := newID;
      var previous := RetryPackLocked(owner, input);
      if previous.Some? {
        if Entry(previous.value).working {
          return StillStopping;
        }
        id := previous.value;
      }
      if callerGone {
        return CallerGone;
      }
      var running := RunningLocked();
      var launch := running < MAX_ACTIVE_PACK_JOBS;
      if !saved {
        return NotSaved;
      }
      AddKeepsInv(Contents(), id, owner, input, now);
      AddLocked(id, owner, input, now, launch);
      return if launch then Launched(id) else InLineAs(id);
    }

    method CancelPack(owner: Owner, id: PackId, now: int) returns (found: bool)
      requires Valid()
      modifies this`manifests
      ensures Valid()
      ensures found <==> id in packs && old(At(Contents(), id)).owner == owner
      ensures Contents() == if found then Cancel(old(Contents()), id, now) else old(Contents())
      ensures !found ==> manifests == old(manifests)
      ensures found ==>
        var m, was := At(Contents(), id), old(At(Contents(), id));
        && manifests == old(manifests)[packs[id] := m]
        && (was.cancellable ==> m == was.(cancelled := true))
        && (!was.cancellable && was.state == Queued ==>
              m == was.(state := Incomplete, updated := now) && id !in InLine(Contents()) && id !in Waiting(Contents()))
        && (!was.cancellable && was.state != Queued ==> m == was)
    {
      hide EntryFits, WorkersFit, SlotsHeld, LineNumbered, Bounded, NoneForgotten;
      if id !in packs || Entry(id).owner != owner {
        return false;
      }
      CancelKeepsInv(Contents(), id, now);
      var h := packs[id];
      if manifests[h].cancellable {
        manifests := manifests[h := manifests[h].(cancelled := true)];
      } else if manifests[h].state.Queued? {
        manifests := manifests[h := manifests[h].(state := Incomplete, updated := now)];
      }
      found := true;
    }

    method DeletePack(owner: Owner, id: PackId) returns (found: bool)
      requires Valid()
      modifies this`manifests, this`packs
      ensures Valid()
      ensures found <==> id in old(packs) && old(At(Contents(), id)).owner == owner
      ensures Contents() == if found then Delete(old(Contents()), id) else old(Contents())
      ensures packs == (if found then old(packs) - {id} else old(packs))
      ensures !found ==> manifests == old(manifests)
      ensures found ==>
        var was := old(At(Contents(), id));
        var gone := was.(deleted := true, cancelled := was.cancelled || was.cancellable);
        manifests == old(manifests)[old(packs)[id] := gone]
    {
      hide EntryFits, WorkersFit, SlotsHeld, LineNumbered, Bounded, NoneForgotten;
      if id !in packs || Entry(id).owner != owner {
        return false;
      }
      DeleteKeepsInv(Contents(), id);
      var h := packs[id];
      var m := manifests[h];
      if m.cancellable {
        m := m.(cancelled := true);
      }
      manifests := manifests[h := m.(deleted := true)];
      packs := packs - {id};
      found := true;
    }

    /** The first section of a job goroutine. */
    method RunBegins(h: nat, ghost g: nat, now: int, saved: bool) returns (proceed: bool)
      requires Valid() && g in workers && workers[g] == Begun(h)
      modifies this
      ensures Valid() && Contents() == BeginRun(old(Contents()), g, now, saved)
      ensures proceed <==> workers[g].Working?
      ensures packs == old(packs) && queueSeq == old(queueSeq) && launched == old(launched) && stopping == old(stopping)
      ensures h < |old(manifests)| && (proceed <==> !old(manifests)[h].deleted && saved)
      ensures workers == old(workers)[g := if proceed then Working(h) else Ending(h)]
      ensures old(manifests)[h].deleted ==> manifests == old(manifests)
      ensures proceed ==> manifests == old(manifests)[h := old(manifests)[h].(state := Running, updated := now)]
      ensures !old(manifests)[h].deleted && !saved ==>
        manifests == old(manifests)[h :=
          old(manifests)[h].(state := Incomplete, cancelled := true, cancellable := false, updated := now)]
    {
      hide EntryFits, TableFits, SlotsHeld, LineNumbered, Bounded, NoneForgotten;
      BeginRunKeepsInv(Contents(), g, now, saved);
      var m := manifests[h];
      if m.deleted {
        workers := workers[g := Ending(h)];
        return false;
      }
      m := m.(state := Running, updated := now);
      if !saved {
        m := m.(state := Incomplete, cancelled := true, cancellable := false);
      }
      manifests := manifests[h := m];
      workers := workers[g := if saved then Working(h) else Ending(h)];
      proceed := saved;
    }

    /** A job that hit a limit or a stop, or whose manifest cannot be saved - which also
        cancels it. */
    method MarkIncomplete(h: nat, ghost g: nat, now: int, unsaved: bool)
      requires Valid() && g in workers && workers[g] == Working(h)
      modifies this`manifests
      ensures Valid() && Contents() == StopRun(old(Contents()), g, now, unsaved)
      ensures h < |old(manifests)| && (old(manifests)[h].deleted ==> manifests == old(manifests))
      ensures !old(manifests)[h].deleted ==>
        var was := old(manifests)[h];
        manifests == old(manifests)[h := was.(state := Incomplete, cancellable := false, updated := now,
                                              cancelled := was.cancelled || (unsaved && was.cancellable))]
    {
      hide EntryFits, TableFits, SlotsHeld, LineNumbered, Bounded, NoneForgotten;
      StopRunKeepsInv(Contents(), g, now, unsaved);
      var m := manifests[h];
      if !m.deleted {
        if unsaved && m.cancellable {
          m := m.(cancelled := true);
        }
        manifests := manifests[h := m.(state := Incomplete, cancellable := false, updated := now)];
      }
    }

    /** The last section of a job that ran to the end of its work. */
    method RunEnds(h: nat, ghost g: nat, now: int, complete: bool)
      requires Valid() && g in workers && workers[g] == Working(h)
      modifies this
      ensures Valid() && Contents() == EndRun(old(Contents()), g, now, complete)
      ensures packs == old(packs) && queueSeq == old(queueSeq) && launched == old(launched) && stopping == old(stopping)
      ensures workers == old(workers)[g := Ending(h)]
      ensures h < |old(manifests)| && (old(manifests)[h].deleted ==> manifests == old(manifests))
      ensures !old(manifests)[h].deleted ==>
        && |manifests| == |old(manifests)| && manifests == old(manifests)[h := manifests[h]]
        && manifests[h].state == (if complete then Complete else Incomplete) && !manifests[h].cancellable
        && manifests[h] == old(manifests)[h].(state := manifests[h].state, cancellable := false, updated := now)
    {
      hide EntryFits, TableFits, SlotsHeld, LineNumbered, Bounded, NoneForgotten;
      EndRunKeepsInv(Contents(), g, now, complete);
      var m := manifests[h];
      workers := workers[g := Ending(h)];
      if !m.deleted {
        var state := if complete then Complete else Incomplete;
        manifests := manifests[h := m.(state := state, cancellable := false, updated := now)];
      }
    }

    /** The deferred section: the slot is given back before the line is looked at. */
    method RunReleases(h: nat, ghost g: nat)
      requires Valid() && g in workers && workers[g] == Ending(h)
      modifies this
      ensures Valid() && Contents() == Release(old(Contents()), g)
      ensures packs == old(packs) && queueSeq == old(queueSeq) && launched == old(launched) && stopping == old(stopping)
      ensures workers == old(workers)[g := Starting]
      ensures h < |old(manifests)| && manifests == old(manifests)[h := old(manifests)[h].(working := false)]
    {
      hide EntryFits, TableFits, SlotsHeld, LineNumbered, Bounded, NoneForgotten;
      ReleaseKeepsInv(Contents(), g);
      manifests := manifests[h := manifests[h].(working := false)];
      workers := workers[g := Starting];
    }

    /** The first section of each round of `startQueued`: reserve a slot, or stop looking. */
    method ReserveNext(ghost g: nat) returns (next: Option<nat>)
      requires Valid() && g in workers && workers[g] == Starting
      modifies this
      ensures Valid()
      ensures next.None? ==> old(NothingToStart(Contents())) && Contents() == LeaveStarting(old(Contents()), g)
      ensures next.Some? ==>
        && !old(NothingToStart(Contents()))
        && exists id :: && IsNext(old(Contents()), id) && old(packs)[id] == next.value
                        && Contents() == Reserve(old(Contents()), g, id)
      ensures packs == old(packs) && queueSeq == old(queueSeq) && launched == old(launched) && stopping == old(stopping)
      ensures next.None? ==> manifests == old(manifests) && workers == old(workers) - {g}
      ensures next.Some? ==>
        && next.value < |old(manifests)| && workers == old(workers)[g := Estimating(next.value)]
        && !old(manifests)[next.value].working
        && manifests == old(manifests)[next.value := old(manifests)[next.value].(working := true)]
    {
      hide EntryFits, WorkersFit, SlotsHeld, LineNumbered, Bounded, NoneForgotten, Holding, Precedes;
      var running := RunningLocked();
      if stopping || running >= MAX_ACTIVE_PACK_JOBS {
        LeaveStartingKeepsInv(Contents(), g);
        workers := workers - {g};
        return None;
      }
      var id := NextQueuedLocked();
      if id.None? {
        LeaveStartingKeepsInv(Contents(), g);
        workers := workers - {g};
        return None;
      }
      ReserveKeepsInv(Contents(), g, id.value);
      var h := packs[id.value];
      manifests := manifests[h := manifests[h].(working := true)];
      workers := workers[g := Estimating(h)];
      return Some(h);
    }

    /** The second section of each round: launch the pack, refuse it, or let it go. */
    method AdmitReserved(h: nat, ghost g: nat, now: int, admissible: bool)
      requires Valid() && g in workers && workers[g] == Estimating(h)
      modifies this
      ensures Valid() && Contents() == Admit(old(Contents()), g, now, admissible)
      ensures packs == old(packs) && queueSeq == old(queueSeq) && stopping == old(stopping) && h < |old(manifests)|
      ensures var was := old(manifests)[h];
              var wanted := !was.deleted && was.state == Queued && !stopping;
              && (wanted && admissible ==>
                    && manifests == old(manifests)[h := was.(cancellable := true)] && launched == old(launched) + 1
                    && workers == old(workers)[g := Starting][old(launched) := Begun(h)])
              && (!(wanted && admissible) ==> launched == old(launched) && workers == old(workers)[g := Starting])
              && (wanted && !admissible ==>
                    manifests == old(manifests)[h := was.(working := false, state := Incomplete, updated := now)])
              && (!wanted ==> manifests == old(manifests)[h := was.(working := false)])
    {
      hide EntryFits, TableFits, SlotsHeld, LineNumbered, Bounded, NoneForgotten;
      AdmitKeepsInv(Contents(), g, now, admissible);
      var m := manifests[h];
      workers := workers[g := Starting];
      if m.deleted || !m.state.Queued? || stopping {
        m := m.(working := false);
      } else if !admissible {
        m := m.(working := false, state := Incomplete, updated := now);
      } else {
        m := m.(cancellable := true);
        workers, launched := workers[launched := Begun(h)], launched + 1;
      }
      manifests := manifests[h := m];
    }
  }
}
