/**
  The offline map style: replacing the generation on disk while its core entries stay
  pinned in the cache.
 */
module MapGeneration {
  import opened CacheIndex
  import opened CacheStore

  const GENERATION_PIN: PinOwner := "openfreemap-generation"

  /** How writing the generation file went. The last one failed after its rename. */
  datatype WriteOutcome = Written | NotWritten | WrittenUnsynced

  /** The cache and the file at one moment. */
  datatype Instant = Instant(entries: Entries, onDisk: set<Key>, now: Time)

  /** Every core key of the generation on disk that may still be served is pinned. */
  ghost predicate Kept(i: Instant) {
    forall key :: key in i.onDisk && key in Retained(i.entries, i.now) ==> GENERATION_PIN in i.entries[key].pins
  }

  ghost predicate OthersUntouched(before: Entries, after: Entries) {
    && after.Keys == before.Keys
    && (forall key :: key in after ==> after[key].pins - {GENERATION_PIN} == before[key].pins - {GENERATION_PIN})
    && (forall key :: key in after ==>
          after[key] == before[key].(pins := after[key].pins, metadataLength := after[key].metadataLength))
  }

  lemma OthersUntouchedStill(before: Entries, between: Entries, after: Entries)
    requires OthersUntouched(before, between) && OthersUntouched(between, after)
    ensures OthersUntouched(before, after)
  {
  }

  lemma RetainedStays(before: Entries, after: Entries, now: Time)
    requires OthersUntouched(before, after)
    ensures Retained(after, now) == Retained(before, now)
  {
  }

  /** Time only ends retention. */
  lemma LaterRetainsLess(entries: Entries, now: Time, later: Time)
    requires now <= later
    ensures Retained(entries, later) <= Retained(entries, now)
  {
  }

  /** Adding pins, cut anywhere, unpins nothing. */
  lemma AddingKeeps(before: Entries, after: Entries, wanted: set<Key>, onDisk: set<Key>, now: Time)
    requires Kept(Instant(before, onDisk, now))
    requires RepinnedPartly(before, after, OwnerTargets(before, GENERATION_PIN, wanted, false, now))
    ensures Kept(Instant(after, onDisk, now)) && OthersUntouched(before, after)
  {
  }

  /** A full addition pins all the wanted keys when none was unavailable. */
  lemma AddedAllPinned(before: Entries, after: Entries, wanted: set<Key>, now: Time)
    requires RepinnedFully(before, after, OwnerTargets(before, GENERATION_PIN, wanted, false, now))
    requires wanted <= Retained(before, now)
    ensures Kept(Instant(after, wanted, now))
  {
  }

  /** Replacing pins, cut anywhere, keeps those of every retained key still wanted. */
  lemma ReplacingKeeps(before: Entries, after: Entries, wanted: set<Key>, onDisk: set<Key>, now: Time)
    requires Kept(Instant(before, onDisk, now)) && onDisk * Retained(before, now) <= wanted
    requires RepinnedPartly(before, after, OwnerTargets(before, GENERATION_PIN, wanted, true, now))
    ensures Kept(Instant(after, onDisk, now)) && OthersUntouched(before, after)
  {
  }

  /** A completed replacement keeps the disk's generation pinned exactly when it wants
      every retained key of it. */
  lemma ReplacedKeepsIff(before: Entries, after: Entries, wanted: set<Key>, onDisk: set<Key>, now: Time)
    requires RepinnedFully(before, after, OwnerTargets(before, GENERATION_PIN, wanted, true, now))
    ensures Kept(Instant(after, onDisk, now)) <==> onDisk * Retained(after, now) <= wanted
  {
    forall key | key in Retained(after, now)
      ensures GENERATION_PIN in after[key].pins <==> key in wanted
    {
      assert key in Retained(before, now);
    }
  }

  /** Retention and pins do not depend on who looks when: a later moment asks for less. */
  lemma KeptLater(entries: Entries, onDisk: set<Key>, now: Time, later: Time)
    requires now <= later && Kept(Instant(entries, onDisk, now))
    ensures Kept(Instant(entries, onDisk, later))
  {
    LaterRetainsLess(entries, now, later);
  }

  /** The moments of a pin update, with the file and the time it runs at. */
  ghost function During(moments: seq<Entries>, onDisk: set<Key>, now: Time): (instants: seq<Instant>)
    ensures |instants| == |moments|
    ensures forall i :: 0 <= i < |moments| ==> instants[i] == Instant(moments[i], onDisk, now)
  {
    seq(|moments|, i requires 0 <= i < |moments| => Instant(moments[i], onDisk, now))
  }

  ghost predicate AllKept(instants: seq<Instant>) { forall i :: 0 <= i < |instants| ==> Kept(instants[i]) }

  /** At most one sidecar, or the generation file, was written in between. */
  ghost predicate OneWriteApart(a: Instant, b: Instant) {
    a.entries == b.entries || (a.onDisk == b.onDisk && OneSidecarApart(a.entries, b.entries))
  }

  /** No write is missing between two instants. */
  ghost predicate Gapless(instants: seq<Instant>) {
    forall i :: 0 < i < |instants| ==> OneWriteApart(instants[i - 1], instants[i])
  }

  lemma JoinedKept(a: seq<Instant>, b: seq<Instant>)
    requires AllKept(a) && AllKept(b)
    ensures AllKept(a + b)
  {
    hide Kept;
  }

  lemma JoinedGapless(a: seq<Instant>, b: seq<Instant>)
    requires Gapless(a) && Gapless(b)
    requires a != [] && b != [] ==> OneWriteApart(a[|a| - 1], b[0])
    ensures Gapless(a + b)
  {
    hide OneWriteApart;
    forall i | 0 < i < |a + b|
      ensures OneWriteApart((a + b)[i - 1], (a + b)[i])
    {
      if i > |a| {
        assert (a + b)[i - 1] == b[i - 1 - |a|] && (a + b)[i] == b[i - |a|];
        assert OneWriteApart(b[i - |a| - 1], b[i - |a|]);
      }
    }
  }

  lemma DuringGapless(moments: seq<Entries>, before: Entries, after: Entries, targets: map<Key, set<PinOwner>>,
                      onDisk: set<Key>, now: Time)
    requires Stages(moments, before, after, targets)
    ensures Gapless(During(moments, onDisk, now))
    ensures var instants := During(moments, onDisk, now);
            instants != [] && instants[0] == Instant(before, onDisk, now) &&
            instants[|instants| - 1] == Instant(after, onDisk, now)
  {
    hide RepinnedPartly, OneSidecarApart;
  }

  /** Adding pins keeps the generation at every moment of it. */
  lemma AddingStages(
    moments: seq<Entries>, before: Entries, after: Entries, wanted: set<Key>, onDisk: set<Key>, now: Time)
    requires Kept(Instant(before, onDisk, now))
    requires Stages(moments, before, after, OwnerTargets(before, GENERATION_PIN, wanted, false, now))
    ensures AllKept(During(moments, onDisk, now))
  {
    forall i | 0 <= i < |moments|
      ensures Kept(Instant(moments[i], onDisk, now))
    {
      AddingKeeps(before, moments[i], wanted, onDisk, now);
    }
  }

  /** So does replacing them, as long as every retained key on disk is still wanted. */
  lemma ReplacingStages(
    moments: seq<Entries>, before: Entries, after: Entries, wanted: set<Key>, onDisk: set<Key>, now: Time)
    requires Kept(Instant(before, onDisk, now)) && onDisk * Retained(before, now) <= wanted
    requires Stages(moments, before, after, OwnerTargets(before, GENERATION_PIN, wanted, true, now))
    ensures AllKept(During(moments, onDisk, now))
  {
    forall i | 0 <= i < |moments|
      ensures Kept(Instant(moments[i], onDisk, now))
    {
      ReplacingKeeps(before, moments[i], wanted, onDisk, now);
    }
  }

  lemma Extended(instants: seq<Instant>, more: seq<Instant>)
    requires instants != [] && more != [] && Gapless(instants)
    requires OneWriteApart(instants[|instants| - 1], more[0])
    ensures |more| == 1 || Gapless(more) ==> Gapless(instants + more)
    ensures AllKept(instants) && (AllKept(more) || (|more| == 1 && Kept(more[0]))) ==> AllKept(instants + more)
  {
    hide Kept, OneWriteApart;
    if |more| == 1 || Gapless(more) { JoinedGapless(instants, more); }
    if AllKept(instants) && (AllKept(more) || (|more| == 1 && Kept(more[0]))) { JoinedKept(instants, more); }
  }

  lemma AllRetained(wanted: set<Key>, retained: set<Key>)
    requires wanted - retained == {}
    ensures wanted <= retained
  {
    forall key | key in wanted
      ensures key in retained
    {
      assert key !in wanted - retained;
    }
  }

  /** What an update leaves of retention and of the other owners' pins. */
  lemma RestoreFacts(moments: seq<Entries>, before: Entries, after: Entries, wanted: set<Key>, now: Time)
    requires Stages(moments, before, after, OwnerTargets(before, GENERATION_PIN, wanted, true, now))
    ensures OthersUntouched(before, after) && Retained(after, now) == Retained(before, now)
  {
    assert RepinnedPartly(before, moments[|moments| - 1], OwnerTargets(before, GENERATION_PIN, wanted, true, now));
  }

  lemma AddFacts(moments: seq<Entries>, before: Entries, after: Entries, wanted: set<Key>, now: Time)
    requires Stages(moments, before, after, OwnerTargets(before, GENERATION_PIN, wanted, false, now))
    ensures OthersUntouched(before, after) && Retained(after, now) == Retained(before, now)
  {
    assert RepinnedPartly(before, moments[|moments| - 1], OwnerTargets(before, GENERATION_PIN, wanted, false, now));
  }

  lemma AllRetainedIff(keys: set<Key>, retained: set<Key>)
    ensures keys - retained == {} <==> keys <= retained
  {
    if keys - retained == {} {
      assert forall key :: key in keys ==> key !in keys - retained;
    }
  }

  class MapManager {
    const store: Store
    var coreKeys: set<Key>
    var durableCore: bool
    var onDisk: set<Key>

    constructor (store: Store, onDisk: set<Key>)
      ensures this.store == store && this.onDisk == onDisk && !durableCore
    {
      this.store, this.onDisk := store, onDisk;
      coreKeys, durableCore := {}, false;
    }

    /** The keys a failed swap goes back to. */
    function PreviousKeys(): set<Key>
      reads this`coreKeys, this`durableCore
    {
      if durableCore then coreKeys else {}
    }

    /** The file's generation is the one in memory, or nothing of it can be served. */
    ghost predicate Known(now: Time)
      reads this, store`entries
    {
      onDisk * Retained(store.entries, now) <= PreviousKeys()
    }

    function Here(now: Time): Instant
      reads this`onDisk, store`entries
    {
      Instant(store.entries, onDisk, now)
    }

    /** Adopts the generation on disk if every core entry of it can still be served. */
    method LoadGeneration(now: Time)
      modifies this`coreKeys, this`durableCore
      ensures onDisk <= Retained(store.entries, now) ==> durableCore && coreKeys == onDisk && Known(now)
      ensures !(onDisk <= Retained(store.entries, now)) ==> durableCore == old(durableCore) && coreKeys == old(coreKeys)
    {
      var rest := onDisk;
      while rest != {}
        invariant rest <= onDisk && onDisk - rest <= Retained(store.entries, now)
        decreases rest
      {
        var key :| key in rest;
        rest := rest - {key};
        if key !in store.entries || !StaleAllowed(store.entries[key], now) {
          return;
        }
      }
      coreKeys, durableCore := onDisk, true;
    }

    /** The disk refuses nothing: no file operation of these fails, no sidecar is too long. */
    ghost predicate DiskIsFine(first: nat, next: nat) {
      store.NothingFails(first, next) && forall m :: store.sidecarLength(m) <= MAX_METADATA_BYTES
    }

    // Each pin update returns its `instants`, one for every sidecar it has written.

    /** Goes back to the pins of the previous generation. */
    method Restore(now: Time) returns (ok: bool, ghost instants: seq<Instant>)
      requires store.Indexed()
      modifies store`entries, store`bytes, store`pinnedBytes
      modifies store`scopeCounts, store`unpinnedScopeCounts, store`nextExpiry, store`operations
      ensures store.Indexed() && OthersUntouched(old(store.entries), store.entries)
      ensures Gapless(instants) && instants != []
      ensures instants[0] == old(Here(now)) && instants[|instants| - 1] == Here(now)
      ensures Known(now) <==> old(Known(now))
      ensures Kept(old(Here(now))) && old(Known(now)) ==> AllKept(instants)
      ensures ok ==> (Kept(Here(now)) <==> Known(now))
      ensures store.operations >= old(store.operations)
      ensures DiskIsFine(old(store.operations), store.operations) ==> ok
    {
      hide Store.Indexed;
      ghost var before := store.entries;
      var unavailable;
      ghost var moments;
      ok, unavailable, moments := store.UpdatePinOwner(GENERATION_PIN, PreviousKeys(), true, now);
      instants := During(moments, onDisk, now);
      RestoreFacts(moments, before, store.entries, PreviousKeys(), now);
      ghost var targets := OwnerTargets(before, GENERATION_PIN, PreviousKeys(), true, now);
      DuringGapless(moments, before, store.entries, targets, onDisk, now);
      if old(Known(now)) && Kept(old(Here(now))) {
        ReplacingStages(moments, before, store.entries, PreviousKeys(), onDisk, now);
      }
      if ok {
        ReplacedKeepsIff(before, store.entries, PreviousKeys(), onDisk, now);
      }
    }

    /** Pins the new generation beside the one on disk. */
    method AddPins(newKeys: set<Key>, added: Time, now: Time) returns (complete: bool, ghost instants: seq<Instant>)
      requires store.Indexed() && added <= now
      modifies store`entries, store`bytes, store`pinnedBytes
      modifies store`scopeCounts, store`unpinnedScopeCounts, store`nextExpiry, store`operations
      ensures store.Indexed() && OthersUntouched(old(store.entries), store.entries)
      ensures Gapless(instants) && instants != []
      ensures instants[0] == old(Here(added)) && instants[|instants| - 1] == Here(added)
      ensures old(Kept(Here(added))) ==> AllKept(instants) && Kept(Here(now))
      ensures old(Known(added)) ==> Known(now)
      ensures complete ==> Kept(Instant(store.entries, newKeys, added)) && Kept(Instant(store.entries, newKeys, now))
      ensures store.operations >= old(store.operations)
      ensures complete ==> newKeys <= Retained(old(store.entries), added)
      ensures DiskIsFine(old(store.operations), store.operations) ==>
        newKeys <= Retained(old(store.entries), added) ==> complete
    {
      hide Store.Indexed;
      ghost var before := store.entries;
      ghost var targets := OwnerTargets(before, GENERATION_PIN, newKeys, false, added);
      var ok, unavailable;
      ghost var moments;
      ok, unavailable, moments := store.UpdatePinOwner(GENERATION_PIN, newKeys, false, added);
      instants := During(moments, onDisk, added);
      AddFacts(moments, before, store.entries, newKeys, added);
      DuringGapless(moments, before, store.entries, targets, onDisk, added);
      LaterRetainsLess(store.entries, added, now);
      if Kept(Instant(before, onDisk, added)) {
        AddingStages(moments, before, store.entries, newKeys, onDisk, added);
        KeptLater(store.entries, onDisk, added, now);
      }
      AllRetainedIff(newKeys, Retained(before, added));
      complete := ok && unavailable == {};
      if complete {
        AllRetained(newKeys, Retained(before, added));
        AddedAllPinned(before, store.entries, newKeys, added);
        KeptLater(store.entries, newKeys, added, now);
      }
    }

    /** Leaves only the pins of the generation on disk. */
    method DropOldPins(now: Time) returns (complete: bool, ghost instants: seq<Instant>)
      requires store.Indexed() && Kept(Here(now))
      modifies store`entries, store`bytes, store`pinnedBytes
      modifies store`scopeCounts, store`unpinnedScopeCounts, store`nextExpiry, store`operations
      ensures store.Indexed() && OthersUntouched(old(store.entries), store.entries)
      ensures Gapless(instants) && instants != []
      ensures instants[0] == old(Here(now)) && instants[|instants| - 1] == Here(now)
      ensures AllKept(instants) && Kept(Here(now))
      ensures complete ==>
        forall key :: key in store.entries && GENERATION_PIN in store.entries[key].pins ==> key in onDisk
      ensures store.operations >= old(store.operations)
      ensures complete ==> onDisk <= Retained(old(store.entries), now)
      ensures DiskIsFine(old(store.operations), store.operations) && onDisk <= Retained(old(store.entries), now) ==>
        complete
    {
      hide Store.Indexed;
      ghost var before := store.entries;
      ghost var targets := OwnerTargets(before, GENERATION_PIN, onDisk, true, now);
      var ok, unavailable;
      ghost var moments;
      ok, unavailable, moments := store.UpdatePinOwner(GENERATION_PIN, onDisk, true, now);
      instants := During(moments, onDisk, now);
      RestoreFacts(moments, before, store.entries, onDisk, now);
      AllRetainedIff(onDisk, Retained(before, now));
      DuringGapless(moments, before, store.entries, targets, onDisk, now);
      ReplacingStages(moments, before, store.entries, onDisk, onDisk, now);
      complete := ok && unavailable == {};
    }

    /** Adds the new pins, replaces the file, drops the old pins; any failure goes back.
        `instants` are all the moments at which the process could have been killed: no write
        is missing between two of them. They keep the generation on disk pinned throughout,
        unless the file write failed after its rename; then they do until the pins are
        restored, and to the end if and only if the new keys were among the previous ones. */
    method PersistPinnedGeneration(newKeys: set<Key>, outcome: WriteOutcome, added: Time, now: Time)
      returns (saved: bool, restored: bool, ghost instants: seq<Instant>, ghost swapped: nat)
      requires store.Indexed() && added <= now
      modifies this`onDisk
      modifies store`entries, store`bytes, store`pinnedBytes
      modifies store`scopeCounts, store`unpinnedScopeCounts, store`nextExpiry, store`operations
      ensures store.Indexed() && OthersUntouched(old(store.entries), store.entries)
      ensures onDisk == old(onDisk) || onDisk == newKeys
      ensures saved ==> outcome == Written && onDisk == newKeys
      ensures Gapless(instants) && 0 < swapped <= |instants|
      ensures instants[0] == old(Here(added)) && instants[|instants| - 1] == Here(now)
      ensures old(Kept(Here(added))) && old(Known(added)) && outcome != WrittenUnsynced ==> AllKept(instants)
      ensures old(Kept(Here(added))) ==> AllKept(instants[..swapped])
      ensures old(Kept(Here(added))) && outcome == WrittenUnsynced && Known(now) ==> AllKept(instants)
      ensures restored ==> (Kept(Here(now)) <==> Known(now))
      ensures store.operations >= old(store.operations)
      ensures saved ==> Kept(Here(now))
      ensures saved ==>
        forall key :: key in store.entries && GENERATION_PIN in store.entries[key].pins ==> key in newKeys
      ensures saved ==> newKeys <= Retained(old(store.entries), added) && newKeys <= Retained(old(store.entries), now)
      ensures DiskIsFine(old(store.operations), store.operations) ==>
        && (saved <==> outcome == Written && newKeys <= Retained(old(store.entries), added) &&
                       newKeys <= Retained(old(store.entries), now))
        && (onDisk == if newKeys <= Retained(old(store.entries), added) && outcome != NotWritten then newKeys
                      else old(onDisk))
        && (restored <==> !(newKeys <= Retained(old(store.entries), added) && outcome == Written))
    {
      hide Store.Indexed, Kept, Retained, Known, Gapless, AllKept, OneSidecarApart, OthersUntouched;
      restored := false;
      ghost var before := store.entries;
      var complete;
      complete, instants := AddPins(newKeys, added, now);
      RetainedStays(before, store.entries, now);
      ghost var between := store.entries;
      if complete && outcome != NotWritten {
        onDisk := newKeys;
        Extended(instants, [Here(added)]);
        instants := instants + [Here(added)];
      }
      swapped := |instants|;
      ghost var more;
      if !complete || outcome != Written {
        restored, more := Restore(now);
        saved := false;
      } else {
        saved, more := DropOldPins(now);
      }
      OthersUntouchedStill(before, between, store.entries);
      Extended(instants, more);
      assert (instants + more)[..swapped] == instants;
      instants := instants + more;
    }

    /** The end of an activation. A generation that could not be saved is used from memory
        only; from then on a failed swap goes back to no pins at all, so it keeps the
        generation still on disk pinned only if nothing of that can be served. */
    method Activate(newKeys: set<Key>, durable: bool, outcome: WriteOutcome, added: Time, now: Time)
      requires store.Indexed() && added <= now
      modifies this
      modifies store`entries, store`bytes, store`pinnedBytes
      modifies store`scopeCounts, store`unpinnedScopeCounts, store`nextExpiry, store`operations
      ensures store.Indexed() && OthersUntouched(old(store.entries), store.entries)
      ensures coreKeys == newKeys && (durableCore ==> durable && onDisk == newKeys && Known(now))
      ensures old(Kept(Here(added))) && old(Known(added)) && outcome != WrittenUnsynced ==> Kept(Here(now))
      ensures !durable ==> store.entries == old(store.entries) && onDisk == old(onDisk)
      ensures store.operations >= old(store.operations)
      ensures DiskIsFine(old(store.operations), store.operations) ==>
        (durableCore <==> durable && outcome == Written && newKeys <= Retained(old(store.entries), added) &&
                          newKeys <= Retained(old(store.entries), now))
      ensures !durableCore ==> (Known(now) <==> onDisk * Retained(store.entries, now) == {})
    {
      hide Store.Indexed, Kept, Retained;
      var saved, restored := false, false;
      ghost var instants: seq<Instant>;
      if durable {
        ghost var swapped;
        saved, restored, instants, swapped := PersistPinnedGeneration(newKeys, outcome, added, now);
        assert old(Kept(Here(added))) && old(Known(added)) && outcome != WrittenUnsynced ==>
          Kept(instants[|instants| - 1]);
      } else {
        StaysKept(added, now);
      }
      coreKeys, durableCore := newKeys, saved;
    }

    lemma StaysKept(added: Time, now: Time)
      requires added <= now
      ensures Kept(Here(added)) ==> Kept(Here(now))
    {
      LaterRetainsLess(store.entries, added, now);
    }
  }

  /** A generation that could not be saved, and then another swap that fails in any way, and
      goes back completely: the generation on disk is unpinned, unless nothing of it can be
      served. */
  method FailedSwapAfterUnsaved(
    m: MapManager, newKeys: set<Key>, durable: bool, outcome: WriteOutcome, added: Time, now: Time,
    nextKeys: set<Key>, nextOutcome: WriteOutcome, nextAdded: Time, later: Time)
      returns (unsaved: bool, restored: bool)
    requires m.store.Indexed() && added <= now && nextAdded <= later
    modifies m, m.store
    ensures unsaved && restored ==>
      (Kept(m.Here(later)) <==> m.onDisk * Retained(m.store.entries, later) == {})
    ensures unsaved <==> !m.durableCore
    ensures nextOutcome != Written && m.DiskIsFine(old(m.store.operations), m.store.operations) ==> restored
  {
    hide Store.Indexed, Kept, Retained;
    m.Activate(newKeys, durable, outcome, added, now);
    unsaved := !m.durableCore;
    ghost var instants, swapped;
    var saved;
    saved, restored, instants, swapped := m.PersistPinnedGeneration(nextKeys, nextOutcome, nextAdded, later);
  }
}
