/** What deleting a pack does to the cache: its pins are taken off one entry at a time. */
module PackCleanup {
  import opened Options
  import opened CacheIndex
  import opened CacheStore

  /** Entries may leave the cache meanwhile; whatever stays keeps every other pin. */
  ghost predicate OnlyUnpinned(before: Entries, after: Entries, cacheKeys: seq<Key>, id: PinOwner) {
    forall key :: key in after ==>
      && key in before && after[key].pins - {id} == before[key].pins - {id}
      && (after[key].pins <= before[key].pins)
      && (key !in cacheKeys ==> after[key] == before[key])
  }

  predicate AllFit(encoded: seq<nat>) { forall i :: 0 <= i < |encoded| ==> encoded[i] <= MAX_METADATA_BYTES }

  /** Only keys of the pack are reported, for reasons that are so; on a disk that refuses
      nothing, only because the entry is gone or the cache is full of pins. */
  ghost predicate Explained(errors: map<Key, StoreError>, entries: Entries, cacheKeys: seq<Key>, diskIsFine: bool) {
    forall key :: key in errors ==>
      && key in cacheKeys && errors[key] != NotRetained && (errors[key] == NotAvailable ==> key !in entries)
      && (diskIsFine ==> errors[key] in {NotAvailable, EntryLimit, ByteLimit})
  }

  lemma NothingUnpinned(entries: Entries, cacheKeys: seq<Key>, id: PinOwner)
    ensures OnlyUnpinned(entries, entries, cacheKeys, id)
    ensures forall fine :: Explained(map[], entries, cacheKeys, fine)
  {
  }

  /** One more pin taken off, or left where it was. */
  lemma OneMoreUnpinned(before: Entries, now: Entries, after: Entries, cacheKeys: seq<Key>, id: PinOwner, key: Key)
    requires OnlyUnpinned(before, now, cacheKeys, id) && key in cacheKeys
    requires forall other :: other in after && other != key ==> other in now && after[other] == now[other]
    requires key in after ==> key in now && (after[key] == now[key] || after[key].pins == now[key].pins - {id})
    ensures OnlyUnpinned(before, after, cacheKeys, id)
  {
  }

  lemma OneMoreExplained(errors: map<Key, StoreError>, now: Entries, after: Entries, cacheKeys: seq<Key>, key: Key,
                         error: Option<StoreError>, wasFine: bool, isFine: bool)
    requires Explained(errors, now, cacheKeys, wasFine) && key in cacheKeys && (isFine ==> wasFine)
    requires after.Keys <= now.Keys
    requires error.Some? ==> error.value != NotRetained && (error.value == NotAvailable ==> key !in after)
    requires error.Some? && isFine ==> error.value in {NotAvailable, EntryLimit, ByteLimit}
    ensures Explained(if error.Some? then errors[key := error.value] else errors, after, cacheKeys, isFine)
  {
  }

  /** Goes on after a failure, so one entry that cannot be rewritten does not keep the
      pins of the others. `encoded` are the lengths of the rewritten sidecars. */
  method CleanupPack(store: Store, cacheKeys: seq<Key>, id: PinOwner, encoded: seq<nat>, now: Time)
    returns (errors: map<Key, StoreError>)
    requires store.Indexed() && |encoded| == |cacheKeys|
    modifies store`entries, store`bytes, store`pinnedBytes
    modifies store`scopeCounts, store`unpinnedScopeCounts, store`nextExpiry, store`operations
    ensures store.Indexed() && OnlyUnpinned(old(store.entries), store.entries, cacheKeys, id)
    ensures forall key :: key in cacheKeys && key in store.entries && id in store.entries[key].pins ==> key in errors
    ensures Explained(errors, store.entries, cacheKeys,
                      store.NothingFails(old(store.operations), store.operations) && AllFit(encoded))
  {
    hide Store.Indexed, Evictable, StaleAllowed, OnlyUnpinned, Explained;
    NothingUnpinned(store.entries, cacheKeys, id);
    errors := map[];
    for i := 0 to |cacheKeys|
      invariant store.Indexed() && OnlyUnpinned(old(store.entries), store.entries, cacheKeys, id)
      invariant forall j :: 0 <= j < i && cacheKeys[j] in store.entries && id in store.entries[cacheKeys[j]].pins ==>
        cacheKeys[j] in errors
      invariant store.operations >= old(store.operations)
      invariant Explained(errors, store.entries, cacheKeys,
                          store.NothingFails(old(store.operations), store.operations) && AllFit(encoded))
    {
      ghost var between := store.entries;
      ghost var was := store.NothingFails(old(store.operations), store.operations) && AllFit(encoded);
      var error := store.Pin(cacheKeys[i], id, false, encoded[i], now);
      ghost var fine := store.NothingFails(old(store.operations), store.operations) && AllFit(encoded);
      OneMoreUnpinned(old(store.entries), between, store.entries, cacheKeys, id, cacheKeys[i]);
      OneMoreExplained(errors, between, store.entries, cacheKeys, cacheKeys[i], error, was, fine);
      if error.Some? {
        errors := errors[cacheKeys[i] := error.value];
      }
    }
  }
}
