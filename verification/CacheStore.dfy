/**
  The response cache: a quota-bounded, pin-aware LRU store with derived indexes.

  Each method is one section the source runs under its locks. File operations may
  fail at any time, and the encoded length of a sidecar is arbitrary.
 */
module CacheStore {
  import opened Options
  import opened CacheIndex
  import opened Admission

  datatype StoreError =
    | EntryTooLarge | RateLimited(retryAfter: int) | EntryLimit | ByteLimit
    | RemoveFailed | NoDiskSpace | OverBudget | WriteFailed | MetadataTooLarge
    | NotAvailable | NotRetained

  datatype Removal = Removed | Absent | Failed

  datatype Eviction = Evicted(key: Key) | NothingLeft | EvictionFailed

  datatype PutResult = Saved(charge: int) | Refused(error: StoreError)

  const MAX_METADATA_BYTES := 65536

  function Max(a: int, b: int): int { if a < b then b else a }
  function Min(a: int, b: int): int { if a < b then a else b }

  class Store {
    const maxBytes: int
    const maxEntries: int
    const useAvailableStorage: bool
    const downloadsUseDisk: bool
    var reserved: int

    var entries: Entries
    var bytes: int
    var pinnedBytes: int
    var scopeCounts: map<Scope, int>
    var unpinnedScopeCounts: map<Scope, int>
    var nextExpiry: Time
    var passive: Window
    var bulk: Window

    /** When each new key was admitted, passive requests and bulk downloads apart. */
    ghost var passiveTimes: seq<Time>
    ghost var passiveEarlier: nat
    ghost var bulkTimes: seq<Time>
    ghost var bulkEarlier: nat

    /** The disk's choices: how many file operations were tried so far, whether each one
        fails, and how long an encoded sidecar is. */
    var operations: nat
    const fails: nat -> bool
    const sidecarLength: Meta -> nat

    constructor (maxBytes: int, maxEntries: int, useAvailableStorage: bool, downloadsUseDisk: bool,
                 fails: nat -> bool, sidecarLength: Meta -> nat)
      requires 0 < maxBytes && 0 < maxEntries
      ensures Valid() && Drift() == 0 && entries == map[]
      ensures this.maxBytes == maxBytes && this.maxEntries == maxEntries
      ensures this.useAvailableStorage == useAvailableStorage && this.downloadsUseDisk == downloadsUseDisk
      ensures this.fails == fails && this.sidecarLength == sidecarLength && operations == 0
    {
      this.fails, this.sidecarLength, operations := fails, sidecarLength, 0;
      this.maxBytes, this.maxEntries := maxBytes, maxEntries;
      this.useAvailableStorage, this.downloadsUseDisk := useAvailableStorage, downloadsUseDisk;
      reserved, bytes, pinnedBytes, nextExpiry := 0, 0, 0, 0;
      entries, scopeCounts, unpinnedScopeCounts := map[], map[], map[];
      passive, bulk := Window(0, 0), Window(0, 0);
      passiveTimes, bulkTimes, passiveEarlier, bulkEarlier := [], [], 0, 0;
    }

    /** None of the file operations with these numbers fails. */
    ghost predicate NothingFails(first: nat, next: nat) { forall i :: first <= i < next ==> !fails(i) }

    // ----------------------------------------------------------------- invariant

    function Books(): Ledger
      reads this`pinnedBytes, this`scopeCounts, this`unpinnedScopeCounts
    {
      Ledger(pinnedBytes, scopeCounts, unpinnedScopeCounts)
    }

    /** Every index but `bytes` equals its recomputation, and `nextExpiry` bounds every
        deadline. */
    ghost predicate Indexed()
      reads this`entries, this`pinnedBytes, this`scopeCounts, this`unpinnedScopeCounts, this`nextExpiry
    {
      && 0 < maxBytes && 0 < maxEntries
      && WellKeyed(entries)
      && Balanced(Books(), entries)
      && BoundsDeadlines(nextExpiry, entries)
    }

    /** Both admission windows track what they let in. */
    ghost predicate Windowed()
      reads this`passive, this`passiveTimes, this`passiveEarlier, this`bulk, this`bulkTimes, this`bulkEarlier
    {
      && Tracks(passive, AdmissionLimit(false), passiveTimes, passiveEarlier)
      && Tracks(bulk, AdmissionLimit(true), bulkTimes, bulkEarlier)
    }

    ghost predicate Valid()
      reads this
    {
      Indexed() && Windowed()
    }

    /** How far `bytes` is from the recomputed total. Zero unless a metadata update
        republished an entry under another body length. */
    ghost function Drift(): int
      reads this`bytes, this`entries
    {
      bytes - Total(entries, Stored)
    }

    // ------------------------------------------------------------------ settings

    function AdmissionLimit(isBulk: bool): nat {
      if isBulk then Max(64, Min(4000, maxEntries / 25)) else Max(64, Min(1000, maxEntries / 100))
    }

    function ScopeEntryLimit(): int {
      if useAvailableStorage then maxEntries else Max(1, maxEntries / 4)
    }

    predicate Charged(m: Meta) { !downloadsUseDisk || !m.Pinned() }

    function ChargedBytes(): int
      reads this`bytes, this`pinnedBytes, this`reserved
    {
      if downloadsUseDisk then bytes - pinnedBytes else bytes + reserved
    }

    function ChargedScopeCount(scope: Scope): int
      reads this`scopeCounts, this`unpinnedScopeCounts
    {
      Count(if downloadsUseDisk then unpinnedScopeCounts else scopeCounts, scope)
    }

    // ---------------------------------------------------------------- publishing

    /** Lists or unlists an entry in the pinning indexes. */
    method CountPinningLocked(m: Meta, sign: int)
      modifies this`pinnedBytes, this`unpinnedScopeCounts
      ensures Books() == CountPinning(old(Books()), m, sign)
    {
      if m.Pinned() {
        pinnedBytes := pinnedBytes + sign * m.Size();
      } else {
        unpinnedScopeCounts := Bump(unpinnedScopeCounts, m.scope, sign);
      }
    }

    /** Publishes an entry. The callers account for `bytes` themselves. */
    method SetEntryLocked(m: Meta)
      requires Indexed()
      modifies this`entries, this`pinnedBytes, this`scopeCounts, this`unpinnedScopeCounts, this`nextExpiry
      ensures Indexed()
      ensures entries == old(entries)[m.key := m]
      ensures Drift() == old(Drift()) + WeightAt(old(entries), m.key, Stored) - m.Size()
    {
      hide Balanced, BoundsDeadlines, Total, Bump, CountPinning;
      BalancedAfterSet(Books(), entries, m);
      BoundsAfterSet(nextExpiry, entries, m);
      SetTotals(entries, m);
      ghost var before := Books();
      if m.key in entries {
        var previous := entries[m.key];
        scopeCounts := Bump(scopeCounts, previous.scope, -1);
        CountPinningLocked(previous, -1);
        assert Books() == CountEntry(before, previous, -1);
      }
      ghost var between := Books();
      entries := entries[m.key := m];
      scopeCounts := Bump(scopeCounts, m.scope, 1);
      CountPinningLocked(m, 1);
      assert Books() == CountEntry(between, m, 1);
      nextExpiry := Earlier(nextExpiry, m);
    }

    /** Removes an entry and its files; a file failure leaves the index untouched. */
    method RemoveLocked(scope: Scope, key: Key) returns (r: Removal)
      requires Indexed()
      modifies this`entries, this`bytes, this`pinnedBytes, this`scopeCounts, this`unpinnedScopeCounts
      modifies this`operations
      ensures Indexed() && Drift() == old(Drift())
      ensures r == Removed ==> key in old(entries) && entries == old(entries) - {key}
      ensures r == Removed ==> bytes == old(bytes) - old(entries)[key].Size()
      ensures r != Removed ==> entries == old(entries) && bytes == old(bytes)
      ensures r == Absent <==> key !in old(entries) || old(entries)[key].scope != scope
      ensures operations == old(operations) + if r == Absent then 0 else 1
      ensures r == Failed ==> fails(old(operations))
    {
      if key !in entries || entries[key].scope != scope {
        return Absent;
      }
      var failed := fails(operations);
      operations := operations + 1;
      if failed {
        return Failed;
      }
      var m := entries[key];
      hide Balanced, BoundsDeadlines, Total, Bump, CountPinning;
      BalancedAfterRemove(Books(), entries, key);
      BoundsAfterRemove(nextExpiry, entries, key);
      RemoveTotals(entries, key);
      ghost var before := Books();
      bytes := bytes - m.Size();
      scopeCounts := Bump(scopeCounts, m.scope, -1);
      CountPinningLocked(m, -1);
      assert Books() == CountEntry(before, m, -1);
      entries := entries - {key};
      return Removed;
    }

    /** Evicts the least recently used unpinned entry other than `spared`. */
    method EvictLRULocked(spared: Option<Key>) returns (r: Eviction)
      requires Indexed()
      modifies this`entries, this`bytes, this`pinnedBytes, this`scopeCounts, this`unpinnedScopeCounts
      modifies this`operations
      ensures Indexed() && Drift() == old(Drift())
      ensures r.Evicted? ==> LeastRecent(old(entries), r.key, spared)
      ensures r.Evicted? ==> r.key in old(entries) && spared != Some(r.key)
      ensures r.Evicted? ==> entries == old(entries) - {r.key} && |entries| < |old(entries)| && bytes <= old(bytes)
      ensures !r.Evicted? ==> entries == old(entries) && bytes == old(bytes)
      ensures r.NothingLeft? <==> forall key :: !Evictable(old(entries), key, spared)
      ensures operations >= old(operations)
      ensures NothingFails(old(operations), operations) ==> !r.EvictionFailed?
    {
      var candidate: Option<Key> := None;
      var rest := entries.Keys;
      while rest != {}
        invariant rest <= entries.Keys
        invariant candidate.Some? ==> Evictable(entries, candidate.value, spared)
        invariant forall key :: key in entries.Keys - rest && Evictable(entries, key, spared) ==>
          candidate.Some? && entries[candidate.value].lastAccess <= entries[key].lastAccess
        decreases rest
      {
        var key :| key in rest;
        rest := rest - {key};
        if spared != Some(key) && !entries[key].Pinned() {
          if candidate.None? || entries[key].lastAccess < entries[candidate.value].lastAccess {
            candidate := Some(key);
          }
        }
      }
      if candidate.None? {
        return NothingLeft;
      }
      assert LeastRecent(entries, candidate.value, spared);
      assert |entries.Keys - {candidate.value}| < |entries.Keys|;
      var removal := RemoveLocked(entries[candidate.value].scope, candidate.value);
      assert removal == Removed ==> entries.Keys == old(entries).Keys - {candidate.value};
      return if removal == Removed then Evicted(candidate.value) else EvictionFailed;
    }

    // -------------------------------------------------------------------- expiry

    /** Scans for expired entries. A failed removal keeps the previous deadline, so the
        next admission scans again. */
    method ExpireLocked(now: Time, replacing: Key) returns (ok: bool)
      requires Indexed()
      modifies this`entries, this`bytes, this`pinnedBytes, this`scopeCounts, this`unpinnedScopeCounts, this`nextExpiry
      modifies this`operations
      ensures Indexed() && Drift() == old(Drift()) && bytes <= old(bytes)
      ensures ok ==> entries == Unexpired(old(entries), now, replacing)
      ensures ok && nextExpiry != 0 ==> exists key :: key in entries && Deadline(entries[key]) == nextExpiry
      ensures !ok ==> nextExpiry == old(nextExpiry)
      ensures forall key :: key in entries ==> key in old(entries) && entries[key] == old(entries)[key]
      ensures forall key :: key in old(entries) && key !in entries ==>
        key != replacing && Expired(old(entries)[key], now)
      ensures operations >= old(operations)
      ensures NothingFails(old(operations), operations) ==> ok
    {
      hide Balanced, Total, Earlier, Drift, Books, Expired, Deadline;
      var next := 0;
      var rest := entries.Keys;
      while rest != {}
        invariant Indexed() && Drift() == old(Drift()) && bytes <= old(bytes)
        invariant nextExpiry == old(nextExpiry)
        invariant rest <= entries.Keys
        invariant forall key :: key in entries ==> key in old(entries) && entries[key] == old(entries)[key]
        invariant forall key :: key in old(entries) && key !in entries ==>
          key != replacing && Expired(old(entries)[key], now)
        invariant forall key :: key in entries && key !in rest ==>
          key == replacing || !Expired(entries[key], now)
        invariant forall key :: key in entries && key !in rest && Deadline(entries[key]) != 0 ==>
          next != 0 && next <= Deadline(entries[key])
        invariant next != 0 ==> exists key :: key in entries && key !in rest && Deadline(entries[key]) == next
        invariant operations >= old(operations)
        decreases rest
      {
        var key :| key in rest;
        rest := rest - {key};
        var m := entries[key];
        if key != replacing && Expired(m, now) {
          var removal := RemoveLocked(m.scope, key);
          if removal != Removed {
            return false;
          }
        } else {
          ghost var before := next;
          next := Earlier(next, m);
          EarlierIsLeast(before, m);
        }
      }
      nextExpiry := next;
      return true;
    }

    // -------------------------------------------------------------------- making room

    /** The limits an entry of `required` bytes would break, over a hypothetical table. */
    ghost predicate OverEntries(es: Entries, scope: Scope, replacing: Key, charge: bool) {
      var old' := replacing in es;
      || |es| - (if old' then 1 else 0) >= maxEntries
      || (charge && ChargedIn(es, scope) - (if old' && Charged(es[replacing]) then 1 else 0) >= ScopeEntryLimit())
    }

    ghost predicate OverBytes(es: Entries, drift: int, reserve: int, replacing: Key, required: int, charge: bool) {
      charge && ChargedTotal(es, drift, reserve)
                - (if replacing in es && Charged(es[replacing]) then es[replacing].Size() else 0) + required > maxBytes
    }

    ghost predicate Crowded(
      es: Entries, drift: int, reserve: int, scope: Scope, replacing: Key, required: int, charge: bool)
    {
      OverEntries(es, scope, replacing, charge) || OverBytes(es, drift, reserve, replacing, required, charge)
    }

    ghost function ChargedIn(es: Entries, scope: Scope): int {
      Total(es, if downloadsUseDisk then UnpinnedInScope(scope) else InScope(scope))
    }

    ghost function ChargedTotal(es: Entries, drift: int, reserve: int): int {
      if downloadsUseDisk then Total(es, Stored) + drift - Total(es, PinnedStored)
      else Total(es, Stored) + drift + reserve
    }

    /** Some limit was exceeded before every single eviction. */
    ghost predicate CrowdedThroughout(es: Entries, gone: seq<Key>, drift: int, reserve: int, scope: Scope,
                                      replacing: Key, required: int, charge: bool) {
      forall i :: 0 <= i < |gone| ==>
        Crowded(Without(es, gone[..i]), drift, reserve, scope, replacing, required, charge)
    }

    lemma CrowdedOneMore(es: Entries, gone: seq<Key>, key: Key, drift: int, reserve: int, scope: Scope,
                         replacing: Key, required: int, charge: bool)
      requires CrowdedThroughout(es, gone, drift, reserve, scope, replacing, required, charge)
      requires Crowded(Without(es, gone), drift, reserve, scope, replacing, required, charge)
      ensures CrowdedThroughout(es, gone + [key], drift, reserve, scope, replacing, required, charge)
    {
      var more := gone + [key];
      forall i | 0 <= i < |more|
        ensures Crowded(Without(es, more[..i]), drift, reserve, scope, replacing, required, charge)
      {
        assert more[..i] == gone[..i];
      }
    }

    /** What making room in table `es` may end in: `gone` went in LRU order, each while a
        limit was still exceeded; then either everything fits or nothing may go. */
    ghost predicate MakesRoom(es: Entries, gone: seq<Key>, error: Option<StoreError>, after: Entries, drift: int,
                              reserve: int, scope: Scope, replacing: Key, required: int, download: bool) {
      var charge := !download || !downloadsUseDisk;
      && after == Without(es, gone)
      && EvictedInOrder(es, gone, Some(replacing))
      && CrowdedThroughout(es, gone, drift, reserve, scope, replacing, required, charge)
      && match error
         case None => !Crowded(after, drift, reserve, scope, replacing, required, charge)
         case Some(EntryLimit) =>
           OverEntries(after, scope, replacing, charge) && forall key :: !Evictable(after, key, Some(replacing))
         case Some(ByteLimit) =>
           && OverBytes(after, drift, reserve, replacing, required, charge)
           && forall key :: !Evictable(after, key, Some(replacing))
         case Some(other) => other == RemoveFailed
    }

    /** Admission ended so after dropping what had expired and then, least recent first, no
        more than it had to. */
    ghost predicate AdmittedFrom(before: Entries, after: Entries, error: Option<StoreError>, now: Time, drift: int,
                                 reserve: int, m: Meta, download: bool) {
      exists gone :: MakesRoom(Unexpired(before, now, m.key), gone, error, after, drift, reserve,
                               m.scope, m.key, m.Size(), download)
    }

    lemma CountersAreTotals(scope: Scope)
      requires Indexed()
      ensures ChargedScopeCount(scope) == ChargedIn(entries, scope)
      ensures ChargedBytes() == ChargedTotal(entries, Drift(), reserved)
    {
    }

    /** Evicts until the new entry fits: a minimal run of least recently used unpinned
        entries, never the replaced one. It gives up only when no other unpinned entry
        is left. */
    method MakeRoomLocked(scope: Scope, replacing: Key, required: nat, download: bool)
        returns (error: Option<StoreError>, ghost gone: seq<Key>)
      requires Indexed()
      modifies this`entries, this`bytes, this`pinnedBytes, this`scopeCounts, this`unpinnedScopeCounts
      modifies this`operations
      ensures Indexed() && Drift() == old(Drift()) && bytes <= old(bytes)
      ensures MakesRoom(old(entries), gone, error, entries, Drift(), reserved, scope, replacing, required, download)
      ensures operations >= old(operations)
      ensures NothingFails(old(operations), operations) ==> error != Some(RemoveFailed)
    {
      hide Indexed, Total, LeastRecent, Without, Evictable;
      gone := [];
      assert EvictedInOrder(entries, gone, Some(replacing));
      assert CrowdedThroughout(entries, gone, Drift(), reserved, scope, replacing, required,
                               !download || !downloadsUseDisk);
      hide OverEntries, OverBytes, EvictedInOrder, CrowdedThroughout;
      WithoutNone(entries);
      var charge := !download || !downloadsUseDisk;
      var overEntries, overBytes := Over(scope, replacing, required, charge);
      while overEntries || overBytes
        invariant Indexed() && Drift() == old(Drift()) && bytes <= old(bytes)
        invariant entries == Without(old(entries), gone)
        invariant EvictedInOrder(old(entries), gone, Some(replacing))
        invariant CrowdedThroughout(old(entries), gone, Drift(), reserved, scope, replacing, required, charge)
        invariant overEntries == OverEntries(entries, scope, replacing, charge)
        invariant overBytes == OverBytes(entries, Drift(), reserved, replacing, required, charge)
        invariant operations >= old(operations)
        decreases |entries|
      {
        var eviction := EvictLRULocked(Some(replacing));
        match eviction {
          case EvictionFailed =>
            return Some(RemoveFailed), gone;
          case NothingLeft =>
            return Some(if overEntries then EntryLimit else ByteLimit), gone;
          case Evicted(key) =>
            EvictOneMore(old(entries), gone, Some(replacing), key);
            CrowdedOneMore(old(entries), gone, key, Drift(), reserved, scope, replacing, required, charge);
            gone := gone + [key];
        }
        overEntries, overBytes := Over(scope, replacing, required, charge);
      }
      return None, gone;
    }

    /** The two limit checks, from the maintained counters. */
    method Over(scope: Scope, replacing: Key, required: nat, charge: bool)
        returns (overEntries: bool, overBytes: bool)
      requires Indexed()
      ensures overEntries == OverEntries(entries, scope, replacing, charge)
      ensures overBytes == OverBytes(entries, Drift(), reserved, replacing, required, charge)
    {
      CountersAreTotals(scope);
      var oldCount, oldCharged, oldScopeCharged := 0, 0, 0;
      if replacing in entries {
        oldCount := 1;
        if Charged(entries[replacing]) {
          oldCharged, oldScopeCharged := entries[replacing].Size(), 1;
        }
      }
      overEntries := |entries| - oldCount >= maxEntries
        || (charge && ChargedScopeCount(scope) - oldScopeCharged >= ScopeEntryLimit());
      overBytes := charge && ChargedBytes() - oldCharged + required > maxBytes;
    }

    lemma SkipScan(now: Time, replacing: Key)
      requires Indexed() && !ScanDue(nextExpiry, now)
      ensures Unexpired(entries, now, replacing) == entries
    {
      LazyScanIsEager(nextExpiry, entries, now, replacing);
    }

    /** Lazy expiry followed by making room. Unless a file cannot be removed, the outcome
        is one that scanning every entry first would have allowed. */
    method AdmitLocked(now: Time, scope: Scope, replacing: Key, required: nat, download: bool)
        returns (error: Option<StoreError>, ghost gone: seq<Key>)
      requires Indexed()
      modifies this`entries, this`bytes, this`pinnedBytes, this`scopeCounts, this`unpinnedScopeCounts, this`nextExpiry
      modifies this`operations
      ensures Indexed() && Drift() == old(Drift()) && bytes <= old(bytes)
      ensures error != Some(RemoveFailed) ==>
        MakesRoom(Unexpired(old(entries), now, replacing), gone, error, entries, Drift(), reserved,
                  scope, replacing, required, download)
      ensures error.Some? ==> error.value in {EntryLimit, ByteLimit, RemoveFailed}
      ensures Kept(old(entries), entries, now, replacing)
      ensures operations >= old(operations)
      ensures NothingFails(old(operations), operations) ==> error != Some(RemoveFailed)
    {
      hide Indexed, Drift, OverEntries, OverBytes, EvictedInOrder, CrowdedThroughout, Crowded;
      gone := [];
      if ScanDue(nextExpiry, now) {
        var ok := ExpireLocked(now, replacing);
        if !ok {
          return Some(RemoveFailed), gone;
        }
      } else {
        SkipScan(now, replacing);
      }
      ghost var live := entries;
      error, gone := MakeRoomLocked(scope, replacing, required, download);
      forall key | key in live && (key == replacing || live[key].Pinned())
        ensures key in entries
      {
        EvictionSpares(live, gone, Some(replacing), key);
      }
    }

    /** Admission only removes: never the entry being replaced, nor an unexpired pin. */
    ghost predicate Kept(before: Entries, after: Entries, now: Time, replacing: Key) {
      && (forall key :: key in after ==> key in before && after[key] == before[key])
      && (forall key :: key in before && (key == replacing || (before[key].Pinned() && !Expired(before[key], now)))
            ==> key in after)
    }

    // ---------------------------------------------------------------------- puts

    /** The limits a browsing put promises once it is published. The scope limit is
        promised for a replacement within one scope. */
    ghost predicate WithinLimits(scope: Scope, sameScope: bool)
      reads this`entries, this`bytes, this`pinnedBytes, this`reserved, this`scopeCounts, this`unpinnedScopeCounts
    {
      && |entries| <= maxEntries
      && ChargedBytes() <= maxBytes
      && ChargedScopeCount(scope) <= ScopeEntryLimit() + if sameScope then 0 else 1
    }

    predicate IsDownload(m: Meta, withBudget: bool) { downloadsUseDisk && (withBudget || m.Pinned()) }

    ghost predicate ClockAt(now: Time)
      reads this`passive, this`bulk, this`passiveTimes, this`bulkTimes
    {
      && 0 < now && passive.start <= now && bulk.start <= now
      && (forall i :: 0 <= i < |passiveTimes| ==> passiveTimes[i] <= now)
      && (forall i :: 0 <= i < |bulkTimes| ==> bulkTimes[i] <= now)
    }

    /** The window check for a new key. Looking at the clock may open a fresh window. */
    method CheckRate(now: Time, isBulk: bool) returns (retryAfter: Option<int>)
      requires Windowed() && ClockAt(now)
      modifies this`passive, this`bulk, this`passiveEarlier, this`bulkEarlier
      ensures Windowed() && ClockAt(now)
      ensures var w := Current(if isBulk then old(bulk) else old(passive), now);
              && (if isBulk then bulk == w && passive == old(passive) else passive == w && bulk == old(bulk))
              && (retryAfter.Some? <==> w.count >= AdmissionLimit(isBulk))
              && (retryAfter.Some? ==>
                  0 < retryAfter.value <= WINDOW_SECONDS && retryAfter.value == w.start + WINDOW_SECONDS - now)
              && (retryAfter.None? ==> w.start != 0 && w.start <= now)
      ensures retryAfter.Some? <==> old(WindowFull(isBulk, now))
    {
      if isBulk {
        CurrentTracks(bulk, AdmissionLimit(true), bulkTimes, bulkEarlier, now);
        bulkEarlier := EarlierAt(bulk, bulkTimes, bulkEarlier, now);
        bulk := Current(bulk, now);
      } else {
        CurrentTracks(passive, AdmissionLimit(false), passiveTimes, passiveEarlier, now);
        passiveEarlier := EarlierAt(passive, passiveTimes, passiveEarlier, now);
        passive := Current(passive, now);
      }
      var w := if isBulk then bulk else passive;
      retryAfter := if w.count >= AdmissionLimit(isBulk) then Some(w.start + WINDOW_SECONDS - now) else None;
    }

    function Prepared(es: Entries, incoming: Meta, encoded: nat): Meta {
      incoming.(
        pins := if incoming.key in es then es[incoming.key].pins else incoming.pins,
        metadataLength := encoded)
    }

    /** What a put is charged: how much larger it is than the entry it replaces. */
    function Charge(es: Entries, m: Meta): int {
      Max(0, m.Size() - if m.key in es then es[m.key].Size() else 0)
    }

    ghost predicate KeptOthers(before: Entries, after: Entries, now: Time, replacing: Key) {
      && (forall key :: key in after && key != replacing ==> key in before && after[key] == before[key])
      && (forall key :: key in before && key != replacing && before[key].Pinned() && !Expired(before[key], now) ==>
            key in after)
    }

    lemma KeptThenSet(before: Entries, admitted: Entries, m: Meta, now: Time)
      requires Kept(before, admitted, now, m.key)
      ensures KeptOthers(before, admitted[m.key := m], now, m.key)
      ensures m.key in admitted <==> m.key in before
      ensures m.key in before ==> admitted[m.key] == before[m.key]
    {
    }

    /** Taking the published entry back shows what admission left. */
    lemma BackTo(before: Entries, admitted: Entries, m: Meta)
      requires m.key in admitted <==> m.key in before
      requires m.key in before ==> admitted[m.key] == before[m.key]
      ensures m.key in before ==> admitted[m.key := m][m.key := before[m.key]] == admitted
      ensures m.key !in before ==> admitted[m.key := m] - {m.key} == admitted
    {
    }

    lemma KeptAll(es: Entries, now: Time, key: Key)
      ensures Kept(es, es, now, key)
    {
    }

    /** The rate check for a new key, then room for it. */
    method AdmitPut(m: Meta, now: Time, isBulk: bool, download: bool) returns (error: Option<StoreError>)
      requires Valid() && ClockAt(now)
      modifies this`entries, this`bytes, this`pinnedBytes, this`scopeCounts, this`unpinnedScopeCounts
      modifies this`operations
      modifies this`nextExpiry, this`passive, this`bulk, this`passiveEarlier, this`bulkEarlier
      ensures Valid() && ClockAt(now) && Drift() == old(Drift()) && bytes <= old(bytes)
      ensures Kept(old(entries), entries, now, m.key)
      ensures error.Some? ==> error.value.RateLimited? || error.value in {EntryLimit, ByteLimit, RemoveFailed}
      ensures error.Some? && error.value.RateLimited? <==> m.key !in old(entries) && old(WindowFull(isBulk, now))
      ensures error.Some? && error.value.RateLimited? ==> entries == old(entries)
      ensures error in {None, Some(EntryLimit), Some(ByteLimit)} ==>
        AdmittedFrom(old(entries), entries, error, now, Drift(), reserved, m, download)
      ensures error == None ==>
        !Crowded(entries, Drift(), reserved, m.scope, m.key, m.Size(), !download || !downloadsUseDisk)
      ensures error == None && m.key !in old(entries) ==>
        var w := if isBulk then bulk else passive;
        w.count < AdmissionLimit(isBulk) && w.start != 0 && w.start <= now
      ensures operations >= old(operations)
      ensures NothingFails(old(operations), operations) ==> error != Some(RemoveFailed)
    {
      hide Indexed, Windowed, Drift, Crowded, Unexpired, EvictedInOrder, CrowdedThroughout, Current;
      if m.key !in entries {
        var retryAfter := CheckRate(now, isBulk);
        if retryAfter.Some? {
          return Some(RateLimited(retryAfter.value));
        }
      }
      ghost var gone;
      error, gone := AdmitLocked(now, m.scope, m.key, m.Size(), download);
      assert error != Some(RemoveFailed) ==>
        AdmittedFrom(old(entries), entries, error, now, Drift(), reserved, m, download);
    }

    /** The class's window has let in all it may, and is still open at `now`. */
    predicate WindowFull(isBulk: bool, now: Time)
      reads this`passive, this`bulk
    {
      var w := if isBulk then bulk else passive;
      w.count >= AdmissionLimit(isBulk) && w.start != 0 && now - w.start < 60
    }

    /** Everything a put asks for before it writes: rate, room, disk and byte budget. A
        refusal charges nothing. */
    method ReservePut(m: Meta, now: Time, budget: AdmissionBudget?, download: bool, charge: int)
        returns (error: Option<StoreError>)
      requires Valid() && ClockAt(now)
      requires budget != null ==> budget.Valid()
      modifies this`entries, this`bytes, this`pinnedBytes, this`scopeCounts, this`unpinnedScopeCounts
      modifies this`operations
      modifies this`nextExpiry, this`passive, this`bulk, this`passiveEarlier, this`bulkEarlier
      modifies if budget == null then {} else {budget}
      ensures Valid() && ClockAt(now) && Drift() == old(Drift()) && bytes <= old(bytes)
      ensures Kept(old(entries), entries, now, m.key)
      ensures error.Some? ==>
        error.value.RateLimited? || error.value in {EntryLimit, ByteLimit, RemoveFailed, NoDiskSpace, OverBudget}
      ensures error.Some? && error.value.RateLimited? <==>
        m.key !in old(entries) && old(WindowFull(budget != null, now))
      ensures error.Some? && error.value.RateLimited? ==> entries == old(entries)
      ensures error in {Some(EntryLimit), Some(ByteLimit)} ==>
        AdmittedFrom(old(entries), entries, error, now, Drift(), reserved, m, download)
      ensures error in {None, Some(NoDiskSpace), Some(OverBudget)} ==>
        AdmittedFrom(old(entries), entries, None, now, Drift(), reserved, m, download)
      ensures error == Some(NoDiskSpace) ==> useAvailableStorage || download
      ensures error == Some(OverBudget) ==> budget != null && !(0 <= charge <= budget.limit - old(budget.used))
      ensures error == None && budget != null ==> charge <= budget.limit - old(budget.used)
      ensures budget != null ==>
        budget.Valid() && budget.used == old(budget.used) + if error == None then charge else 0
      ensures error == None ==>
        !Crowded(entries, Drift(), reserved, m.scope, m.key, m.Size(), !download || !downloadsUseDisk)
      ensures error == None && m.key !in old(entries) ==>
        var w := if budget != null then bulk else passive;
        w.count < AdmissionLimit(budget != null) && w.start != 0 && w.start <= now
      ensures operations >= old(operations)
      ensures NothingFails(old(operations), operations) ==> error !in {Some(RemoveFailed), Some(NoDiskSpace)}
    {
      hide Indexed, Windowed, Drift, Crowded, ClockAt, Kept, AdmittedFrom, WindowFull;
      error := AdmitPut(m, now, budget != null, download);
      if error.Some? {
        return;
      }
      if useAvailableStorage || download {
        var diskFull := fails(operations);
        operations := operations + 1;
        if diskFull {
          return Some(NoDiskSpace);
        }
      }
      if budget != null {
        var ok := budget.Admit(charge);
        if !ok {
          return Some(OverBudget);
        }
      }
    }

    /** Publishes a stored pair in the index. */
    method PublishEntry(m: Meta, ghost download: bool)
      requires Indexed()
      requires !Crowded(entries, Drift(), reserved, m.scope, m.key, m.Size(), !download || !downloadsUseDisk)
      requires if download then downloadsUseDisk else Charged(m)
      modifies this`entries, this`bytes, this`pinnedBytes, this`scopeCounts, this`unpinnedScopeCounts, this`nextExpiry
      ensures Indexed() && Drift() == old(Drift())
      ensures entries == old(entries)[m.key := m]
      ensures bytes <= old(bytes) + Charge(old(entries), m)
      ensures |entries| <= maxEntries
      ensures !download ==>
        && WithinLimits(m.scope, m.key in old(entries) ==> old(entries)[m.key].scope == m.scope)
        && (if downloadsUseDisk then bytes - pinnedBytes <= maxBytes else bytes + reserved <= maxBytes)
    {
      hide Indexed, Total;
      if m.key in entries {
        bytes := bytes - entries[m.key].Size();
      }
      SetTotals(entries, m);
      SetEntryLocked(m);
      bytes := bytes + m.Size();
      CountersAreTotals(m.scope);
      assert entries.Keys == old(entries).Keys + {m.key};
    }

    /** Charges a new key to its admission window. */
    method CountAdmission(isBulk: bool, now: Time)
      requires Windowed() && ClockAt(now)
      requires var w := if isBulk then bulk else passive;
               w.count < AdmissionLimit(isBulk) && w.start != 0 && w.start <= now
      modifies this`passive, this`bulk, this`passiveTimes, this`bulkTimes
      ensures Windowed() && ClockAt(now)
      ensures passiveTimes == old(passiveTimes) + if isBulk then [] else [now]
      ensures bulkTimes == old(bulkTimes) + if isBulk then [now] else []
    {
      if isBulk {
        AdmitTracks(bulk, AdmissionLimit(true), bulkTimes, bulkEarlier, now);
        bulk := bulk.(count := bulk.count + 1);
        bulkTimes := bulkTimes + [now];
      } else {
        AdmitTracks(passive, AdmissionLimit(false), passiveTimes, passiveEarlier, now);
        passive := passive.(count := passive.count + 1);
        passiveTimes := passiveTimes + [now];
      }
    }

    /** The table without what was just published: what admission left. */
    function Unpublished(before: Entries, after: Entries, key: Key): Entries {
      if key in before then after[key := before[key]] else after - {key}
    }

    /** What a put is refused for, before and after it looks for room. */
    ghost predicate EarlyRefusal(error: StoreError) {
      error.RateLimited? || error in {MetadataTooLarge, EntryTooLarge}
    }

    ghost predicate LateRefusal(error: StoreError) {
      error in {EntryLimit, ByteLimit, RemoveFailed, NoDiskSpace, OverBudget, WriteFailed}
    }

    /** A refused put leaves what its admission left. */
    ghost predicate RefusedAfter(before: Entries, after: Entries, error: StoreError, now: Time, drift: int,
                                 reserve: int, m: Meta, download: bool) {
      LateRefusal(error) && error != RemoveFailed ==>
        AdmittedFrom(before, after, if error in {EntryLimit, ByteLimit} then Some(error) else None, now, drift, reserve,
                     m, download)
    }

    /** Stores an entry whose pins and sidecar are settled. */
    method PutPrepared(m: Meta, now: Time, budget: AdmissionBudget?, download: bool, charge: int)
        returns (r: PutResult)
      requires Valid() && ClockAt(now)
      requires budget != null ==> budget.Valid()
      requires charge == Charge(entries, m) && download == IsDownload(m, budget != null)
      modifies this`entries, this`bytes, this`pinnedBytes, this`scopeCounts, this`unpinnedScopeCounts
      modifies this`operations
      modifies this`nextExpiry, this`passive, this`bulk
      modifies this`passiveTimes, this`passiveEarlier, this`bulkTimes, this`bulkEarlier
      modifies if budget == null then {} else {budget}
      ensures Valid() && ClockAt(now) && Drift() == old(Drift())
      ensures r.Saved? ==>
        && m.key in entries && entries[m.key] == m && r.charge == charge
        && KeptOthers(old(entries), entries, now, m.key)
        && bytes <= old(bytes) + charge && |entries| <= maxEntries
        && AdmittedFrom(old(entries), Unpublished(old(entries), entries, m.key), None, now, Drift(), reserved, m,
                        download)
      ensures r.Saved? && !download ==>
        && WithinLimits(m.scope, m.key in old(entries) ==> old(entries)[m.key].scope == m.scope)
        && (if downloadsUseDisk then bytes - pinnedBytes <= maxBytes else bytes + reserved <= maxBytes)
      ensures r.Refused? ==> Kept(old(entries), entries, now, m.key) && bytes <= old(bytes)
      ensures r.Refused? && r.error.RateLimited? <==> m.key !in old(entries) && old(WindowFull(budget != null, now))
      ensures r.Refused? && r.error.RateLimited? ==> entries == old(entries)
      ensures r.Refused? ==> r.error.RateLimited? || LateRefusal(r.error)
      ensures r.Refused? ==> RefusedAfter(old(entries), entries, r.error, now, Drift(), reserved, m, download)
      ensures r == Refused(OverBudget) ==> budget != null && charge > budget.limit - old(budget.used)
      ensures r == Refused(NoDiskSpace) ==> useAvailableStorage || download
      ensures budget != null ==>
        budget.Valid() &&
        budget.used == old(budget.used) + if r.Saved? || r == Refused(WriteFailed) then charge else 0
      ensures passiveTimes ==
        old(passiveTimes) + if r.Saved? && m.key !in old(entries) && budget == null then [now] else []
      ensures bulkTimes ==
        old(bulkTimes) + if r.Saved? && m.key !in old(entries) && budget != null then [now] else []
      ensures operations >= old(operations)
      ensures NothingFails(old(operations), operations) ==>
        r !in {Refused(RemoveFailed), Refused(NoDiskSpace), Refused(WriteFailed)}
    {
      hide Indexed, Windowed, Drift, Crowded, ClockAt, WithinLimits;
      hide Kept, KeptOthers, AdmittedFrom, WindowFull, AdmissionLimit, Unexpired;
      var error := ReservePut(m, now, budget, download, charge);
      if error.Some? {
        return Refused(error.value);
      }
      KeptThenSet(old(entries), entries, m, now);
      BackTo(old(entries), entries, m);
      var written := WriteEntry(m, now, budget != null, download);
      r := if written then Saved(charge) else Refused(WriteFailed);
    }

    /** Writes the two files, publishes the entry and counts a new key. */
    method WriteEntry(m: Meta, now: Time, isBulk: bool, download: bool) returns (written: bool)
      requires Valid() && ClockAt(now) && download == IsDownload(m, isBulk)
      requires !Crowded(entries, Drift(), reserved, m.scope, m.key, m.Size(), !download || !downloadsUseDisk)
      requires m.key !in entries ==>
        var w := if isBulk then bulk else passive;
        w.count < AdmissionLimit(isBulk) && w.start != 0 && w.start <= now
      modifies this`entries, this`bytes, this`pinnedBytes, this`scopeCounts, this`unpinnedScopeCounts
      modifies this`nextExpiry, this`passive, this`bulk, this`passiveTimes, this`bulkTimes, this`operations
      ensures Valid() && ClockAt(now) && Drift() == old(Drift())
      ensures entries == if written then old(entries)[m.key := m] else old(entries)
      ensures bytes <= old(bytes) + if written then Charge(old(entries), m) else 0
      ensures written ==> |entries| <= maxEntries
      ensures written && !download ==>
        && WithinLimits(m.scope, m.key in old(entries) ==> old(entries)[m.key].scope == m.scope)
        && (if downloadsUseDisk then bytes - pinnedBytes <= maxBytes else bytes + reserved <= maxBytes)
      ensures passiveTimes == old(passiveTimes) + if written && m.key !in old(entries) && !isBulk then [now] else []
      ensures bulkTimes == old(bulkTimes) + if written && m.key !in old(entries) && isBulk then [now] else []
      ensures operations == old(operations) + 1 && (written <==> !fails(old(operations)))
    {
      hide Indexed, Windowed, Drift, Crowded, ClockAt, WithinLimits, AdmissionLimit;
      written := !fails(operations);
      operations := operations + 1;
      if written {
        var replacing := m.key in entries;
        PublishEntry(m, download);
        if !replacing {
          CountAdmission(isBulk, now);
        }
      }
    }

    /** Stores an entry. `budget` is the byte budget of a bulk download, or null for a
        request that is only passing by. */
    method Put(incoming: Meta, encoded: nat, now: Time, budget: AdmissionBudget?) returns (r: PutResult)
      requires Valid() && ClockAt(now)
      requires budget != null ==> budget.Valid()
      modifies this`entries, this`bytes, this`pinnedBytes, this`scopeCounts, this`unpinnedScopeCounts
      modifies this`operations
      modifies this`nextExpiry, this`passive, this`bulk
      modifies this`passiveTimes, this`passiveEarlier, this`bulkTimes, this`bulkEarlier
      modifies if budget == null then {} else {budget}
      ensures Valid() && ClockAt(now) && Drift() == old(Drift())
      // the entry: the incoming one, but a listed entry's pins stay as they are
      ensures r.Saved? ==>
        var key, before := incoming.key, old(entries);
        && key in entries
        && entries[key].pins == (if key in before then before[key].pins else incoming.pins)
        && entries[key] == incoming.(pins := entries[key].pins, metadataLength := encoded)
        && r.charge == Max(0, incoming.length + encoded - if key in before then before[key].Size() else 0)
      // the other entries: as admission left them
      ensures r.Saved? ==>
        && KeptOthers(old(entries), entries, now, incoming.key)
        && AdmittedFrom(old(entries), Unpublished(old(entries), entries, incoming.key), None, now, Drift(), reserved,
                        entries[incoming.key], IsDownload(entries[incoming.key], budget != null))
      ensures r.Saved? ==> bytes <= old(bytes) + r.charge && |entries| <= maxEntries
      ensures r.Saved? && (!downloadsUseDisk || (budget == null && entries[incoming.key].pins == {})) ==>
        && WithinLimits(incoming.scope,
                        incoming.key in old(entries) ==> old(entries)[incoming.key].scope == incoming.scope)
        && (if downloadsUseDisk then bytes - pinnedBytes <= maxBytes else bytes + reserved <= maxBytes)
      ensures r.Refused? ==> Kept(old(entries), entries, now, incoming.key) && bytes <= old(bytes)
      // the reasons
      ensures var m := Prepared(old(entries), incoming, encoded);
              && (r == Refused(MetadataTooLarge) <==> encoded > MAX_METADATA_BYTES)
              && (r == Refused(EntryTooLarge) <==>
                    && encoded <= MAX_METADATA_BYTES && incoming.length + encoded > maxBytes
                    && !IsDownload(m, budget != null))
              && (r.Refused? && r.error.RateLimited? <==>
                    && r != Refused(MetadataTooLarge) && r != Refused(EntryTooLarge)
                    && incoming.key !in old(entries) && old(WindowFull(budget != null, now)))
              && (r.Refused? && EarlyRefusal(r.error) ==> entries == old(entries))
              && (r.Refused? ==> EarlyRefusal(r.error) || LateRefusal(r.error))
              && (r.Refused? ==> RefusedAfter(old(entries), entries, r.error, now, Drift(), reserved, m,
                                              IsDownload(m, budget != null)))
      ensures r == Refused(OverBudget) ==>
        && budget != null
        && Charge(old(entries), Prepared(old(entries), incoming, encoded)) > budget.limit - old(budget.used)
      // the byte budget
      ensures budget != null ==> budget.Valid()
      ensures budget != null && r.Saved? ==> budget.used == old(budget.used) + r.charge
      ensures budget != null && r.Refused? && r.error != WriteFailed ==> budget.used == old(budget.used)
      ensures budget != null && r == Refused(WriteFailed) ==>
        budget.used == old(budget.used) + Charge(old(entries), Prepared(old(entries), incoming, encoded))
      // the admission windows
      ensures passiveTimes ==
        old(passiveTimes) + if r.Saved? && incoming.key !in old(entries) && budget == null then [now] else []
      ensures bulkTimes ==
        old(bulkTimes) + if r.Saved? && incoming.key !in old(entries) && budget != null then [now] else []
      ensures operations >= old(operations)
      ensures NothingFails(old(operations), operations) ==>
        r !in {Refused(RemoveFailed), Refused(NoDiskSpace), Refused(WriteFailed)}
    {
      hide Indexed, Windowed, Drift, ClockAt, WithinLimits, Kept, KeptOthers, AdmittedFrom, WindowFull, RefusedAfter;
      var m := Prepared(entries, incoming, encoded);
      var download := IsDownload(m, budget != null);
      if encoded > MAX_METADATA_BYTES || (m.Size() > maxBytes && !download) {
        KeptAll(entries, now, m.key);
        EarlyIsNotLate(entries, now, m, download);
        return Refused(if encoded > MAX_METADATA_BYTES then MetadataTooLarge else EntryTooLarge);
      }
      r := PutPrepared(m, now, budget, download, Charge(entries, m));
    }

    lemma EarlyIsNotLate(es: Entries, now: Time, m: Meta, download: bool)
      ensures forall error, drift, reserve :: EarlyRefusal(error) ==>
                RefusedAfter(es, es, error, now, drift, reserve, m, download)
    {
    }

    // ------------------------------------------------------------------ metadata

    /** Every eviction was made while the charged bytes were over the limit. */
    ghost predicate OverThroughout(es: Entries, gone: seq<Key>, drift: int, reserve: int, limit: int) {
      forall i :: 0 <= i < |gone| ==> ChargedTotal(Without(es, gone[..i]), drift, reserve) > limit
    }

    lemma OverOneMore(es: Entries, gone: seq<Key>, key: Key, drift: int, reserve: int, limit: int)
      requires OverThroughout(es, gone, drift, reserve, limit)
      requires ChargedTotal(Without(es, gone), drift, reserve) > limit
      ensures OverThroughout(es, gone + [key], drift, reserve, limit)
    {
      hide Without, ChargedTotal;
      var more := gone + [key];
      forall i | 0 <= i < |more|
        ensures ChargedTotal(Without(es, more[..i]), drift, reserve) > limit
      {
        assert more[..i] == gone[..i];
      }
    }

    /** Evicts in least-recently-used order while the charged bytes are over `limit`; ends
        within it, with nothing evictable left, or at a removal that fails. */
    method EvictOver(limit: int) returns (failed: bool, ghost gone: seq<Key>)
      requires Indexed()
      modifies this`entries, this`bytes, this`pinnedBytes, this`scopeCounts, this`unpinnedScopeCounts
      modifies this`operations
      ensures Indexed() && Drift() == old(Drift()) && bytes <= old(bytes)
      ensures entries == Without(old(entries), gone) && EvictedInOrder(old(entries), gone, None)
      ensures OverThroughout(old(entries), gone, Drift(), reserved, limit)
      ensures failed || ChargedBytes() <= limit || forall key :: !Evictable(entries, key, None)
      ensures old(ChargedBytes()) <= limit ==> gone == []
      ensures operations >= old(operations)
      ensures NothingFails(old(operations), operations) ==> !failed
    {
      hide Indexed, Drift, LeastRecent, Without, Evictable;
      gone, failed := [], false;
      assert EvictedInOrder(entries, gone, None);
      assert OverThroughout(entries, gone, Drift(), reserved, limit);
      hide EvictedInOrder, OverThroughout, ChargedTotal;
      WithoutNone(entries);
      while ChargedBytes() > limit
        invariant Indexed() && Drift() == old(Drift()) && bytes <= old(bytes)
        invariant entries == Without(old(entries), gone) && EvictedInOrder(old(entries), gone, None)
        invariant OverThroughout(old(entries), gone, Drift(), reserved, limit)
        invariant old(ChargedBytes()) <= limit ==> gone == [] && ChargedBytes() == old(ChargedBytes())
        invariant operations >= old(operations)
        decreases |entries|
      {
        CountersAreTotals("");
        var eviction := EvictLRULocked(None);
        if !eviction.Evicted? {
          failed := eviction.EvictionFailed?;
          return;
        }
        EvictOneMore(old(entries), gone, None, eviction.key);
        OverOneMore(old(entries), gone, eviction.key, Drift(), reserved, limit);
        gone := gone + [eviction.key];
      }
    }

    /** Evicts browsing data until it is back under its quota or nothing may go, unless a
        removal fails. */
    method TrimBrowsingLocked() returns (ghost failed: bool, ghost gone: seq<Key>)
      requires Indexed()
      modifies this`entries, this`bytes, this`pinnedBytes, this`scopeCounts, this`unpinnedScopeCounts
      modifies this`operations
      ensures Indexed() && Drift() == old(Drift()) && bytes <= old(bytes)
      ensures entries == Without(old(entries), gone) && EvictedInOrder(old(entries), gone, None)
      ensures OverThroughout(old(entries), gone, Drift(), reserved, maxBytes)
      ensures forall key :: key in entries ==> key in old(entries) && entries[key] == old(entries)[key]
      ensures forall key :: key in old(entries) && old(entries)[key].Pinned() ==> key in entries
      ensures failed || ChargedBytes() <= maxBytes || forall key :: !Evictable(entries, key, None)
      ensures old(ChargedBytes()) <= maxBytes ==> entries == old(entries)
      ensures operations >= old(operations)
      ensures NothingFails(old(operations), operations) ==> !failed
    {
      hide Indexed, Drift;
      var stopped;
      stopped, gone := EvictOver(maxBytes);
      failed := stopped;
      forall key | key in old(entries) && old(entries)[key].Pinned()
        ensures key in entries
      {
        EvictionSpares(old(entries), gone, None, key);
      }
    }

    /** Publishes a rewritten sidecar of an entry that is already listed. */
    method RepublishLocked(m: Meta)
      requires Indexed() && m.key in entries
      modifies this`entries, this`bytes, this`pinnedBytes, this`scopeCounts, this`unpinnedScopeCounts, this`nextExpiry
      ensures Indexed() && entries == old(entries)[m.key := m]
      ensures Drift() == old(Drift()) + old(entries)[m.key].length - m.length
    {
      hide Indexed, Total;
      bytes := bytes - entries[m.key].metadataLength;
      SetEntryLocked(m);
      bytes := bytes + m.metadataLength;
    }

    /** Rewrites one sidecar. `bytes` is adjusted by the sidecar's length alone, so the
        total stays exact just when the body length is the published one. */
    method UpdateMetadataLocked(incoming: Meta, encoded: nat, now: Time) returns (error: Option<StoreError>)
      requires Indexed()
      modifies this`entries, this`bytes, this`pinnedBytes, this`scopeCounts, this`unpinnedScopeCounts, this`nextExpiry
      modifies this`operations
      ensures Indexed()
      ensures Drift() == old(Drift()) + if error == None && incoming.key in old(entries)
                                        then old(entries)[incoming.key].length - incoming.length else 0
      ensures error.Some? || incoming.key !in old(entries) ==> Kept(old(entries), entries, now, incoming.key)
      ensures error == None && incoming.key in old(entries) ==>
        && KeptOthers(old(entries), entries, now, incoming.key)
        && (incoming.key in entries ==> entries[incoming.key] == incoming.(metadataLength := encoded))
        && (incoming.Pinned() || !old(entries)[incoming.key].Pinned() ==> incoming.key in entries)
      ensures encoded > MAX_METADATA_BYTES <==> error == Some(MetadataTooLarge)
      ensures encoded > MAX_METADATA_BYTES || incoming.key !in old(entries) ==> entries == old(entries)
      ensures incoming.key !in old(entries) ==> error.None? || error == Some(MetadataTooLarge)
      ensures error.Some? ==> error.value in {MetadataTooLarge, EntryLimit, ByteLimit, RemoveFailed, WriteFailed}
      ensures operations >= old(operations)
      ensures NothingFails(old(operations), operations) ==> error !in {Some(RemoveFailed), Some(WriteFailed)}
      ensures error in {Some(EntryLimit), Some(ByteLimit)} ==>
        forall key :: !Evictable(entries, key, Some(incoming.key))
    {
      hide Indexed, Drift, EvictedInOrder, CrowdedThroughout, Crowded, OverEntries, OverBytes, Without;
      if encoded > MAX_METADATA_BYTES {
        return Some(MetadataTooLarge);
      }
      if incoming.key !in entries {
        return None;
      }
      ghost var gone;
      error, gone := AdmitLocked(now, incoming.scope, incoming.key, incoming.length + encoded, true);
      if error.Some? {
        return;
      }
      var writeFailed := fails(operations);
      operations := operations + 1;
      if writeFailed {
        return Some(WriteFailed);
      }
      var previous := entries[incoming.key];
      var m := incoming.(metadataLength := encoded);
      RepublishLocked(m);
      if downloadsUseDisk && previous.Pinned() && !m.Pinned() {
        ghost var failed, gone := TrimBrowsingLocked();
      }
    }

    /** Adds or removes one owner's pin on an entry. Other entries keep their pins. */
    method Pin(key: Key, owner: PinOwner, pinned: bool, encoded: nat, now: Time) returns (error: Option<StoreError>)
      requires Indexed()
      modifies this`entries, this`bytes, this`pinnedBytes, this`scopeCounts, this`unpinnedScopeCounts, this`nextExpiry
      modifies this`operations
      ensures Indexed() && Drift() == old(Drift())
      ensures key !in old(entries) ==> error == Some(NotAvailable) && entries == old(entries)
      ensures pinned && key in old(entries) && !StaleAllowed(old(entries)[key], now) ==>
        error == Some(NotRetained) && entries == old(entries)
      ensures forall other :: other in entries && other != key ==>
        other in old(entries) && entries[other] == old(entries)[other]
      ensures pinned && error == None ==>
        key in entries && entries[key].pins == old(entries)[key].pins + {owner}
      ensures !pinned && error == None && key in entries ==>
        key in old(entries) && entries[key].pins == old(entries)[key].pins - {owner}
      ensures error.Some? && key in entries ==> key in old(entries) && entries[key] == old(entries)[key]
      ensures operations >= old(operations)
      ensures error.Some? ==>
        error.value in
        {NotAvailable, NotRetained, MetadataTooLarge, EntryLimit, ByteLimit, RemoveFailed, WriteFailed}
      ensures NothingFails(old(operations), operations) ==> error !in {Some(RemoveFailed), Some(WriteFailed)}
      ensures error == Some(MetadataTooLarge) ==> encoded > MAX_METADATA_BYTES
      ensures error in {Some(EntryLimit), Some(ByteLimit)} ==> forall other :: !Evictable(entries, other, Some(key))
      ensures error == Some(NotAvailable) ==> key !in old(entries)
      ensures error == Some(NotRetained) ==> pinned && key in old(entries) && !StaleAllowed(old(entries)[key], now)
    {
      hide Indexed, Drift;
      if key !in entries {
        return Some(NotAvailable);
      }
      if pinned && !StaleAllowed(entries[key], now) {
        return Some(NotRetained);
      }
      var m := entries[key];
      KeyedBy(key);
      error := UpdateMetadataLocked(m.(pins := if pinned then m.pins + {owner} else m.pins - {owner}), encoded, now);
    }

    lemma KeyedBy(key: Key)
      requires Indexed() && key in entries
      ensures entries[key].key == key
    {
    }

    /** The sidecar stays small enough to be stored with these pins. */
    predicate SidecarFits(m: Meta, pins: set<PinOwner>) {
      sidecarLength(m.(pins := pins, metadataLength := 0)) <= MAX_METADATA_BYTES
    }

    ghost predicate SidecarsFit(es: Entries, targets: map<Key, set<PinOwner>>)
      requires targets.Keys <= es.Keys
    {
      forall key :: key in targets ==> SidecarFits(es[key], targets[key])
    }

    /** One pin rewrite inside a reconciliation: no admission, no trimming. */
    method UpdatePinsLocked(key: Key, pins: set<PinOwner>) returns (ok: bool)
      requires Indexed() && key in entries
      modifies this`entries, this`bytes, this`pinnedBytes, this`scopeCounts, this`unpinnedScopeCounts, this`nextExpiry
      modifies this`operations
      ensures Indexed() && Drift() == old(Drift())
      ensures !ok ==> entries == old(entries)
      ensures entries.Keys == old(entries).Keys
      ensures forall other :: other in entries && other != key ==> entries[other] == old(entries)[other]
      ensures ok ==> Repinned(old(entries)[key], entries[key], pins)
      ensures operations >= old(operations)
      ensures NothingFails(old(operations), operations) && SidecarFits(old(entries)[key], pins) ==> ok
    {
      hide Indexed, Drift;
      KeyedBy(key);
      var m := entries[key];
      if m.pins == pins {
        return true;
      }
      var encoded := sidecarLength(m.(pins := pins, metadataLength := 0));
      if encoded > MAX_METADATA_BYTES {
        return false;
      }
      var failed := fails(operations);
      operations := operations + 1;
      if failed {
        return false;
      }
      RepublishLocked(m.(pins := pins, metadataLength := encoded));
      return true;
    }

    /** Sets every entry's pins, one sidecar at a time, in any order. `moments` are the
        states between the sidecar writes. */
    method RepinLocked(targets: map<Key, set<PinOwner>>) returns (ok: bool, ghost moments: seq<Entries>)
      requires Indexed() && targets.Keys == entries.Keys
      modifies this`entries, this`bytes, this`pinnedBytes, this`scopeCounts, this`unpinnedScopeCounts, this`nextExpiry
      modifies this`operations
      ensures Indexed() && Drift() == old(Drift())
      ensures Stages(moments, old(entries), entries, targets)
      ensures ok ==> RepinnedFully(old(entries), entries, targets)
      ensures operations >= old(operations)
      ensures NothingFails(old(operations), operations) && SidecarsFit(old(entries), targets) ==> ok
    {
      hide Indexed, Drift, Stages;
      var rest := entries.Keys;
      moments := [entries];
      assert Stages(moments, entries, entries, targets) by { FirstStage(entries, targets); }
      while rest != {}
        invariant Indexed() && Drift() == old(Drift())
        invariant rest <= entries.Keys && entries.Keys == old(entries).Keys
        invariant forall key :: key in rest ==> entries[key] == old(entries)[key]
        invariant forall key :: key in entries && key !in rest ==>
          Repinned(old(entries)[key], entries[key], targets[key])
        invariant Stages(moments, old(entries), entries, targets)
        invariant operations >= old(operations)
        decreases rest
      {
        var key :| key in rest;
        rest := rest - {key};
        ghost var before := entries;
        ok := UpdatePinsLocked(key, targets[key]);
        if !ok {
          return;
        }
        assert entries == before[key := entries[key]];
        NextStage(moments, old(entries), before, entries, targets);
        moments := moments + [entries];
      }
      ok := true;
    }

    /** Adds an owner's pin to the wanted keys and, when replacing, drops it elsewhere.
        No other owner's pin moves, on success or failure. */
    method UpdatePinOwner(owner: PinOwner, wanted: set<Key>, replace: bool, now: Time)
        returns (ok: bool, unavailable: set<Key>, ghost moments: seq<Entries>)
      requires Indexed()
      modifies this`entries, this`bytes, this`pinnedBytes, this`scopeCounts, this`unpinnedScopeCounts, this`nextExpiry
      modifies this`operations
      ensures Indexed() && Drift() == old(Drift())
      ensures unavailable == wanted - Retained(old(entries), now)
      ensures Stages(moments, old(entries), entries, OwnerTargets(old(entries), owner, wanted, replace, now))
      ensures ok ==> RepinnedFully(old(entries), entries, OwnerTargets(old(entries), owner, wanted, replace, now))
      // the owner's pin, and everybody else's
      ensures entries.Keys == old(entries).Keys
      ensures forall key :: key in entries ==> entries[key].pins - {owner} == old(entries)[key].pins - {owner}
      ensures ok ==> forall key :: key in entries ==>
                (owner in entries[key].pins <==>
                   || (key in wanted && StaleAllowed(old(entries)[key], now))
                   || (owner in old(entries)[key].pins && !replace))
      ensures operations >= old(operations)
      ensures NothingFails(old(operations), operations) ==>
        SidecarsFit(old(entries), OwnerTargets(old(entries), owner, wanted, replace, now)) ==> ok
    {
      hide Indexed, Drift;
      ghost var targets := OwnerTargets(entries, owner, wanted, replace, now);
      unavailable := wanted - Retained(entries, now);
      ok, moments := RepinLocked(OwnerTargets(entries, owner, wanted, replace, now));
      assert RepinnedPartly(old(entries), moments[|moments| - 1], targets);
    }

    /** Replaces the authoritative pin state at startup. */
    method ReconcilePins(desired: map<Key, set<PinOwner>>, now: Time)
        returns (ok: bool, unavailable: set<Key>, ghost moments: seq<Entries>)
      requires Indexed()
      modifies this`entries, this`bytes, this`pinnedBytes, this`scopeCounts, this`unpinnedScopeCounts, this`nextExpiry
      modifies this`operations
      ensures Indexed() && Drift() == old(Drift())
      ensures unavailable == set key | key in desired && desired[key] != {} && key !in Retained(old(entries), now)
      ensures Stages(moments, old(entries), entries, DesiredTargets(old(entries), desired, now))
      ensures ok ==> RepinnedFully(old(entries), entries, DesiredTargets(old(entries), desired, now))
      ensures entries.Keys == old(entries).Keys
      ensures ok ==> forall key :: key in entries ==>
                entries[key].pins == if key in desired && StaleAllowed(old(entries)[key], now) then desired[key] else {}
      ensures operations >= old(operations)
      ensures NothingFails(old(operations), operations) ==>
        SidecarsFit(old(entries), DesiredTargets(old(entries), desired, now)) ==> ok
    {
      hide Indexed, Drift;
      unavailable := set key | key in desired && desired[key] != {} && key !in Retained(entries, now);
      ok, moments := RepinLocked(DesiredTargets(entries, desired, now));
    }

    /** A hit moves the access time in place; no index depends on it. */
    method Touch(key: Key, now: Time)
      requires Indexed() && key in entries
      modifies this`entries
      ensures Indexed() && Drift() == old(Drift())
      ensures entries == old(entries)[key := old(entries)[key].(lastAccess := now)]
    {
      hide Balanced, Total;
      TouchKeepsTotals(entries, key, now);
      entries := entries[key := entries[key].(lastAccess := now)];
      assert Balanced(Books(), entries) by { TouchKeepsBalance(Books(), old(entries), key, now); }
    }

    // -------------------------------------------------- startup, clearing, reserving

    /** Indexes the sidecars found at startup in walk order; the last of two wins. */
    method LoadIndex(metas: seq<Meta>)
      requires Indexed()
      modifies this`entries, this`bytes, this`pinnedBytes, this`scopeCounts, this`unpinnedScopeCounts, this`nextExpiry
      ensures Indexed() && Drift() == old(Drift())
      ensures entries == Loaded(old(entries), metas)
      ensures forall key :: key in entries <==> key in old(entries) || Names(metas, key)
      ensures forall i :: IsLast(metas, i) ==> metas[i].key in entries && entries[metas[i].key] == metas[i]
      ensures forall key :: key in old(entries) && !Names(metas, key) ==> entries[key] == old(entries)[key]
    {
      ghost var before := entries;
      hide Indexed, Drift;
      for i := 0 to |metas|
        invariant Indexed() && Drift() == old(Drift())
        invariant entries == Loaded(old(entries), metas[..i])
      {
        assert metas[..i + 1][..i] == metas[..i];
        LoadEntry(metas[i]);
      }
      assert metas[..|metas|] == metas;
      hide Loaded, Names, IsLast;
      forall key
        ensures key in entries <==> key in before || Names(metas, key)
        ensures forall i :: IsLast(metas, i) && metas[i].key == key ==> entries[key] == metas[i]
        ensures key in before && !Names(metas, key) ==> entries[key] == before[key]
      {
        LastWins(before, metas, key);
      }
      forall i | IsLast(metas, i)
        ensures 0 <= i < |metas| && metas[i].key in entries
      {
        LastIsNamed(metas, i);
      }
    }

    method LoadEntry(m: Meta)
      requires Indexed()
      modifies this`entries, this`bytes, this`pinnedBytes, this`scopeCounts, this`unpinnedScopeCounts, this`nextExpiry
      ensures Indexed() && Drift() == old(Drift())
      ensures entries == old(entries)[m.key := m]
    {
      hide Indexed, Total;
      if m.key in entries {
        bytes := bytes - entries[m.key].Size();
      }
      SetEntryLocked(m);
      bytes := bytes + m.Size();
    }

    /** Removes every unpinned entry of one scope, or of all scopes. */
    method Clear(scope: Option<Scope>) returns (ok: bool)
      requires Indexed()
      modifies this`entries, this`bytes, this`pinnedBytes, this`scopeCounts, this`unpinnedScopeCounts
      modifies this`operations
      ensures Indexed() && Drift() == old(Drift())
      ensures ok ==>
        entries == map key | key in old(entries) && !Clearable(old(entries)[key], scope) :: old(entries)[key]
      ensures forall key :: key in entries ==> key in old(entries) && entries[key] == old(entries)[key]
      ensures forall key :: key in old(entries) && key !in entries ==>
                !old(entries)[key].Pinned() && (scope.None? || old(entries)[key].scope == scope.value)
      ensures !ok ==> forall key :: key in old(entries) && !Clearable(old(entries)[key], scope) ==> key in entries
      ensures operations >= old(operations)
      ensures NothingFails(old(operations), operations) ==> ok
    {
      hide Indexed, Drift;
      var rest := entries.Keys;
      while rest != {}
        invariant Indexed() && Drift() == old(Drift())
        invariant rest <= entries.Keys
        invariant forall key :: key in entries ==> key in old(entries) && entries[key] == old(entries)[key]
        invariant forall key :: key in old(entries) && !Clearable(old(entries)[key], scope) ==> key in entries
        invariant forall key :: key in entries && key !in rest ==> !Clearable(entries[key], scope)
        invariant operations >= old(operations)
        decreases rest
      {
        var key :| key in rest;
        rest := rest - {key};
        if Clearable(entries[key], scope) {
          var removal := RemoveLocked(entries[key].scope, key);
          if removal == Failed {
            return false;
          }
        }
      }
      ok := true;
    }

    /** Reserves room for control files against the same quota, evicting if it must. A
        smaller reservation, or one bounded by the disk, evicts nothing. */
    method ReserveControlStorage(wanted: int) returns (ok: bool, ghost gone: seq<Key>)
      requires Indexed()
      modifies this`entries, this`bytes, this`pinnedBytes, this`scopeCounts, this`unpinnedScopeCounts, this`reserved
      modifies this`operations
      ensures Indexed() && Drift() == old(Drift()) && bytes <= old(bytes)
      ensures reserved == if ok then wanted else old(reserved)
      ensures ok && !downloadsUseDisk && wanted > old(reserved) ==> bytes + reserved <= maxBytes
      ensures entries == Without(old(entries), gone) && EvictedInOrder(old(entries), gone, None)
      ensures forall i :: 0 <= i < |gone| ==>
                !downloadsUseDisk && wanted > old(reserved) &&
                Total(Without(old(entries), gone[..i]), Stored) + Drift() > maxBytes - wanted
      ensures forall key :: key in entries ==> key in old(entries) && entries[key] == old(entries)[key]
      ensures wanted < 0 || (!downloadsUseDisk && wanted > maxBytes) ==> !ok && gone == []
      ensures 0 <= wanted && (wanted <= old(reserved) <= maxBytes || downloadsUseDisk) ==> ok && gone == []
      ensures forall key :: key in old(entries) && old(entries)[key].Pinned() ==> key in entries
      ensures operations >= old(operations)
      ensures NothingFails(old(operations), operations) && 0 <= wanted && (downloadsUseDisk || wanted <= maxBytes) ==>
        ok || forall key :: !Evictable(entries, key, None)
    {
      hide Indexed, Drift, EvictedInOrder, Without;
      gone := [];
      WithoutNone(entries);
      assert EvictedInOrder(entries, gone, None) by { NoneInOrder(entries); }
      if wanted < 0 || (!downloadsUseDisk && wanted > maxBytes) {
        return false, gone;
      }
      if wanted > reserved && !downloadsUseDisk {
        var failed;
        failed, gone := EvictOver(maxBytes - wanted + reserved);
        forall key | key in old(entries) && old(entries)[key].Pinned()
          ensures key in entries
        {
          EvictionSpares(old(entries), gone, None, key);
        }
        WithoutOnlyRemoves(old(entries), gone);
        if bytes > maxBytes - wanted {
          return false, gone;
        }
      }
      reserved := wanted;
      ok := true;
    }

    lemma NoneInOrder(es: Entries)
      ensures EvictedInOrder(es, [], None)
    {
    }
  }

  function Loaded(es: Entries, metas: seq<Meta>): Entries {
    if metas == [] then es
    else var last := metas[|metas| - 1]; Loaded(es, metas[..|metas| - 1])[last.key := last]
  }

  predicate Names(metas: seq<Meta>, key: Key) { exists i :: 0 <= i < |metas| && metas[i].key == key }

  /** The last sidecar of its key. */
  predicate IsLast(metas: seq<Meta>, i: int) {
    0 <= i < |metas| && forall j :: i < j < |metas| ==> metas[j].key != metas[i].key
  }

  /** Of the sidecars of one key the last is listed; a key without any keeps its entry. */
  lemma {:induction false} LastWins(es: Entries, metas: seq<Meta>, key: Key)
    ensures key in Loaded(es, metas) <==> key in es || Names(metas, key)
    ensures forall i :: IsLast(metas, i) && metas[i].key == key ==> Loaded(es, metas)[key] == metas[i]
    ensures key in es && !Names(metas, key) ==> Loaded(es, metas)[key] == es[key]
  {
    if metas != [] {
      var n := |metas| - 1;
      LastWins(es, metas[..n], key);
      if metas[n].key == key {
        assert Names(metas, key);
        assert forall i :: IsLast(metas, i) && metas[i].key == key ==> i == n;
      } else {
        assert forall i :: IsLast(metas, i) && metas[i].key == key ==> IsLast(metas[..n], i);
        if Names(metas, key) {
          var i :| 0 <= i < |metas| && metas[i].key == key;
          assert metas[..n][i].key == key;
        }
      }
    }
  }

  lemma LastIsNamed(metas: seq<Meta>, i: int)
    requires IsLast(metas, i)
    ensures 0 <= i < |metas| && Names(metas, metas[i].key)
  {
  }

  predicate Clearable(m: Meta, scope: Option<Scope>) { (scope == None || scope == Some(m.scope)) && !m.Pinned() }

  /** Republishing a sidecar changes the tracked total by the two sidecar lengths only,
      so the total stays exact if and only if the body length is the published one. */
  lemma RepublishExactIff(entries: Entries, bytes: int, m: Meta)
    requires m.key in entries && bytes == Total(entries, Stored)
    ensures bytes - entries[m.key].metadataLength + m.metadataLength == Total(entries[m.key := m], Stored)
       <==> m.length == entries[m.key].length
  {
    SetTotals(entries, m);
  }

  /** Metadata copied before a replacement and written back after it, as a flush of access
      times does: the byte total is off by the difference of the two body lengths, for good. */
  method StaleFlushDrifts(store: Store, snapshot: Meta, incoming: Meta, encoded: nat, flushed: nat, now: Time)
    returns (done: bool)
    requires store.Valid() && store.ClockAt(now)
    requires snapshot.key in store.entries && store.entries[snapshot.key] == snapshot
    requires incoming.key == snapshot.key
    modifies store
    ensures store.Valid()
    ensures done ==> store.Drift() == old(store.Drift()) + incoming.length - snapshot.length
    ensures !done ==> store.Drift() == old(store.Drift())
  {
    hide Store.Indexed, Store.Windowed, Store.Drift, Store.ClockAt;
    var r := store.Put(incoming, encoded, now, null);
    if r.Refused? {
      return false;
    }
    var error := store.UpdateMetadataLocked(snapshot, flushed, now);
    done := error == None;
  }
}
