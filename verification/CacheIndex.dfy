/**
  The values behind the response cache: entry metadata, the totals its derived
  indexes must equal, expiry deadlines, and the order and extent of evictions.
 */
module CacheIndex {
  import opened Options

  type Key = string
  type Scope = string
  type PinOwner = string
  /** Seconds; zero is the absent time. */
  type Time = int

  datatype Meta = Meta(
    key: Key,
    scope: Scope,
    length: nat,
    metadataLength: nat,
    staleUntil: Time,
    deleteNoLaterThan: Time,
    lastAccess: Time,
    pins: set<PinOwner>)
  {
    function Size(): nat { length + metadataLength }
    predicate Pinned() { pins != {} }
  }

  type Entries = map<Key, Meta>

  ghost predicate WellKeyed(entries: Entries) {
    forall key :: key in entries ==> entries[key].key == key
  }

  // --------------------------------------------------------------------- totals

  datatype Measure = Stored | PinnedStored | InScope(scope: Scope) | UnpinnedInScope(scope: Scope)

  function Weight(w: Measure, m: Meta): int {
    match w
    case Stored => m.Size()
    case PinnedStored => if m.Pinned() then m.Size() else 0
    case InScope(scope) => if m.scope == scope then 1 else 0
    case UnpinnedInScope(scope) => if m.scope == scope && !m.Pinned() then 1 else 0
  }

  /** The sum of a measure over the whole entry table, recomputed from nothing. */
  ghost function Total(entries: Entries, w: Measure): int {
    if entries == map[] then 0
    else var key :| key in entries; Weight(w, entries[key]) + Total(entries - {key}, w)
  }

  lemma {:induction false} TotalRemove(entries: Entries, key: Key, w: Measure)
    requires key in entries
    ensures Total(entries, w) == Weight(w, entries[key]) + Total(entries - {key}, w)
    decreases entries.Keys
  {
    var first :| first in entries && Total(entries, w) == Weight(w, entries[first]) + Total(entries - {first}, w);
    if first != key {
      TotalRemove(entries - {first}, key, w);
      TotalRemove(entries - {key}, first, w);
      assert entries - {first} - {key} == entries - {key} - {first};
    }
  }

  lemma RemoveTotals(entries: Entries, key: Key)
    requires key in entries
    ensures forall w :: Total(entries - {key}, w) == Total(entries, w) - Weight(w, entries[key])
  {
    forall w
      ensures Total(entries - {key}, w) == Total(entries, w) - Weight(w, entries[key])
    {
      TotalRemove(entries, key, w);
    }
  }

  function WeightAt(entries: Entries, key: Key, w: Measure): int {
    if key in entries then Weight(w, entries[key]) else 0
  }

  lemma SetTotals(entries: Entries, m: Meta)
    ensures forall w :: Total(entries[m.key := m], w)
              == Total(entries, w) - WeightAt(entries, m.key, w) + Weight(w, m)
  {
    forall w
      ensures Total(entries[m.key := m], w) == Total(entries, w) - WeightAt(entries, m.key, w) + Weight(w, m)
    {
      var after := entries[m.key := m];
      TotalRemove(after, m.key, w);
      assert after - {m.key} == entries - {m.key};
      if m.key in entries {
        TotalRemove(entries, m.key, w);
      } else {
        assert entries - {m.key} == entries;
      }
    }
  }

  // --------------------------------------------------------- the derived indexes

  datatype Ledger = Ledger(pinnedBytes: int, scopeCounts: map<Scope, int>, unpinnedScopeCounts: map<Scope, int>)

  function Count(counts: map<Scope, int>, scope: Scope): int { if scope in counts then counts[scope] else 0 }

  function Bump(counts: map<Scope, int>, scope: Scope, delta: int): map<Scope, int> {
    counts[scope := Count(counts, scope) + delta]
  }

  function CountPinning(l: Ledger, m: Meta, sign: int): Ledger {
    if m.Pinned() then l.(pinnedBytes := l.pinnedBytes + sign * m.Size())
    else l.(unpinnedScopeCounts := Bump(l.unpinnedScopeCounts, m.scope, sign))
  }

  function CountEntry(l: Ledger, m: Meta, sign: int): Ledger {
    CountPinning(l.(scopeCounts := Bump(l.scopeCounts, m.scope, sign)), m, sign)
  }

  /** Every derived index equals its recomputation over the entry table. */
  ghost predicate Balanced(l: Ledger, entries: Entries) {
    && l.pinnedBytes == Total(entries, PinnedStored)
    && (forall scope :: Count(l.scopeCounts, scope) == Total(entries, InScope(scope)))
    && (forall scope :: Count(l.unpinnedScopeCounts, scope) == Total(entries, UnpinnedInScope(scope)))
  }

  lemma BalancedAfterRemove(l: Ledger, entries: Entries, key: Key)
    requires Balanced(l, entries) && key in entries
    ensures Balanced(CountEntry(l, entries[key], -1), entries - {key})
  {
    RemoveTotals(entries, key);
    var m := entries[key];
    var after := CountEntry(l, m, -1);
    assert forall scope :: Count(after.scopeCounts, scope) == Count(l.scopeCounts, scope) - Weight(InScope(scope), m);
    assert forall scope ::
      Count(after.unpinnedScopeCounts, scope) ==
      Count(l.unpinnedScopeCounts, scope) - Weight(UnpinnedInScope(scope), m);
  }

  lemma BalancedAfterAdd(l: Ledger, entries: Entries, m: Meta)
    requires Balanced(l, entries) && m.key !in entries
    ensures Balanced(CountEntry(l, m, 1), entries[m.key := m])
  {
    SetTotals(entries, m);
    var after := CountEntry(l, m, 1);
    assert forall scope :: Count(after.scopeCounts, scope) == Count(l.scopeCounts, scope) + Weight(InScope(scope), m);
    assert forall scope ::
      Count(after.unpinnedScopeCounts, scope) ==
      Count(l.unpinnedScopeCounts, scope) + Weight(UnpinnedInScope(scope), m);
  }

  lemma BalancedAfterSet(l: Ledger, entries: Entries, m: Meta)
    requires Balanced(l, entries)
    ensures m.key in entries ==> Balanced(CountEntry(CountEntry(l, entries[m.key], -1), m, 1), entries[m.key := m])
    ensures m.key !in entries ==> Balanced(CountEntry(l, m, 1), entries[m.key := m])
  {
    if m.key in entries {
      BalancedAfterRemove(l, entries, m.key);
      BalancedAfterAdd(CountEntry(l, entries[m.key], -1), entries - {m.key}, m);
      assert (entries - {m.key})[m.key := m] == entries[m.key := m];
    } else {
      BalancedAfterAdd(l, entries, m);
    }
  }

  // --------------------------------------------------------------------- expiry

  /** The earliest time at which an entry must go, or zero. */
  function Deadline(m: Meta): Time {
    if !m.Pinned() && m.staleUntil != 0 && (m.deleteNoLaterThan == 0 || m.staleUntil < m.deleteNoLaterThan)
    then m.staleUntil else m.deleteNoLaterThan
  }

  function Earlier(current: Time, m: Meta): Time {
    if Deadline(m) != 0 && (current == 0 || Deadline(m) < current) then Deadline(m) else current
  }

  lemma EarlierIsLeast(current: Time, m: Meta)
    ensures var next := Earlier(current, m);
            && (next == current || next == Deadline(m))
            && (current != 0 ==> next != 0 && next <= current)
            && (Deadline(m) != 0 ==> next != 0 && next <= Deadline(m))
  {
  }

  predicate Expired(m: Meta, now: Time) {
    || (m.deleteNoLaterThan != 0 && now >= m.deleteNoLaterThan)
    || (!m.Pinned() && m.staleUntil != 0 && now >= m.staleUntil)
  }

  /** `next` is no later than any deadline, and zero only if there is none. */
  ghost predicate BoundsDeadlines(next: Time, entries: Entries) {
    forall key :: key in entries && Deadline(entries[key]) != 0 ==> next != 0 && next <= Deadline(entries[key])
  }

  lemma BoundsAfterSet(next: Time, entries: Entries, m: Meta)
    requires BoundsDeadlines(next, entries)
    ensures BoundsDeadlines(Earlier(next, m), entries[m.key := m])
  {
  }

  lemma BoundsAfterRemove(next: Time, entries: Entries, key: Key)
    requires BoundsDeadlines(next, entries)
    ensures BoundsDeadlines(next, entries - {key})
  {
  }

  predicate ScanDue(next: Time, now: Time) { next != 0 && now >= next }

  /** What a scan leaves: the entry being replaced is never touched. */
  function Unexpired(entries: Entries, now: Time, replacing: Key): Entries {
    map key | key in entries && (key == replacing || !Expired(entries[key], now)) :: entries[key]
  }

  /** Skipping a scan that is not due loses nothing. */
  lemma LazyScanIsEager(next: Time, entries: Entries, now: Time, replacing: Key)
    requires BoundsDeadlines(next, entries) && !ScanDue(next, now)
    ensures Unexpired(entries, now, replacing) == entries
  {
    assert forall key :: key in entries && Expired(entries[key], now) ==>
      Deadline(entries[key]) != 0 && Deadline(entries[key]) <= now;
    assert Unexpired(entries, now, replacing).Keys == entries.Keys;
  }

  // ------------------------------------------------------------------ retention

  predicate StaleAllowed(m: Meta, now: Time) {
    (m.deleteNoLaterThan == 0 || now < m.deleteNoLaterThan) && (m.staleUntil == 0 || now < m.staleUntil)
  }

  /** A scan drops an unpinned entry exactly when it may no longer be served, and a pinned
      one exactly when its hard deadline is over. */
  lemma ExpiredIffUnservable(m: Meta, now: Time)
    ensures !m.Pinned() ==> (Expired(m, now) <==> !StaleAllowed(m, now))
    ensures m.Pinned() ==> (Expired(m, now) <==> m.deleteNoLaterThan != 0 && m.deleteNoLaterThan <= now)
    ensures Expired(m, now) ==> !StaleAllowed(m, now) && Deadline(m) != 0 && Deadline(m) <= now
    ensures !Expired(m, now) ==> Deadline(m) == 0 || now < Deadline(m)
  {
  }

  /** The entries that may still be served, and so pinned. */
  function Retained(entries: Entries, now: Time): set<Key> {
    set key | key in entries && StaleAllowed(entries[key], now)
  }

  // ----------------------------------------------------------------------- pins

  /** Only the pins changed, and with them the length of the sidecar. */
  predicate Repinned(before: Meta, after: Meta, pins: set<PinOwner>) {
    after == before.(pins := pins, metadataLength := after.metadataLength)
  }

  ghost predicate RepinnedFully(before: Entries, after: Entries, targets: map<Key, set<PinOwner>>) {
    && after.Keys == before.Keys == targets.Keys
    && forall key :: key in after ==> Repinned(before[key], after[key], targets[key])
  }

  /** A reconciliation cut anywhere: each entry is as it was or as it should be. */
  ghost predicate RepinnedPartly(before: Entries, after: Entries, targets: map<Key, set<PinOwner>>) {
    && after.Keys == before.Keys == targets.Keys
    && forall key :: key in after ==> after[key] == before[key] || Repinned(before[key], after[key], targets[key])
  }

  /** The states of a reconciliation, one sidecar apart, each cut from the first. */
  ghost predicate Stages(moments: seq<Entries>, before: Entries, after: Entries, targets: map<Key, set<PinOwner>>) {
    && |moments| > 0 && moments[0] == before && moments[|moments| - 1] == after
    && (forall i :: 0 <= i < |moments| ==> RepinnedPartly(before, moments[i], targets))
    && (forall i :: 0 < i < |moments| ==> OneSidecarApart(moments[i - 1], moments[i]))
  }

  ghost predicate OneSidecarApart(before: Entries, after: Entries) {
    exists key :: key in after && after == before[key := after[key]]
  }

  lemma FirstStage(entries: Entries, targets: map<Key, set<PinOwner>>)
    requires targets.Keys == entries.Keys
    ensures Stages([entries], entries, entries, targets)
  {
  }

  lemma NextStage(
    moments: seq<Entries>, before: Entries, now: Entries, after: Entries, targets: map<Key, set<PinOwner>>)
    requires Stages(moments, before, now, targets) && RepinnedPartly(before, after, targets)
    requires OneSidecarApart(now, after)
    ensures Stages(moments + [after], before, after, targets)
  {
    hide RepinnedPartly, OneSidecarApart;
  }

  function OwnerTargets(entries: Entries, owner: PinOwner, wanted: set<Key>, replace: bool, now: Time):
    (targets: map<Key, set<PinOwner>>)
    ensures targets.Keys == entries.Keys
  {
    map key | key in entries ::
      if key in wanted && key in Retained(entries, now) then entries[key].pins + {owner}
      else if replace then entries[key].pins - {owner}
      else entries[key].pins
  }

  function DesiredTargets(entries: Entries, desired: map<Key, set<PinOwner>>, now: Time):
    (targets: map<Key, set<PinOwner>>)
    ensures targets.Keys == entries.Keys
  {
    map key | key in entries :: if key in desired && key in Retained(entries, now) then desired[key] else {}
  }

  // -------------------------------------------------------------- access times

  lemma TouchKeepsTotals(entries: Entries, key: Key, now: Time)
    requires key in entries && entries[key].key == key
    ensures forall w :: Total(entries[key := entries[key].(lastAccess := now)], w) == Total(entries, w)
  {
    SetTotals(entries, entries[key].(lastAccess := now));
  }

  lemma TouchKeepsBalance(l: Ledger, entries: Entries, key: Key, now: Time)
    requires key in entries && entries[key].key == key && Balanced(l, entries)
    ensures Balanced(l, entries[key := entries[key].(lastAccess := now)])
  {
    TouchKeepsTotals(entries, key, now);
  }

  // ------------------------------------------------------------------- eviction

  function Without(entries: Entries, gone: seq<Key>): Entries { entries - set key | key in gone }

  predicate Evictable(entries: Entries, key: Key, spared: Option<Key>) {
    key in entries && !entries[key].Pinned() && spared != Some(key)
  }

  /** No evictable entry was used longer ago than `key`. */
  ghost predicate LeastRecent(entries: Entries, key: Key, spared: Option<Key>) {
    && Evictable(entries, key, spared)
    && forall other :: Evictable(entries, other, spared) ==> entries[key].lastAccess <= entries[other].lastAccess
  }

  /** `gone` left one by one, each the least recently used of what was still there. */
  ghost predicate EvictedInOrder(entries: Entries, gone: seq<Key>, spared: Option<Key>) {
    forall i :: 0 <= i < |gone| ==> LeastRecent(Without(entries, gone[..i]), gone[i], spared)
  }

  /** An eviction run takes no entry that is more recent than one it leaves. */
  lemma EvictionTakesOldest(entries: Entries, gone: seq<Key>, spared: Option<Key>, taken: Key, left: Key)
    requires EvictedInOrder(entries, gone, spared)
    requires taken in gone && Evictable(Without(entries, gone), left, spared)
    ensures taken in entries && !entries[taken].Pinned() && spared != Some(taken)
    ensures entries[taken].lastAccess <= entries[left].lastAccess
  {
    var i :| 0 <= i < |gone| && gone[i] == taken;
    assert LeastRecent(Without(entries, gone[..i]), gone[i], spared);
    assert Evictable(Without(entries, gone[..i]), left, spared);
  }

  /** Neither a pinned entry nor the spared one is ever evicted. */
  lemma EvictionSpares(entries: Entries, gone: seq<Key>, spared: Option<Key>, key: Key)
    requires EvictedInOrder(entries, gone, spared)
    requires key in entries && (entries[key].Pinned() || spared == Some(key))
    ensures key in Without(entries, gone)
  {
    forall i | 0 <= i < |gone|
      ensures gone[i] != key
    {
      assert LeastRecent(Without(entries, gone[..i]), gone[i], spared);
    }
  }

  lemma WithoutOnlyRemoves(entries: Entries, gone: seq<Key>)
    ensures forall key :: key in Without(entries, gone) ==>
              key in entries && Without(entries, gone)[key] == entries[key]
  {
  }

  lemma WithoutNone(entries: Entries)
    ensures Without(entries, []) == entries
  {
  }

  lemma EvictOneMore(entries: Entries, gone: seq<Key>, spared: Option<Key>, key: Key)
    requires EvictedInOrder(entries, gone, spared)
    requires LeastRecent(Without(entries, gone), key, spared)
    ensures Without(entries, gone + [key]) == Without(entries, gone) - {key}
    ensures EvictedInOrder(entries, gone + [key], spared)
  {
    var more := gone + [key];
    assert (set k | k in more) == (set k | k in gone) + {key};
    forall i | 0 <= i < |more|
      ensures LeastRecent(Without(entries, more[..i]), more[i], spared)
    {
      assert more[..i] == gone[..i];
    }
  }
}
