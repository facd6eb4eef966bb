/**
  What one pack adds to the store, however the puts of its workers interleave with
  everything else that happens there.
 */
module PackBudget {
  import opened Admission
  import opened CacheIndex
  import opened CacheStore
  import opened Options

  /** One locked operation on the store, at its time. Own puts are charged to the budget of
      the pack, other puts to another pack's budget or to none. */
  datatype Operation =
    | OwnPut(incoming: Meta, encoded: nat)
    | OtherPut(incoming: Meta, encoded: nat, download: bool)
    | ChangePin(key: Key, owner: PinOwner, pinned: bool, encoded: nat)
    | WriteBack(incoming: Meta, encoded: nat)
    | SetPins(owner: PinOwner, wanted: set<Key>, replace: bool)
    | Reconcile(desired: map<Key, set<PinOwner>>)
    | Read(key: Key)
    | Remove(scope: Scope, key: Key)
    | Reserve(size: int)
    | Trim
    | Evict
    | Expire
    | Clear(cleared: Option<Scope>)

  predicate OfPins(operation: Operation) { operation.ChangePin? || operation.SetPins? || operation.Reconcile? }

  predicate OfPuts(operation: Operation) { operation.OwnPut? || operation.OtherPut? }

  predicate OfEntries(operation: Operation) { operation.WriteBack? || operation.Read? || operation.Remove? }

  datatype Event = Event(operation: Operation, now: Time)

  /** The operations whose business is an entry's pins, or that store a copy of them. */
  predicate MayRepin(operation: Operation, key: Key) {
    match operation
    case ChangePin(k, _, _, _) => k == key
    case WriteBack(incoming, _) => incoming.key == key
    case SetPins(_, _, _) => true
    case Reconcile(_) => true
    case _ => false
  }

  ghost predicate PinsKept(before: Entries, after: Entries, operation: Operation) {
    forall key :: key in before && key in after && !MayRepin(operation, key) ==> after[key].pins == before[key].pins
  }

  /** The table after each operation. */
  ghost predicate Traced(tables: seq<Entries>, events: seq<Event>, before: Entries, after: Entries) {
    && |tables| == |events| + 1 && tables[0] == before && tables[|events|] == after
    && forall i :: 0 <= i < |events| ==> PinsKept(tables[i], tables[i + 1], events[i].operation)
  }

  ghost predicate InOrder(events: seq<Event>) {
    && (forall i :: 0 <= i < |events| ==> events[i].now > 0)
    && (forall i, j :: 0 <= i < j < |events| ==> events[i].now <= events[j].now)
  }

  /** Runs any operations in any order. `growth` sums the changes of the stored bytes made
      by the pack's own puts; `charged` says what each operation charged to its budget. In
      all of it, no span shorter than a minute admits more than twice the limit of new keys
      of a class. */
  method Interleave(store: Store, budget: AdmissionBudget, other: AdmissionBudget, events: seq<Event>)
      returns (ghost growth: int, ghost charged: seq<int>, ghost tables: seq<Entries>)
    requires store.Valid() && budget.Valid() && other.Valid() && budget != other
    requires InOrder(events) && (events != [] ==> store.ClockAt(events[0].now))
    modifies store, budget, other
    ensures store.Valid() && budget.Valid()
    ensures Paced(store.passiveTimes, store.AdmissionLimit(false)) && Paced(store.bulkTimes, store.AdmissionLimit(true))
    ensures growth <= budget.used - old(budget.used) <= budget.limit
    ensures |charged| == |events| && budget.used - old(budget.used) == Sum(charged)
    ensures forall i :: 0 <= i < |events| ==> 0 <= charged[i] && (!events[i].operation.OwnPut? ==> charged[i] == 0)
    ensures Traced(tables, events, old(store.entries), store.entries)
  {
    growth, charged, tables := 0, [], [store.entries];
    for i := 0 to |events|
      invariant store.Valid() && budget.Valid() && other.Valid()
      invariant i < |events| ==> store.ClockAt(events[i].now)
      invariant growth <= budget.used - old(budget.used)
      invariant Traced(tables, events[..i], old(store.entries), store.entries)
      invariant |charged| == i && budget.used - old(budget.used) == Sum(charged)
      invariant forall j :: 0 <= j < i ==> 0 <= charged[j] && (!events[j].operation.OwnPut? ==> charged[j] == 0)
    {
      hide Store.Indexed, Store.Windowed, Store.Drift, Store.ClockAt, Traced, PinsKept;
      ghost var used, before := budget.used, store.entries;
      ghost var grown := Perform(store, budget, other, events[i]);
      growth := growth + grown;
      TraceGrows(tables, events[..i], events[i], old(store.entries), before, store.entries);
      assert events[..i] + [events[i]] == events[..i + 1];
      tables := tables + [store.entries];
      charged := charged + [budget.used - used];
      assert charged[..i] + [charged[i]] == charged;
      SumGrows(charged[..i], charged[i]);
      if i + 1 < |events| { ClockGoesOn(store, events[i].now, events[i + 1].now); }
    }
    assert events[..|events|] == events;
  }

  lemma TraceGrows(
    tables: seq<Entries>, events: seq<Event>, event: Event, first: Entries, before: Entries, after: Entries)
    requires Traced(tables, events, first, before) && PinsKept(before, after, event.operation)
    ensures Traced(tables + [after], events + [event], first, after)
  {
    hide PinsKept;
  }

  /** While an entry stays listed, its pins change only in operations on pins and in
      write-backs of a copy of it: no put takes a pin away or adds one. */
  lemma {:induction false} PinsStay(
    tables: seq<Entries>, events: seq<Event>, before: Entries, after: Entries, m: nat, n: nat, key: Key)
    requires Traced(tables, events, before, after) && m <= n <= |events|
    requires forall i :: m <= i <= n ==> key in tables[i]
    requires forall i :: m <= i < n ==> !MayRepin(events[i].operation, key)
    ensures tables[n][key].pins == tables[m][key].pins
    decreases n
  {
    if m < n {
      PinsStay(tables, events, before, after, m, n - 1, key);
      assert PinsKept(tables[n - 1], tables[n], events[n - 1].operation);
    }
  }

  /** One operation; `grown` is what a put of the pack added. */
  method Perform(store: Store, budget: AdmissionBudget, other: AdmissionBudget, event: Event)
      returns (ghost grown: int)
    requires store.Valid() && budget.Valid() && other.Valid() && budget != other
    requires store.ClockAt(event.now)
    modifies store, budget, other
    ensures store.Valid() && store.ClockAt(event.now) && budget.Valid() && other.Valid()
    ensures budget.used >= old(budget.used) && (!event.operation.OwnPut? ==> budget.used == old(budget.used))
    ensures grown == if event.operation.OwnPut? then store.bytes - old(store.bytes) else 0
    ensures grown <= budget.used - old(budget.used)
    ensures PinsKept(old(store.entries), store.entries, event.operation)
  {
    hide Store.Indexed, Store.Windowed, Store.Drift, Store.ClockAt, Store.AdmittedFrom, Store.RefusedAfter;
    if event.operation.OwnPut? {
      var r := store.Put(event.operation.incoming, event.operation.encoded, event.now, budget);
    } else if event.operation.OtherPut? {
      var charged := if event.operation.download then other else null;
      var r := store.Put(event.operation.incoming, event.operation.encoded, event.now, charged);
    } else if OfPins(event.operation) {
      Repin(store, event.operation, event.now);
    } else if OfEntries(event.operation) {
      UseEntry(store, event.operation, event.now);
    } else {
      MakeRoom(store, event.operation, event.now);
    }
    grown := if event.operation.OwnPut? then store.bytes - old(store.bytes) else 0;
  }

  /** The operations on pins: one entry's, one owner's, or all at startup. */
  method Repin(store: Store, operation: Operation, now: Time)
    requires store.Valid() && store.ClockAt(now) && OfPins(operation)
    modifies store
    ensures store.Valid() && store.ClockAt(now)
    ensures PinsKept(old(store.entries), store.entries, operation)
  {
    hide Store.Indexed, Store.Windowed, Store.Drift, Store.ClockAt, Stages;
    match operation
    case ChangePin(key, owner, pinned, encoded) =>
      var error := store.Pin(key, owner, pinned, encoded, now);
    case SetPins(owner, wanted, replace) =>
      ghost var moments;
      var ok, unavailable;
      ok, unavailable, moments := store.UpdatePinOwner(owner, wanted, replace, now);
    case Reconcile(desired) =>
      ghost var moments;
      var ok, unavailable;
      ok, unavailable, moments := store.ReconcilePins(desired, now);
  }

  /** The other operations on one entry. */
  method UseEntry(store: Store, operation: Operation, now: Time)
    requires store.Valid() && store.ClockAt(now) && OfEntries(operation)
    modifies store
    ensures store.Valid() && store.ClockAt(now)
    ensures PinsKept(old(store.entries), store.entries, operation)
  {
    hide Store.Indexed, Store.Windowed, Store.Drift, Store.ClockAt;
    match operation
    case WriteBack(incoming, encoded) =>
      var error := store.UpdateMetadataLocked(incoming, encoded, now);
    case Read(key) =>
      if key in store.entries { store.Touch(key, now); }
    case Remove(scope, key) =>
      var removal := store.RemoveLocked(scope, key);
  }

  /** The operations that look for entries to drop. */
  method MakeRoom(store: Store, operation: Operation, now: Time)
    requires store.Valid() && store.ClockAt(now)
    requires !OfPuts(operation) && !OfPins(operation) && !OfEntries(operation)
    modifies store
    ensures store.Valid() && store.ClockAt(now)
    ensures PinsKept(old(store.entries), store.entries, operation)
  {
    hide Store.Indexed, Store.Windowed, Store.Drift, Store.ClockAt, Store.OverThroughout;
    hide Without, EvictedInOrder, LeastRecent, Evictable, Total, Unexpired, Clearable, Expired, Deadline;
    match operation
    case Reserve(size) =>
      ghost var gone;
      var ok;
      ok, gone := store.ReserveControlStorage(size);
    case Trim =>
      ghost var failed, gone := store.TrimBrowsingLocked();
    case Evict =>
      var eviction := store.EvictLRULocked(None);
    case Expire =>
      var ok := store.ExpireLocked(now, "");
    case Clear(cleared) =>
      var ok := store.Clear(cleared);
  }

  lemma ClockGoesOn(store: Store, now: Time, later: Time)
    requires store.ClockAt(now) && now <= later
    ensures store.ClockAt(later)
  {
  }

  function Sum(charges: seq<int>): int {
    if charges == [] then 0 else Sum(charges[..|charges| - 1]) + charges[|charges| - 1]
  }

  lemma SumGrows(charges: seq<int>, charge: int)
    ensures Sum(charges + [charge]) == Sum(charges) + charge
  {
    assert (charges + [charge])[..|charges|] == charges;
  }
}
