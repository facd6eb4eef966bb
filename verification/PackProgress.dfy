/**
  The record a download keeps of itself: its counters, its per-category totals, the keys it
  owns and its state, and what every update of it keeps.
 */
module PackProgress {
  import opened Options
  import opened PackStates

  type Key = string

  datatype Category = VectorMap | Elevation | FuelPrices | FuelStations | Water | Campsites | Places | POIs

  datatype Progress = Progress(done: int, total: int, failed: int, bytes: int, items: int)

  /** How one resource ended. Elevation tiles have no cache key of their own. */
  datatype Outcome =
    | Accepted(category: Category, key: Option<Key>, bytes: int, items: int)
    | Failed(category: Category, bytes: int)

  const NOTHING := Progress(0, 0, 0, 0, 0)

  function Get(resources: map<Category, Progress>, c: Category): Progress {
    if c in resources then resources[c] else NOTHING
  }

  // --------------------------------------------------- recomputing from the outcomes

  function Count(log: seq<Outcome>, c: Category): int {
    if log == [] then 0 else Count(log[..|log| - 1], c) + if log[|log| - 1].category == c then 1 else 0
  }

  function CountFailed(log: seq<Outcome>, c: Category): int {
    if log == [] then 0
    else CountFailed(log[..|log| - 1], c) + if log[|log| - 1].category == c && log[|log| - 1].Failed? then 1 else 0
  }

  function SumBytes(log: seq<Outcome>, c: Category): int {
    if log == [] then 0
    else SumBytes(log[..|log| - 1], c) + if log[|log| - 1].category == c then log[|log| - 1].bytes else 0
  }

  function SumItems(log: seq<Outcome>, c: Category): int {
    if log == [] then 0
    else SumItems(log[..|log| - 1], c) + if log[|log| - 1].category == c then ItemsOf(log[|log| - 1]) else 0
  }

  function ItemsOf(o: Outcome): int { if o.Accepted? then o.items else 0 }

  function Failures(log: seq<Outcome>): int {
    if log == [] then 0 else Failures(log[..|log| - 1]) + if log[|log| - 1].Failed? then 1 else 0
  }

  function Bytes(log: seq<Outcome>): int { if log == [] then 0 else Bytes(log[..|log| - 1]) + log[|log| - 1].bytes }

  /** The keys of a log, each once, after those recorded before. */
  function Keys(recorded: seq<Key>, log: seq<Outcome>): seq<Key> {
    if log == [] then recorded
    else
      var before := Keys(recorded, log[..|log| - 1]);
      var last := log[|log| - 1];
      if last.Accepted? && last.key.Some? then WithKey(before, last.key.value) else before
  }

  function WithKey(keys: seq<Key>, key: Key): seq<Key> { if key in keys then keys else keys + [key] }

  predicate Distinct(keys: seq<Key>) { forall i, j :: 0 <= i < j < |keys| ==> keys[i] != keys[j] }

  datatype Field = DoneField | FailedField | BytesField

  function Pick(p: Progress, f: Field): int {
    match f
    case DoneField => p.done
    case FailedField => p.failed
    case BytesField => p.bytes
  }

  function OverAll(resources: map<Category, Progress>, f: Field): int { Sum(c => Pick(Get(resources, c), f)) }

  function Sum(of: Category -> int): int {
    of(VectorMap) + of(Elevation) + of(FuelPrices) + of(FuelStations) +
    of(Water) + of(Campsites) + of(Places) + of(POIs)
  }

  /** The overall counters are the sums of the categories'. */
  lemma {:induction false} TotalsAreSums(log: seq<Outcome>)
    ensures |log| == Sum(c => Count(log, c))
    ensures Failures(log) == Sum(c => CountFailed(log, c))
    ensures Bytes(log) == Sum(c => SumBytes(log, c))
  {
    if log != [] {
      TotalsAreSums(log[..|log| - 1]);
    }
  }

  lemma {:induction false} FailuresCount(log: seq<Outcome>)
    ensures 0 <= Failures(log) <= |log|
    ensures Failures(log) == 0 <==> forall i :: 0 <= i < |log| ==> log[i].Accepted?
  {
    if log != [] {
      FailuresCount(log[..|log| - 1]);
      assert forall i :: 0 <= i < |log| - 1 ==> log[..|log| - 1][i] == log[i];
    }
  }

  /** Nothing recorded is lost, every accepted key is recorded, and each once. */
  lemma {:induction false} KeysRecorded(recorded: seq<Key>, log: seq<Outcome>)
    requires Distinct(recorded)
    ensures Distinct(Keys(recorded, log)) && recorded <= Keys(recorded, log)
    ensures forall i :: 0 <= i < |log| && log[i].Accepted? && log[i].key.Some? ==>
              log[i].key.value in Keys(recorded, log)
    ensures forall k :: k in Keys(recorded, log) ==>
              k in recorded || exists i :: 0 <= i < |log| && log[i].Accepted? && log[i].key == Some(k)
  {
    if log != [] {
      var front := log[..|log| - 1];
      KeysRecorded(recorded, front);
      assert forall i :: 0 <= i < |front| ==> front[i] == log[i];
    }
  }

  predicate Fits(p: Progress, log: seq<Outcome>, c: Category) {
    && p.done == Count(log, c) && p.failed == CountFailed(log, c)
    && p.bytes == SumBytes(log, c) && p.items == SumItems(log, c)
  }

  function Plus(p: Progress, o: Outcome): Progress {
    p.(done := p.done + 1, bytes := p.bytes + o.bytes, items := p.items + ItemsOf(o),
       failed := p.failed + if o.Failed? then 1 else 0)
  }

  lemma OneMoreOutcome(log: seq<Outcome>, o: Outcome, recorded: seq<Key>)
    ensures Failures(log + [o]) == Failures(log) + if o.Failed? then 1 else 0
    ensures Bytes(log + [o]) == Bytes(log) + o.bytes
    ensures Keys(recorded, log + [o]) ==
            if o.Accepted? && o.key.Some? then WithKey(Keys(recorded, log), o.key.value) else Keys(recorded, log)
  {
    assert (log + [o])[..|log|] == log;
  }

  /** Every category's counters are those recomputed from the log. */
  ghost predicate AllFit(resources: map<Category, Progress>, log: seq<Outcome>) {
    forall c :: Fits(Get(resources, c), log, c)
  }

  function Grown(resources: map<Category, Progress>, o: Outcome): map<Category, Progress> {
    resources[o.category := Plus(Get(resources, o.category), o)]
  }

  lemma CategoriesGrow(resources: map<Category, Progress>, log: seq<Outcome>, o: Outcome)
    requires AllFit(resources, log)
    ensures AllFit(Grown(resources, o), log + [o])
  {
    assert (log + [o])[..|log|] == log;
    forall c
      ensures Fits(Get(Grown(resources, o), c), log + [o], c)
    {
      assert Fits(Get(resources, c), log, c);
    }
  }

  /** Counters that fit one log, with the same totals for the same categories, are the same. */
  lemma FittingIsUnique(a: map<Category, Progress>, b: map<Category, Progress>, log: seq<Outcome>)
    requires AllFit(a, log) && AllFit(b, log) && a.Keys == b.Keys
    requires forall c :: Get(a, c).total == Get(b, c).total
    ensures a == b
  {
    forall c | c in a
      ensures a[c] == b[c]
    {
      assert Fits(Get(a, c), log, c) && Fits(Get(b, c), log, c) && Get(a, c).total == Get(b, c).total;
    }
  }

  // ---------------------------------------------------------------------- the record

  /** One download's manifest. `cancellable` says that it still holds its job's cancel function,
      `stopped` that the job's context has ended. `recorded` (the keys of an earlier attempt)
      and `log` are ghost history. */
  datatype Record = Record(
    total: int, unavailable: nat, done: int, failures: int, bytes: int,
    resources: map<Category, Progress>, cacheKeys: seq<Key>, state: PackState,
    deleted: bool, cancellable: bool, stopped: bool, recorded: seq<Key>, log: seq<Outcome>)

  function New(total: int, unavailable: nat, totals: map<Category, Progress>, recorded: seq<Key>): Record {
    Record(total, unavailable, 0, 0, 0, totals, recorded, Queued, false, true, false, recorded, [])
  }

  /** Only totals are known of the categories at first. */
  predicate OnlyTotals(totals: map<Category, Progress>) {
    forall c :: c in totals ==> totals[c] == NOTHING.(total := totals[c].total)
  }

  /** The end of every update: one that cannot be saved stops the job. */
  function Saved(r: Record, saved: bool): Record {
    if saved then r else r.(state := Incomplete, stopped := r.stopped || r.cancellable, cancellable := false)
  }

  function Began(r: Record, saved: bool): Record {
    if r.deleted then r else Saved(r.(state := Running), saved)
  }

  /** One more resource has ended. */
  function Tallied(r: Record, o: Outcome): Record {
    r.(done := r.done + 1, failures := r.failures + if o.Failed? then 1 else 0, bytes := r.bytes + o.bytes,
       resources := Grown(r.resources, o), log := r.log + [o],
       cacheKeys := if o.Accepted? && o.key.Some? then WithKey(r.cacheKeys, o.key.value) else r.cacheKeys)
  }

  function Settled(r: Record, o: Outcome, saved: bool): Record { if r.deleted then r else Saved(Tallied(r, o), saved) }

  function MarkedIncomplete(r: Record, saved: bool): Record {
    if r.deleted then r else Saved(r.(state := Incomplete, cancellable := false), saved)
  }

  /** Whether the last update may call the download complete. */
  predicate Whole(r: Record) { r.failures == 0 && r.done == r.total && r.unavailable == 0 }

  function Finished(r: Record, saved: bool): Record {
    if r.deleted then r else Saved(r.(state := if Whole(r) then Complete else Incomplete, cancellable := false), saved)
  }

  function Deleted(r: Record): Record { r.(deleted := true, stopped := r.stopped || r.cancellable) }

  /** All counters equal their recomputation over what happened. */
  ghost predicate Exact(r: Record) {
    && r.done == |r.log| && r.failures == Failures(r.log) && r.bytes == Bytes(r.log)
    && AllFit(r.resources, r.log)
    && Distinct(r.recorded) && r.cacheKeys == Keys(r.recorded, r.log)
  }

  lemma NewIsExact(total: int, unavailable: nat, totals: map<Category, Progress>, recorded: seq<Key>)
    requires OnlyTotals(totals) && Distinct(recorded)
    ensures Exact(New(total, unavailable, totals, recorded))
  {
    forall c
      ensures Fits(Get(totals, c), [], c)
    {
    }
  }

  lemma TalliedIsExact(r: Record, o: Outcome)
    requires Exact(r)
    ensures Exact(Tallied(r, o))
  {
    hide Distinct, Failures, Bytes, Keys, AllFit, Grown, WithKey;
    OneMoreOutcome(r.log, o, r.recorded);
    CategoriesGrow(r.resources, r.log, o);
  }

  lemma UpdateKeepsExact(r: Record, o: Outcome, saved: bool)
    requires Exact(r)
    ensures Exact(Began(r, saved)) && Exact(Settled(r, o, saved))
    ensures Exact(MarkedIncomplete(r, saved)) && Exact(Finished(r, saved))
  {
    TalliedIsExact(r, o);
    hide AllFit, Distinct, Tallied, Keys, Failures, Bytes;
  }

  /** What the user is shown always adds up. */
  lemma CountersAreSums(r: Record)
    requires Exact(r)
    ensures r.done == OverAll(r.resources, DoneField)
    ensures r.failures == OverAll(r.resources, FailedField)
    ensures r.bytes == OverAll(r.resources, BytesField)
  {
    TotalsAreSums(r.log);
    hide Count, CountFailed, SumBytes, SumItems, Keys, Distinct, Failures, Bytes, Get;
    forall c
      ensures Fits(Get(r.resources, c), r.log, c)
    {
    }
  }

  /** Nothing failed: every resource that ended was accepted, and its key is recorded. */
  lemma NoFailureMeansAccepted(r: Record)
    requires Exact(r) && r.failures == 0
    ensures forall i :: 0 <= i < |r.log| ==>
              r.log[i].Accepted? && (r.log[i].key.Some? ==> r.log[i].key.value in r.cacheKeys)
    ensures forall k :: k in r.recorded ==> k in r.cacheKeys
  {
    FailuresCount(r.log);
    KeysRecorded(r.recorded, r.log);
  }

  lemma FitsBefore(r: Record)
    requires Exact(r)
    ensures AllFit(r.resources, r.log)
  {
  }

  lemma SameAsGrown(before: map<Category, Progress>, after: map<Category, Progress>, log: seq<Outcome>, o: Outcome)
    requires AllFit(before, log) && AllFit(after, log + [o]) && after.Keys == before.Keys + {o.category}
    requires forall c :: Get(after, c).total == Get(before, c).total
    ensures after == Grown(before, o)
  {
    CategoriesGrow(before, log, o);
    FittingIsUnique(after, Grown(before, o), log + [o]);
  }

  // -------------------------------------------------------------------- the manifest

  class Manifest {
    const total: int
    const unavailable: nat
    var done: int
    var failures: int
    var bytes: int
    var resources: map<Category, Progress>
    var cacheKeys: seq<Key>
    var cacheKeySet: Option<set<Key>>   // built when the first key is added
    var state: PackState
    var deleted: bool
    var cancellable: bool
    var stopped: bool
    ghost var recorded: seq<Key>
    ghost var log: seq<Outcome>

    ghost function Contents(): Record
      reads this
    {
      Record(total, unavailable, done, failures, bytes, resources, cacheKeys, state, deleted, cancellable, stopped,
             recorded, log)
    }

    predicate KeySetFits()
      reads this
    {
      cacheKeySet.Some? ==> cacheKeySet.value == set k | k in cacheKeys
    }

    ghost predicate Valid()
      reads this
    {
      Exact(Contents()) && KeySetFits()
    }

    constructor (total: int, unavailable: nat, totals: map<Category, Progress>, recorded: seq<Key>)
      requires OnlyTotals(totals) && Distinct(recorded)
      ensures Valid() && Contents() == New(total, unavailable, totals, recorded)
    {
      this.total, this.unavailable, this.recorded := total, unavailable, recorded;
      done, failures, bytes, resources, log := 0, 0, 0, totals, [];
      cacheKeys, cacheKeySet, state := recorded, None, Queued;
      deleted, cancellable, stopped := false, true, false;
      new;
      NewIsExact(total, unavailable, totals, recorded);
    }

    /** Counts one resource in its category: if all counters were those recomputed from a
        log, they are again with the outcome added, and the totals stay. */
    method UpdatePackResource(o: Outcome, ghost log: seq<Outcome>)
      requires AllFit(resources, log)
      modifies this`resources
      ensures AllFit(resources, log + [o])
      ensures forall c :: Get(resources, c).total == Get(old(resources), c).total
      ensures resources.Keys == old(resources).Keys + {o.category}
    {
      var progress := if o.category in resources then resources[o.category] else NOTHING;
      progress := progress.(done := progress.done + 1, bytes := progress.bytes + o.bytes,
                            items := progress.items + if o.Accepted? then o.items else 0);
      if o.Failed? {
        progress := progress.(failed := progress.failed + 1);
      }
      CategoriesGrow(resources, log, o);
      assert Grown(resources, o) == resources[o.category := progress];
      resources := resources[o.category := progress];
    }

    method AddCacheKey(key: Key)
      requires KeySetFits()
      modifies this`cacheKeys, this`cacheKeySet
      ensures cacheKeys == WithKey(old(cacheKeys), key)
      ensures forall k :: k in cacheKeys <==> k in old(cacheKeys) || k == key
      ensures cacheKeySet.Some? && KeySetFits()
    {
      if cacheKeySet.None? {
        var built: set<Key> := {};
        for i := 0 to |cacheKeys|
          invariant built == set k | k in cacheKeys[..i]
        {
          built := built + {cacheKeys[i]};
          assert cacheKeys[..i + 1] == cacheKeys[..i] + [cacheKeys[i]];
        }
        assert cacheKeys[..|cacheKeys|] == cacheKeys;
        cacheKeySet := Some(built);
      }
      if key !in cacheKeySet.value {
        cacheKeySet := Some(cacheKeySet.value + {key});
        cacheKeys := cacheKeys + [key];
      }
    }

    method Save(saved: bool)
      modifies this`state, this`stopped, this`cancellable
      ensures Contents() == Saved(old(Contents()), saved)
      ensures state == (if saved then old(state) else Incomplete)
      ensures stopped <==> old(stopped) || (!saved && old(cancellable))
      ensures cancellable <==> old(cancellable) && saved
    {
      if !saved {
        state := Incomplete;
        if cancellable {
          stopped, cancellable := true, false;
        }
      }
    }

    method Begin(saved: bool) returns (applied: bool)
      requires Valid()
      modifies this`state, this`stopped, this`cancellable
      ensures Valid() && Contents() == Began(old(Contents()), saved)
      ensures applied <==> !deleted && saved
      ensures state == (if deleted then old(state) else if saved then Running else Incomplete)
      ensures stopped <==> old(stopped) || (!deleted && !saved && old(cancellable))
    {
      if deleted {
        return false;
      }
      state := Running;
      Save(saved);
      applied := saved;
    }

    /** The counters, the categories and the keys move together. */
    method Tally(o: Outcome)
      requires Valid()
      modifies this
      ensures Valid() && Contents() == Tallied(old(Contents()), o)
      ensures done == old(done) + 1 && bytes == old(bytes) + o.bytes
      ensures failures == old(failures) + if o.Failed? then 1 else 0
      ensures forall key :: key in cacheKeys <==> key in old(cacheKeys) || (o.Accepted? && o.key == Some(key))
      ensures state == old(state) && stopped == old(stopped)
      ensures cancellable == old(cancellable) && deleted == old(deleted)
      ensures log == old(log) + [o] && recorded == old(recorded)
    {
      hide AllFit, Grown, WithKey, Get, Exact, Whole;
      TalliedIsExact(Contents(), o);
      FitsBefore(Contents());
      UpdatePackResource(o, log);
      SameAsGrown(old(resources), resources, log, o);
      done, bytes := done + 1, bytes + o.bytes;
      if o.Failed? {
        failures := failures + 1;
      } else if o.key.Some? {
        AddCacheKey(o.key.value);
      }
      log := log + [o];
    }

    /** Records how a resource ended, unless the download was deleted. */
    method Settle(o: Outcome, saved: bool) returns (applied: bool)
      requires Valid()
      modifies this
      ensures Valid() && Contents() == Settled(old(Contents()), o, saved)
      ensures applied <==> !deleted && saved
      ensures old(deleted) ==> Contents() == old(Contents())
      ensures !old(deleted) ==>
        && log == old(log) + [o] && done == old(done) + 1 && bytes == old(bytes) + o.bytes
        && failures == old(failures) + (if o.Failed? then 1 else 0)
        && (forall key :: key in cacheKeys <==> key in old(cacheKeys) || (o.Accepted? && o.key == Some(key)))
      ensures !old(deleted) ==> state == (if saved then old(state) else Incomplete)
      ensures !old(deleted) ==> (stopped <==> old(stopped) || (!saved && old(cancellable)))
      ensures deleted == old(deleted) && recorded == old(recorded)
    {
      hide Exact;
      UpdateKeepsExact(Contents(), o, saved);
      if deleted {
        return false;
      }
      Tally(o);
      Save(saved);
      applied := saved;
    }

    /** A stopped or limited job. The first error code stays; codes are not modelled. */
    method MarkIncomplete(saved: bool)
      requires Valid()
      modifies this`state, this`stopped, this`cancellable
      ensures Valid() && Contents() == MarkedIncomplete(old(Contents()), saved)
      ensures deleted ==> state == old(state) && cancellable == old(cancellable)
      ensures !deleted ==> state == Incomplete && !cancellable
      ensures stopped == old(stopped)
    {
      if !deleted {
        state, cancellable := Incomplete, false;
        Save(saved);
      }
    }

    /** The last update, after every stage has succeeded. */
    method Finish(saved: bool)
      requires Valid()
      modifies this`state, this`stopped, this`cancellable
      ensures Valid() && Contents() == Finished(old(Contents()), saved)
      ensures !deleted ==> (state == Complete <==> failures == 0 && done == total && unavailable == 0 && saved)
      ensures !deleted ==> !cancellable && (state == Complete || state == Incomplete)
      ensures deleted ==> state == old(state) && cancellable == old(cancellable)
      ensures stopped == old(stopped)
    {
      if deleted {
        return;
      }
      state := if failures == 0 && done == total && unavailable == 0 then Complete else Incomplete;
      cancellable := false;
      Save(saved);
    }

    method Delete()
      requires Valid()
      modifies this`deleted, this`stopped
      ensures Valid() && Contents() == Deleted(old(Contents()))
      ensures deleted && (stopped <==> old(stopped) || cancellable)
    {
      if cancellable {
        stopped := true;
      }
      deleted := true;
    }
  }
}
