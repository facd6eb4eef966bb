/**
  The outbound client: requests for the same thing share one fetch, and the queue of
  fetches is bounded as a whole, per provider and per signed-in owner.
 */
module Outbound {
  import opened Options
  import opened FiniteSets
  import opened Owners

  /** A cache key: 64 hexadecimal digits of a digest. */
  type Digest = s: string | |s| == 64 witness seq(64, _ => '0')

  type Provider = string

  datatype DataClass = Shared | OwnerScoped

  /** A request as coalescing sees it, and whose it is. */
  datatype Request = Request(provider: Provider, data: DataClass, key: Digest, owner: Option<Owner>)

  // --------------------------------------------------------------- coalescing keys

  function OwnerText(owner: Owner): string {
    match owner
    case Local => "local"
    case Account(name) => name
  }

  function StoreKey(r: Request): string {
    if r.data == OwnerScoped && r.owner.Some? then OwnerText(r.owner.value) + ":" + r.key else r.key
  }

  /** Whose answer a request may get: its owner's, where the data is an owner's. */
  function Whose(r: Request): Option<Owner> { if r.data == OwnerScoped then r.owner else None }

  /** Requests share a fetch exactly when they ask the same thing for the same owner, or both
      for nobody. */
  lemma ShareIff(a: Request, b: Request)
    ensures StoreKey(a) == StoreKey(b) <==> a.key == b.key && Whose(a) == Whose(b)
  {
    KeyLength(a);
    KeyLength(b);
    if StoreKey(a) == StoreKey(b) {
      var s := StoreKey(a);
      if Whose(a).Some? && Whose(b).Some? {
        var m := |OwnerText(a.owner.value)|;
        assert OwnerText(a.owner.value) == s[..m] && OwnerText(b.owner.value) == s[..m];
        assert a.key == s[m + 1..] && b.key == s[m + 1..];
      }
    }
  }

  lemma KeyLength(r: Request)
    ensures |StoreKey(r)| == 64 <==> Whose(r).None?
  {
  }

  lemma OwnersShareIff(a: Request, b: Request)
    requires a.data == b.data == OwnerScoped
    ensures StoreKey(a) == StoreKey(b) <==> a.key == b.key && a.owner == b.owner
  {
    ShareIff(a, b);
  }

  /** An owner's request never joins a shared fetch. */
  lemma SharedIsApart(a: Request, b: Request)
    requires a.data == OwnerScoped && a.owner.Some? && b.data == Shared
    ensures StoreKey(a) != StoreKey(b)
  {
    ShareIff(a, b);
  }

  // ------------------------------------------------------------------ the queue

  datatype Flight = Flight(id: nat, provider: Provider, owner: Option<Owner>)

  type Result = string

  datatype Answer = Answer(fetch: nat, result: Result)

  /** `waiters` are the callers with the fetch each waits for; `asked` and `results` are
      ghost history: every caller's request, every fetch's key, and how each ended. */
  datatype State = State(
    inflight: map<string, Flight>, pending: map<Provider, int>, pendingOwner: map<Option<Owner>, int>,
    waiters: map<nat, nat>, asked: map<nat, Request>, keys: seq<string>, results: map<nat, Result>,
    answers: map<nat, Answer>)

  datatype Limits = Limits(maxPending: nat, maxPerProvider: nat)

  datatype Step =
    | Ask(caller: nat, request: Request, gone: bool)   // `gone`: its context has already ended
    | FetchEnds(key: string, result: Result)
    | Return(caller: nat)
    | GiveUp(caller: nat)

  const DEFAULT_LIMITS := Limits(64, 16)

  function Initial(): State { State(map[], map[], map[], map[], map[], [], map[], map[]) }

  function Max(a: int, b: int): int { if a < b then b else a }

  function Tally<K>(counts: map<K, int>, k: K): int { if k in counts then counts[k] else 0 }

  predicate SignedIn(owner: Option<Owner>) { owner.Some? && owner.value.Account? }

  predicate OwnerMayQueue(s: State, owner: Option<Owner>, limits: Limits) {
    || !SignedIn(owner) || |s.inflight| < limits.maxPending / 2
    || Tally(s.pendingOwner, owner) < Max(1, limits.maxPending / 4)
  }

  /** A signed-in owner that holds a quarter of a queue at least half full. */
  predicate AtItsShare(inflight: map<string, Flight>, owner: Option<Owner>, limits: Limits) {
    && SignedIn(owner) && limits.maxPending / 2 <= |inflight|
    && Max(1, limits.maxPending / 4) <= |OfOwner(inflight, owner)|
  }

  predicate HasRoom(s: State, r: Request, limits: Limits) {
    && |s.inflight| < limits.maxPending && Tally(s.pending, r.provider) < limits.maxPerProvider
    && OwnerMayQueue(s, r.owner, limits)
  }

  predicate Enabled(s: State, step: Step) {
    match step
    case Ask(caller, _, _) => caller !in s.asked
    case FetchEnds(key, _) => key in s.inflight
    case Return(caller) => caller in s.waiters && s.waiters[caller] in s.results
    case GiveUp(caller) => caller in s.waiters
  }

  function Without<K>(counts: map<K, int>, k: K): map<K, int> {
    var left := Tally(counts, k) - 1;
    if left <= 0 then counts - {k} else counts[k := left]
  }

  function Start(s: State, r: Request): State {
    s.(inflight := s.inflight[StoreKey(r) := Flight(|s.keys|, r.provider, r.owner)],
       pending := s.pending[r.provider := Tally(s.pending, r.provider) + 1],
       pendingOwner := s.pendingOwner[r.owner := Tally(s.pendingOwner, r.owner) + 1],
       keys := s.keys + [StoreKey(r)])
  }

  function End(s: State, key: string, result: Result): State
    requires key in s.inflight
  {
    var f := s.inflight[key];
    s.(inflight := s.inflight - {key}, pending := s.pending[f.provider := Tally(s.pending, f.provider) - 1],
       pendingOwner := Without(s.pendingOwner, f.owner), results := s.results[f.id := result])
  }

  /** A request joins the fetch of its key, starts one, or is refused. */
  function Apply(s: State, step: Step, limits: Limits): State
    requires Enabled(s, step)
  {
    match step
    case Ask(caller, r, gone) =>
      var t := s.(asked := s.asked[caller := r]);
      if StoreKey(r) in s.inflight then t.(waiters := s.waiters[caller := s.inflight[StoreKey(r)].id])
      else if !gone && HasRoom(s, r, limits) then Start(t, r).(waiters := s.waiters[caller := |s.keys|])
      else t
    case FetchEnds(key, result) => End(s, key, result)
    case Return(caller) =>
      s.(waiters := s.waiters - {caller},
         answers := s.answers[caller := Answer(s.waiters[caller], s.results[s.waiters[caller]])])
    case GiveUp(caller) => s.(waiters := s.waiters - {caller})
  }

  // ------------------------------------------------------------------- invariant

  function OfProvider(inflight: map<string, Flight>, p: Provider): set<string> {
    set k | k in inflight && inflight[k].provider == p
  }

  function OfOwner(inflight: map<string, Flight>, o: Option<Owner>): set<string> {
    set k | k in inflight && inflight[k].owner == o
  }

  /** Both counters say what the table of fetches says. */
  ghost predicate Counted(s: State) {
    && (forall p :: Tally(s.pending, p) == |OfProvider(s.inflight, p)|)
    && (forall o :: Tally(s.pendingOwner, o) == |OfOwner(s.inflight, o)|)
    && (forall o :: o in s.pendingOwner ==> s.pendingOwner[o] > 0)
  }

  function OwnerShare(limits: Limits): int { Max(limits.maxPending / 2, Max(1, limits.maxPending / 4)) }

  ghost predicate Bounded(s: State, limits: Limits) {
    && |s.inflight| <= limits.maxPending
    && (forall p :: |OfProvider(s.inflight, p)| <= limits.maxPerProvider)
    && (forall o :: SignedIn(o) ==> |OfOwner(s.inflight, o)| <= OwnerShare(limits))
  }

  /** Every fetch is under way or has a result. */
  ghost predicate Fetched(inflight: map<string, Flight>, keys: seq<string>, results: map<nat, Result>) {
    && (forall k :: k in inflight ==>
          inflight[k].id < |keys| && keys[inflight[k].id] == k && inflight[k].id !in results)
    && (forall id :: 0 <= id < |keys| ==> id in results || (keys[id] in inflight && inflight[keys[id]].id == id))
    && (forall id :: id in results ==> id < |keys|)
  }

  /** Callers wait for, and were answered by, a fetch of what they asked for. */
  ghost predicate Served(s: State) {
    && (forall c :: c in s.waiters ==>
          c in s.asked && s.waiters[c] < |s.keys| && s.keys[s.waiters[c]] == StoreKey(s.asked[c]))
    && (forall c :: c in s.answers ==>
          && c in s.asked && s.answers[c].fetch < |s.keys| && s.keys[s.answers[c].fetch] == StoreKey(s.asked[c])
          && s.answers[c].fetch in s.results && s.results[s.answers[c].fetch] == s.answers[c].result)
  }

  ghost predicate Inv(s: State, limits: Limits) {
    Counted(s) && Bounded(s, limits) && Fetched(s.inflight, s.keys, s.results) && Served(s)
  }

  // ------------------------------------------------------ starting and ending fetches

  function One(yes: bool): int { if yes then 1 else 0 }

  lemma ProviderGrows(inflight: map<string, Flight>, k: string, f: Flight, p: Provider)
    requires k !in inflight
    ensures |OfProvider(inflight[k := f], p)| == |OfProvider(inflight, p)| + One(p == f.provider)
  {
    assert OfProvider(inflight[k := f], p) == OfProvider(inflight, p) + if p == f.provider then {k} else {};
  }

  lemma OwnerGrows(inflight: map<string, Flight>, k: string, f: Flight, o: Option<Owner>)
    requires k !in inflight
    ensures |OfOwner(inflight[k := f], o)| == |OfOwner(inflight, o)| + One(o == f.owner)
  {
    assert OfOwner(inflight[k := f], o) == OfOwner(inflight, o) + if o == f.owner then {k} else {};
  }

  lemma StartSizes(before: map<string, Flight>, after: map<string, Flight>, k: string, f: Flight)
    requires k !in before && after == before[k := f]
    ensures |after| == |before| + 1
    ensures forall p :: |OfProvider(after, p)| == |OfProvider(before, p)| + One(p == f.provider)
    ensures forall o :: |OfOwner(after, o)| == |OfOwner(before, o)| + One(o == f.owner)
  {
    hide OfProvider, OfOwner;
    forall p
      ensures |OfProvider(after, p)| == |OfProvider(before, p)| + One(p == f.provider)
    {
      ProviderGrows(before, k, f, p);
    }
    forall o
      ensures |OfOwner(after, o)| == |OfOwner(before, o)| + One(o == f.owner)
    {
      OwnerGrows(before, k, f, o);
    }
    assert after.Keys == before.Keys + {k};
  }

  lemma EndSizes(inflight: map<string, Flight>, k: string)
    requires k in inflight
    ensures |inflight - {k}| == |inflight| - 1
    ensures forall p :: |OfProvider(inflight - {k}, p)| == |OfProvider(inflight, p)| - One(p == inflight[k].provider)
    ensures forall o :: |OfOwner(inflight - {k}, o)| == |OfOwner(inflight, o)| - One(o == inflight[k].owner)
  {
    var rest := inflight - {k};
    assert rest[k := inflight[k]] == inflight;
    StartSizes(rest, inflight, k, inflight[k]);
  }

  lemma StartKeepsCounted(s: State, r: Request)
    requires Counted(s) && StoreKey(r) !in s.inflight
    ensures Counted(Start(s, r))
  {
    hide OfProvider, OfOwner, StoreKey;
    StartSizes(s.inflight, Start(s, r).inflight, StoreKey(r), Flight(|s.keys|, r.provider, r.owner));
  }

  /** An owner's first fetches fit the half that nobody is refused; later ones its quarter. */
  lemma StartKeepsBounded(s: State, r: Request, limits: Limits)
    requires Counted(s) && Bounded(s, limits) && StoreKey(r) !in s.inflight && HasRoom(s, r, limits)
    ensures Bounded(Start(s, r), limits)
  {
    SubsetSize(OfOwner(s.inflight, r.owner), s.inflight.Keys);
    assert |s.inflight.Keys| == |s.inflight|;
    hide OfProvider, OfOwner, StoreKey;
    StartSizes(s.inflight, Start(s, r).inflight, StoreKey(r), Flight(|s.keys|, r.provider, r.owner));
  }

  lemma EndKeeps(s: State, key: string, result: Result, limits: Limits)
    requires Counted(s) && Bounded(s, limits) && key in s.inflight
    ensures Counted(End(s, key, result)) && Bounded(End(s, key, result), limits)
  {
    hide OfProvider, OfOwner, OwnerShare;
    EndSizes(s.inflight, key);
  }

  lemma StartKeepsFetched(s: State, r: Request)
    requires Fetched(s.inflight, s.keys, s.results) && StoreKey(r) !in s.inflight
    ensures var t := Start(s, r); Fetched(t.inflight, t.keys, t.results)
  {
    hide StoreKey;
  }

  lemma EndKeepsFetched(s: State, key: string, result: Result)
    requires Fetched(s.inflight, s.keys, s.results) && key in s.inflight
    ensures var t := End(s, key, result); Fetched(t.inflight, t.keys, t.results)
  {
  }

  lemma AskKeepsServed(s: State, t: State, caller: nat, id: nat, r: Request)
    requires Served(s) && caller !in s.asked && s.keys <= t.keys
    requires t.asked == s.asked[caller := r] && t.answers == s.answers && t.results == s.results
    requires || t.waiters == s.waiters
             || (id < |t.keys| && t.keys[id] == StoreKey(r) && t.waiters == s.waiters[caller := id])
    ensures Served(t)
  {
    hide StoreKey;
    forall c | c in t.waiters
      ensures c in t.asked && t.waiters[c] < |t.keys| && t.keys[t.waiters[c]] == StoreKey(t.asked[c])
    {
      if c in s.waiters { assert c in s.asked && c != caller && t.waiters[c] == s.waiters[c]; }
    }
  }

  lemma AskKeepsInv(s: State, caller: nat, r: Request, gone: bool, limits: Limits)
    requires Inv(s, limits) && caller !in s.asked
    ensures Inv(Apply(s, Ask(caller, r, gone), limits), limits)
  {
    hide Inv, StoreKey, HasRoom, Start;
    if StoreKey(r) in s.inflight {
      JoinedKeepsInv(s, caller, r, limits);
    } else if !gone && HasRoom(s, r, limits) {
      StartedKeepsInv(s, caller, r, limits);
    } else {
      RefusedKeepsInv(s, caller, r, limits);
    }
  }

  lemma JoinedKeepsInv(s: State, caller: nat, r: Request, limits: Limits)
    requires Inv(s, limits) && caller !in s.asked && StoreKey(r) in s.inflight
    ensures Inv(s.(asked := s.asked[caller := r]).(waiters := s.waiters[caller := s.inflight[StoreKey(r)].id]), limits)
  {
    hide Fetched, Served, StoreKey, Counted, Bounded;
    var t := s.(asked := s.asked[caller := r]).(waiters := s.waiters[caller := s.inflight[StoreKey(r)].id]);
    FlightKey(s, StoreKey(r));
    AskKeepsServed(s, t, caller, s.inflight[StoreKey(r)].id, r);
    SameTable(s, t, limits);
  }

  lemma RefusedKeepsInv(s: State, caller: nat, r: Request, limits: Limits)
    requires Inv(s, limits) && caller !in s.asked
    ensures Inv(s.(asked := s.asked[caller := r]), limits)
  {
    hide Fetched, Served, StoreKey, Counted, Bounded;
    var t := s.(asked := s.asked[caller := r]);
    AskKeepsServed(s, t, caller, 0, r);
    SameTable(s, t, limits);
  }

  lemma StartedKeepsInv(s: State, caller: nat, r: Request, limits: Limits)
    requires Inv(s, limits) && caller !in s.asked && StoreKey(r) !in s.inflight && HasRoom(s, r, limits)
    ensures Inv(Start(s.(asked := s.asked[caller := r]), r).(waiters := s.waiters[caller := |s.keys|]), limits)
  {
    hide Fetched, Served, StoreKey, HasRoom, Counted, Bounded;
    var t := Start(s.(asked := s.asked[caller := r]), r).(waiters := s.waiters[caller := |s.keys|]);
    StartKeepsCounted(s, r);
    StartKeepsBounded(s, r, limits);
    StartKeepsFetched(s, r);
    AskKeepsServed(s, t, caller, |s.keys|, r);
    SameTable(Start(s, r), t, limits);
  }

  lemma FlightKey(s: State, key: string)
    requires Fetched(s.inflight, s.keys, s.results) && key in s.inflight
    ensures s.inflight[key].id < |s.keys| && s.keys[s.inflight[key].id] == key && s.inflight[key].id !in s.results
  {
  }

  lemma EndTells(s: State, key: string, limits: Limits)
    requires Inv(s, limits) && key in s.inflight
    ensures s.inflight[key].id !in s.results && |s.inflight - {key}| == |s.inflight| - 1
  {
    hide OfProvider, OfOwner;
    FlightKey(s, key);
    EndSizes(s.inflight, key);
  }

  lemma EndKeepsServed(s: State, key: string, result: Result)
    requires Fetched(s.inflight, s.keys, s.results) && Served(s) && key in s.inflight
    ensures Served(End(s, key, result))
  {
    hide StoreKey;
  }

  lemma CallerStepKeepsServed(s: State, step: Step, limits: Limits)
    requires Served(s) && Enabled(s, step) && (step.Return? || step.GiveUp?)
    ensures Served(Apply(s, step, limits))
  {
    hide StoreKey;
  }

  lemma StepKeepsInv(s: State, step: Step, limits: Limits)
    requires Inv(s, limits) && Enabled(s, step)
    ensures Inv(Apply(s, step, limits), limits)
  {
    hide Fetched, Served, Counted, Bounded, End, StoreKey, HasRoom;
    match step
    case Ask(caller, r, gone) => AskKeepsInv(s, caller, r, gone, limits);
    case FetchEnds(key, result) =>
      EndKeeps(s, key, result, limits);
      EndKeepsFetched(s, key, result);
      EndKeepsServed(s, key, result);
    case _ =>
      CallerStepKeepsServed(s, step, limits);
      SameTable(s, Apply(s, step, limits), limits);
  }

  lemma SameTable(s: State, t: State, limits: Limits)
    requires Counted(s) && Bounded(s, limits)
    requires t.inflight == s.inflight && t.pending == s.pending && t.pendingOwner == s.pendingOwner
    ensures Counted(t) && Bounded(t, limits)
  {
  }

  // --------------------------------------------------------------------- results

  ghost predicate Run(states: seq<State>, steps: seq<Step>, limits: Limits) {
    && |states| == |steps| + 1
    && states[0] == Initial()
    && forall i :: 0 <= i < |steps| ==>
        Enabled(states[i], steps[i]) && states[i + 1] == Apply(states[i], steps[i], limits)
  }

  lemma InitialIsInv(limits: Limits)
    ensures Inv(Initial(), limits)
  {
    assert forall p :: OfProvider(map[], p) == {};
    assert forall o :: OfOwner(map[], o) == {};
  }

  lemma {:induction false} RunKeepsInv(states: seq<State>, steps: seq<Step>, limits: Limits, n: nat)
    requires Run(states, steps, limits) && n <= |steps|
    ensures Inv(states[n], limits)
  {
    hide Inv, Apply, Enabled;
    if n == 0 {
      InitialIsInv(limits);
    } else {
      RunKeepsInv(states, steps, limits, n - 1);
      StepKeepsInv(states[n - 1], steps[n - 1], limits);
    }
  }

  /** At most one unfinished fetch for a key, at any time. */
  lemma SingleFlight(states: seq<State>, steps: seq<Step>, limits: Limits, n: nat, i: nat, j: nat)
    requires Run(states, steps, limits) && n <= |steps| && i < |states[n].keys| && j < |states[n].keys|
    requires states[n].keys[i] == states[n].keys[j] && i !in states[n].results && j !in states[n].results
    ensures i == j
  {
    hide Apply, Enabled, Counted, Bounded, Served;
    RunKeepsInv(states, steps, limits, n);
  }

  /** The limits hold at every moment, and a signed-in owner keeps within half the default
      queue. */
  lemma QueueBounds(
    states: seq<State>, steps: seq<Step>, limits: Limits, n: nat, provider: Provider, owner: Option<Owner>)
    requires Run(states, steps, limits) && n <= |steps|
    ensures |states[n].inflight| <= limits.maxPending
    ensures Tally(states[n].pending, provider) <= limits.maxPerProvider
    ensures SignedIn(owner) ==> Tally(states[n].pendingOwner, owner) <= OwnerShare(limits)
    ensures SignedIn(owner) && limits == DEFAULT_LIMITS ==> Tally(states[n].pendingOwner, owner) <= 32
  {
    hide Apply, Enabled, Fetched, Served, OfOwner, OfProvider;
    RunKeepsInv(states, steps, limits, n);
  }

  ghost function Sum<K(!new)>(counts: map<K, int>): int
    decreases |counts|
  {
    if counts == map[] then 0
    else
      var k :| k in counts;
      counts[k] + Sum(counts - {k})
  }

  lemma WithoutOwner(inflight: map<string, Flight>, o: Option<Owner>, other: Option<Owner>)
    ensures OfOwner(inflight - OfOwner(inflight, o), other) == if other == o then {} else OfOwner(inflight, other)
  {
  }

  /** Any split of the fetches by provider or by owner counts each of them once. */
  lemma {:induction false} OwnersSum(counts: map<Option<Owner>, int>, inflight: map<string, Flight>)
    requires forall o :: Tally(counts, o) == |OfOwner(inflight, o)|
    ensures Sum(counts) == |inflight|
    decreases |counts|
  {
    if counts == map[] {
      forall k | k in inflight
        ensures k in OfOwner(inflight, inflight[k].owner)
      {
      }
    } else {
      var o :| o in counts && Sum(counts) == counts[o] + Sum(counts - {o});
      var rest := inflight - OfOwner(inflight, o);
      assert inflight.Keys == rest.Keys + OfOwner(inflight, o);
      hide OfOwner;
      forall other
        ensures Tally(counts - {o}, other) == |OfOwner(rest, other)|
      {
        WithoutOwner(inflight, o, other);
      }
      OwnersSum(counts - {o}, rest);
    }
  }

  lemma WithoutProvider(inflight: map<string, Flight>, p: Provider, other: Provider)
    ensures OfProvider(inflight - OfProvider(inflight, p), other) ==
            if other == p then {} else OfProvider(inflight, other)
  {
  }

  lemma {:induction false} ProvidersSum(counts: map<Provider, int>, inflight: map<string, Flight>)
    requires forall p :: Tally(counts, p) == |OfProvider(inflight, p)|
    ensures Sum(counts) == |inflight|
    decreases |counts|
  {
    if counts == map[] {
      forall k | k in inflight
        ensures k in OfProvider(inflight, inflight[k].provider)
      {
      }
    } else {
      var p :| p in counts && Sum(counts) == counts[p] + Sum(counts - {p});
      var rest := inflight - OfProvider(inflight, p);
      assert inflight.Keys == rest.Keys + OfProvider(inflight, p);
      hide OfProvider;
      forall other
        ensures Tally(counts - {p}, other) == |OfProvider(rest, other)|
      {
        WithoutProvider(inflight, p, other);
      }
      ProvidersSum(counts - {p}, rest);
    }
  }

  /** Both counters add up to the number of fetches under way. */
  lemma CountersSumToInflight(states: seq<State>, steps: seq<Step>, limits: Limits, n: nat)
    requires Run(states, steps, limits) && n <= |steps|
    ensures Sum(states[n].pending) == |states[n].inflight| == Sum(states[n].pendingOwner)
  {
    hide Apply, Enabled, Fetched, Served, Bounded, OfOwner, OfProvider;
    RunKeepsInv(states, steps, limits, n);
    ProvidersSum(states[n].pending, states[n].inflight);
    OwnersSum(states[n].pendingOwner, states[n].inflight);
  }

  /** Step `i` ended this fetch with this result. */
  predicate EndedAt(states: seq<State>, steps: seq<Step>, i: nat, fetch: nat, key: string, result: Result) {
    && i < |steps| && i < |states| && steps[i] == FetchEnds(key, result)
    && key in states[i].inflight && states[i].inflight[key].id == fetch
  }

  /** Step `m` put this caller onto this fetch, which was under way then. */
  predicate WaitsFrom(states: seq<State>, steps: seq<Step>, m: nat, caller: nat, fetch: nat) {
    && m < |steps| && m + 1 < |states| && steps[m].Ask? && steps[m].caller == caller
    && caller in states[m + 1].waiters && states[m + 1].waiters[caller] == fetch && fetch !in states[m + 1].results
  }

  lemma ResultStep(s: State, step: Step, limits: Limits)
    requires Fetched(s.inflight, s.keys, s.results) && Enabled(s, step)
    ensures var t := Apply(s, step, limits);
            && s.keys <= t.keys && (forall f :: f in s.results ==> f in t.results && t.results[f] == s.results[f])
            && forall f :: f in t.results && f !in s.results ==>
                 && step == FetchEnds(step.key, t.results[f])
                 && step.key in s.inflight && s.inflight[step.key].id == f
                 && f < |s.keys| && s.keys[f] == step.key
  {
    hide StoreKey, HasRoom;
    if step.FetchEnds? { FlightKey(s, step.key); }
  }

  lemma EndKeepsCallers(s: State, key: string, result: Result)
    requires key in s.inflight
    ensures var t := End(s, key, result); t.waiters == s.waiters && t.answers == s.answers && t.asked == s.asked
  {
  }

  lemma NextIsNew(s: State)
    requires Fetched(s.inflight, s.keys, s.results)
    ensures |s.keys| !in s.results
  {
  }

  lemma ResultKept(s: State, step: Step, limits: Limits, f: nat)
    requires Inv(s, limits) && Enabled(s, step) && f in s.results
    ensures f in Apply(s, step, limits).results && Apply(s, step, limits).results[f] == s.results[f]
  {
    hide Counted, Bounded, Served, Fetched, Apply, Enabled;
    ResultStep(s, step, limits);
  }

  predicate Gets(s: State, caller: nat, fetch: nat) {
    || (caller in s.waiters && s.waiters[caller] == fetch)
    || (caller in s.answers && s.answers[caller].fetch == fetch)
  }

  lemma GetsStep(s: State, step: Step, limits: Limits, caller: nat, fetch: nat)
    requires Fetched(s.inflight, s.keys, s.results) && Enabled(s, step) && Gets(Apply(s, step, limits), caller, fetch)
    ensures Gets(s, caller, fetch)
            || (step.Ask? && step.caller == caller && caller in Apply(s, step, limits).waiters
                && Apply(s, step, limits).waiters[caller] == fetch && fetch !in Apply(s, step, limits).results)
  {
    hide StoreKey, HasRoom, Without, Fetched, End;
    if step.Ask? {
      NextIsNew(s);
      if StoreKey(step.request) in s.inflight { FlightKey(s, StoreKey(step.request)); }
    } else if step.FetchEnds? {
      EndKeepsCallers(s, step.key, step.result);
    }
  }

  /** A fetch's result is what the one step that ended it brought. */
  lemma {:induction false} ResultCameFrom(states: seq<State>, steps: seq<Step>, limits: Limits, n: nat, fetch: nat)
      returns (i: nat)
    requires Run(states, steps, limits) && n <= |steps| && fetch in states[n].results
    ensures i < n && fetch < |states[n].keys|
    ensures EndedAt(states, steps, i, fetch, states[n].keys[fetch], states[n].results[fetch])
  {
    hide Counted, Bounded, Served, Fetched, Apply, Enabled;
    RunKeepsInv(states, steps, limits, n - 1);
    ResultStep(states[n - 1], steps[n - 1], limits);
    if fetch in states[n - 1].results {
      i := ResultCameFrom(states, steps, limits, n - 1, fetch);
    } else {
      i := n - 1;
    }
  }

  lemma {:induction false} ResultsStay(states: seq<State>, steps: seq<Step>, limits: Limits, m: nat, n: nat, f: nat)
    requires Run(states, steps, limits) && m <= n <= |steps| && f in states[m].results
    ensures f in states[n].results && states[n].results[f] == states[m].results[f]
    decreases n
  {
    hide Inv, Apply, Enabled, Initial;
    if m < n {
      ResultsStay(states, steps, limits, m, n - 1, f);
      RunKeepsInv(states, steps, limits, n - 1);
      ResultKept(states[n - 1], steps[n - 1], limits, f);
    }
  }

  /** Whom a caller was answered by, or waits for, it joined while it was under way. */
  lemma {:induction false} JoinedUnderWay(states: seq<State>, steps: seq<Step>, limits: Limits, n: nat, caller: nat,
                                          fetch: nat)
      returns (m: nat)
    requires Run(states, steps, limits) && n <= |steps|
    requires Gets(states[n], caller, fetch)
    ensures m < n && WaitsFrom(states, steps, m, caller, fetch)
  {
    hide Counted, Bounded, Served, Fetched, Apply, Enabled, Gets;
    NobodyGets(caller, fetch);
    RunKeepsInv(states, steps, limits, n - 1);
    if Gets(states[n - 1], caller, fetch) {
      m := JoinedUnderWay(states, steps, limits, n - 1, caller, fetch);
    } else {
      GetsStep(states[n - 1], steps[n - 1], limits, caller, fetch);
      m := n - 1;
    }
  }

  lemma NobodyGets(caller: nat, fetch: nat)
    ensures !Gets(Initial(), caller, fetch)
  {
  }

  /** A caller's answer is, word for word, what one fetch of exactly what it asked for ended
      with: a fetch it joined while that was under way, and that ended once. */
  lemma AnswerIsTheEnd(states: seq<State>, steps: seq<Step>, limits: Limits, n: nat, caller: nat)
      returns (m: nat, i: nat)
    requires Run(states, steps, limits) && n <= |steps| && caller in states[n].answers
    ensures caller in states[n].asked && m < i < n
    ensures var a := states[n].answers[caller];
            && WaitsFrom(states, steps, m, caller, a.fetch)
            && EndedAt(states, steps, i, a.fetch, StoreKey(states[n].asked[caller]), a.result)
            && forall j, key, result :: EndedAt(states, steps, j, a.fetch, key, result) ==> j == i
  {
    RunKeepsInv(states, steps, limits, n);
    hide Counted, Bounded, Fetched, StoreKey, HasRoom, Apply, Enabled;
    var a := states[n].answers[caller];
    i := ResultCameFrom(states, steps, limits, n, a.fetch);
    m := JoinedUnderWay(states, steps, limits, n, caller, a.fetch);
    ResultAfter(states, steps, limits, i);
    if i <= m { ResultsStay(states, steps, limits, i + 1, m + 1, a.fetch); }
    forall j, key, result | EndedAt(states, steps, j, a.fetch, key, result)
      ensures j == i
    {
      EndsOnce(states, steps, limits, i, j, a.fetch);
    }
  }

  lemma ResultAfter(states: seq<State>, steps: seq<Step>, limits: Limits, i: nat)
    requires Run(states, steps, limits) && i < |steps| && steps[i].FetchEnds? && steps[i].key in states[i].inflight
    ensures states[i].inflight[steps[i].key].id in states[i + 1].results
    ensures states[i].inflight[steps[i].key].id !in states[i].results
  {
    RunKeepsInv(states, steps, limits, i);
    FlightKey(states[i], steps[i].key);
  }

  lemma EndsOnce(states: seq<State>, steps: seq<Step>, limits: Limits, i: nat, j: nat, fetch: nat)
    requires Run(states, steps, limits)
    requires i < |steps| && steps[i].FetchEnds? && EndedAt(states, steps, i, fetch, steps[i].key, steps[i].result)
    requires j < |steps| && steps[j].FetchEnds? && EndedAt(states, steps, j, fetch, steps[j].key, steps[j].result)
    ensures i == j
  {
    hide Apply, Enabled;
    ResultAfter(states, steps, limits, i);
    ResultAfter(states, steps, limits, j);
    if i < j { ResultsStay(states, steps, limits, i + 1, j, fetch); }
    if j < i { ResultsStay(states, steps, limits, j + 1, i, fetch); }
  }

  /** Callers answered by one fetch asked for the same thing on behalf of the same owner, or
      of nobody, and got the same answer. */
  lemma AnswersAreTheFetchs(states: seq<State>, steps: seq<Step>, limits: Limits, n: nat, a: nat, b: nat)
    requires Run(states, steps, limits) && n <= |steps|
    requires a in states[n].answers && b in states[n].answers
    requires states[n].answers[a].fetch == states[n].answers[b].fetch
    ensures a in states[n].asked && b in states[n].asked
    ensures states[n].answers[a] == states[n].answers[b]
    ensures var x, y := states[n].asked[a], states[n].asked[b]; x.key == y.key && Whose(x) == Whose(y)
  {
    hide Apply, Enabled, Fetched, Counted, Bounded, StoreKey;
    RunKeepsInv(states, steps, limits, n);
    ShareIff(states[n].asked[a], states[n].asked[b]);
  }

  // ------------------------------------------------------------------- the client

  datatype AskResult = Joined(fetch: nat) | Started(fetch: nat) | CallerGone | Busy

  class OutboundClient {
    const limits: Limits
    var inflight: map<string, Flight>
    var pending: map<Provider, int>
    var pendingOwner: map<Option<Owner>, int>
    ghost var waiters: map<nat, nat>
    ghost var asked: map<nat, Request>
    ghost var keys: seq<string>
    ghost var results: map<nat, Result>
    ghost var answers: map<nat, Answer>

    constructor (limits: Limits)
      ensures Contents() == Initial() && Valid() && this.limits == limits
    {
      this.limits := limits;
      inflight, pending, pendingOwner := map[], map[], map[];
      waiters, asked, keys, results, answers := map[], map[], [], map[], map[];
      new;
      InitialIsInv(limits);
    }

    ghost function Contents(): State
      reads this
    {
      State(inflight, pending, pendingOwner, waiters, asked, keys, results, answers)
    }

    ghost predicate Valid()
      reads this
    {
      Inv(Contents(), limits)
    }

    /** The fair share, told by the table of fetches: refused are only signed-in owners,
        while at least half of the queue is taken, who hold a quarter of it themselves. An
        owner that may queue one more fetch stays within its share of the whole. */
    method OwnerMayQueueLocked(owner: Option<Owner>) returns (may: bool)
      requires Valid()
      ensures may == OwnerMayQueue(Contents(), owner, limits)
      ensures !may <==> AtItsShare(inflight, owner, limits)
      ensures may && SignedIn(owner) ==> |OfOwner(inflight, owner)| + 1 <= OwnerShare(limits)
    {
      SubsetSize(OfOwner(inflight, owner), inflight.Keys);
      assert |inflight.Keys| == |inflight|;
      if owner == None || owner == Some(Local) || |inflight| < limits.maxPending / 2 {
        return true;
      }
      may := Tally(pendingOwner, owner) < if limits.maxPending / 4 > 1 then limits.maxPending / 4 else 1;
    }

    method HasRoomLocked(r: Request) returns (room: bool)
      requires Valid()
      ensures room == HasRoom(Contents(), r, limits)
      ensures room <==>
        && |inflight| < limits.maxPending && |OfProvider(inflight, r.provider)| < limits.maxPerProvider
        && !AtItsShare(inflight, r.owner, limits)
    {
      var may := OwnerMayQueueLocked(r.owner);
      room := |inflight| < limits.maxPending && Tally(pending, r.provider) < limits.maxPerProvider && may;
    }

    /** Takes a place in the queue. */
    method StartFetch(r: Request, fetch: nat)
      requires fetch == |keys|
      modifies this`inflight, this`pending, this`pendingOwner, this`keys
      ensures Contents() == Start(old(Contents()), r)
      ensures inflight == old(inflight)[StoreKey(r) := Flight(fetch, r.provider, r.owner)]
      ensures keys == old(keys) + [StoreKey(r)]
    {
      inflight := inflight[StoreKey(r) := Flight(fetch, r.provider, r.owner)];
      pending := pending[r.provider := Tally(pending, r.provider) + 1];
      pendingOwner := pendingOwner[r.owner := Tally(pendingOwner, r.owner) + 1];
      keys := keys + [StoreKey(r)];
    }

    /** The locked part of a request that the cache could not answer. `fetch` names the
        new fetch, should one start. */
    method Ask(r: Request, gone: bool, fetch: nat, ghost caller: nat) returns (result: AskResult)
      requires Valid() && caller !in asked && fetch == |keys|
      modifies this
      ensures Valid() && Contents() == Apply(old(Contents()), Step.Ask(caller, r, gone), limits)
      ensures result.Joined? <==> StoreKey(r) in old(inflight)
      ensures result.Joined? ==> result.fetch == old(inflight)[StoreKey(r)].id
      ensures result.CallerGone? <==> StoreKey(r) !in old(inflight) && gone
      ensures result.Busy? <==> StoreKey(r) !in old(inflight) && !gone && !HasRoom(old(Contents()), r, limits)
      ensures result.Started? ==> result.fetch == fetch
      ensures !result.Joined? && !gone ==>
        (result.Started? <==>
          && |old(inflight)| < limits.maxPending && |OfProvider(old(inflight), r.provider)| < limits.maxPerProvider
          && !AtItsShare(old(inflight), r.owner, limits))
      ensures asked == old(asked)[caller := r] && results == old(results) && answers == old(answers)
      ensures waiters ==
        if result.Joined? || result.Started? then old(waiters)[caller := result.fetch] else old(waiters)
      ensures inflight == if result.Started? then old(inflight)[StoreKey(r) := Flight(fetch, r.provider, r.owner)]
                          else old(inflight)
      ensures keys == old(keys) + if result.Started? then [StoreKey(r)] else []
    {
      hide Inv, Start, StoreKey, HasRoom, AtItsShare, OfProvider;
      AskKeepsInv(Contents(), caller, r, gone, limits);
      var room := HasRoomLocked(r);
      asked := asked[caller := r];
      if StoreKey(r) in inflight {
        waiters := waiters[caller := inflight[StoreKey(r)].id];
        return Joined(inflight[StoreKey(r)].id);
      }
      if gone {
        return CallerGone;
      }
      if !room {
        return Busy;
      }
      StartFetch(r, fetch);
      waiters := waiters[caller := fetch];
      return Started(fetch);
    }

    /** A fetch is over: its place is free and its waiters are told. */
    method FetchDone(key: string, result: Result)
      requires Valid() && key in inflight
      modifies this
      ensures Valid() && Contents() == Apply(old(Contents()), FetchEnds(key, result), limits)
      ensures results == old(results)[old(inflight)[key].id := result] && old(inflight)[key].id !in old(results)
      ensures inflight == old(inflight) - {key} && |inflight| == |old(inflight)| - 1
      ensures waiters == old(waiters) && asked == old(asked) && answers == old(answers) && keys == old(keys)
    {
      hide Inv, OfProvider, OfOwner, Tally, Without, StoreKey, HasRoom;
      EndTells(Contents(), key, limits);
      StepKeepsInv(Contents(), FetchEnds(key, result), limits);
      results := results[inflight[key].id := result];
      FreePlace(key);
    }

    /** Gives a fetch's place back to its provider and its owner. */
    method FreePlace(key: string)
      requires key in inflight
      modifies this`inflight, this`pending, this`pendingOwner
      ensures inflight == old(inflight) - {key}
      ensures var f := old(inflight)[key];
              && pending == old(pending)[f.provider := Tally(old(pending), f.provider) - 1]
              && pendingOwner == Without(old(pendingOwner), f.owner)
    {
      var f := inflight[key];
      inflight := inflight - {key};
      pending := pending[f.provider := Tally(pending, f.provider) - 1];
      var left := Tally(pendingOwner, f.owner) - 1;
      pendingOwner := if left <= 0 then pendingOwner - {f.owner} else pendingOwner[f.owner := left];
    }
  }
}
