/**
  Routing graphs with counted handles: queries hold them, and replacing or dropping one
  closes it only after its last query.
 */
module RoutingDatasets {
  import opened Options
  import opened FiniteSets
  import opened Owners

  type SessionId = string

  /** One graph. `drains` counts how often its drain signal was sent; sending it twice
      would be a crash. */
  datatype Dataset = Dataset(active: int, closing: bool, drains: nat, closed: bool)

  const NEW_DATASET := Dataset(0, false, 0, false)

  // -------------------------------------------------------------- one counted handle

  function Acquired(d: Dataset): (r: Dataset)
    ensures r.closing == d.closing
  {
    if d.closing then d else d.(active := d.active + 1)
  }

  function Released(d: Dataset): (r: Dataset)
    ensures r.closing == d.closing
  {
    var left := d.active - 1;
    d.(active := left, drains := if d.closing && left == 0 then d.drains + 1 else d.drains)
  }

  function Closing(d: Dataset): (r: Dataset)
    ensures r.closing
  {
    d.(closing := true, drains := if d.active == 0 then d.drains + 1 else d.drains)
  }

  class BroomDataset {
    var active: int
    var closing: bool
    var closed: bool
    ghost var drains: nat
    /** The queries that hold this graph. */
    ghost var holders: set<nat>

    constructor ()
      ensures Valid() && Contents() == NEW_DATASET && holders == {}
    {
      active, closing, closed, drains, holders := 0, false, false, 0, {};
    }

    ghost function Contents(): Dataset
      reads this
    {
      Dataset(active, closing, drains, closed)
    }

    /** The drain signal has been sent exactly if the graph is closing and nobody holds it,
        and a closed graph is held by nobody. */
    ghost predicate Valid()
      reads this
    {
      && active == |holders|
      && drains == (if closing && holders == {} then 1 else 0)
      && (closed ==> closing && holders == {})
    }

    method Acquire(ghost query: nat) returns (ok: bool)
      requires Valid() && query !in holders
      modifies this`active, this`holders
      ensures Valid() && (ok <==> !closing)
      ensures holders == old(holders) + if ok then {query} else {}
      ensures Contents() == Acquired(old(Contents()))
    {
      if closing {
        return false;
      }
      active, holders := active + 1, holders + {query};
      ok := true;
    }

    method Release(ghost query: nat)
      requires Valid() && query in holders
      modifies this`active, this`drains, this`holders
      ensures Valid() && holders == old(holders) - {query}
      ensures old(drains) == 0 && (drains == 1 <==> closing && old(holders) == {query})
      ensures Contents() == Released(old(Contents()))
    {
      active, holders := active - 1, holders - {query};
      if closing && active == 0 {
        drains := drains + 1;
      }
      assert old(holders) == holders + {query};
    }

    /** The first half of closing; the second waits for the drain signal. */
    method BeginClose()
      requires Valid() && !closing
      modifies this`closing, this`drains
      ensures Valid() && closing && (drains == 1 <==> holders == {})
      ensures Contents() == Closing(old(Contents()))
    {
      closing := true;
      if active == 0 {
        drains := drains + 1;
      }
    }

    method FinishClose()
      requires Valid() && drains > 0
      modifies this`closed
      ensures Valid() && closed && holders == {}
      ensures Contents() == old(Contents()).(closed := true)
    {
      closed := true;
    }
  }

  // ------------------------------------------------------------------- the service

  datatype Session = Session(owner: Owner, dataset: nat)

  /** One profile upload at a time, against the graph that was current when it began. */
  datatype Upload = Upload(owner: Owner, base: nat, query: nat, added: bool)

  /** `builders` and `closers` list the graphs that goroutines have yet to publish or have
      been handed to close, once for every goroutine that has them. `handed` is ghost
      history: every hand-over to a closer so far. */
  datatype State = State(
    datasets: seq<Dataset>, builders: multiset<nat>, current: Option<nat>, sessions: map<SessionId, Session>,
    closers: multiset<nat>, handed: multiset<nat>, holders: map<nat, nat>, upload: Option<Upload>)

  datatype Step =
    | Open                                   // a graph is built or opened
    | Replace(d: nat)                        // it becomes the current one
    | Discard(d: nat)                        // it is given up before anyone could use it
    | Stop                                   // the service shuts down
    | Acquire(query: nat)                    // a query takes the current graph
    | AcquireSession(query: nat, id: SessionId)
    | Finish(query: nat)
    | BeginUpload(query: nat, owner: Owner)
    | AddSession(id: SessionId, d: nat)
    | EndUpload
    | DropSession(id: SessionId)             // expired, released by its owner, or at shutdown
    | BeginClose(d: nat)                     // by any goroutine that was handed it
    | FinishClose(d: nat)

  const MAX_SESSION_PROFILES := 8
  const MAX_OWNER_SESSION_PROFILES := 2

  function OwnerSessionProfileLimit(owner: Owner): nat {
    if owner == Local then MAX_SESSION_PROFILES else MAX_OWNER_SESSION_PROFILES
  }

  function Initial(): State {
    State([], multiset{}, None, map[], multiset{}, multiset{}, map[], None)
  }

  function Owned(sessions: map<SessionId, Session>, owner: Owner): set<SessionId> {
    set id | id in sessions && sessions[id].owner == owner
  }

  predicate HasSessionRoom(s: State, owner: Owner) {
    |s.sessions| < MAX_SESSION_PROFILES && |Owned(s.sessions, owner)| < OwnerSessionProfileLimit(owner)
  }

  predicate Enabled(s: State, step: Step) {
    match step
    case Open => true
    case Replace(d) => d in s.builders
    case Discard(d) => d in s.builders
    case Stop => true
    case Acquire(q) => q !in s.holders && s.current.Some? && s.current.value < |s.datasets|
    case AcquireSession(q, id) => q !in s.holders && id in s.sessions && s.sessions[id].dataset < |s.datasets|
    case Finish(q) => q in s.holders && s.holders[q] < |s.datasets| && (s.upload.Some? ==> s.upload.value.query != q)
    case BeginUpload(q, owner) =>
      && s.upload == None && q !in s.holders && s.current.Some? && s.current.value < |s.datasets|
      && HasSessionRoom(s, owner)
    case AddSession(id, d) =>
      && s.upload.Some? && !s.upload.value.added && s.current == Some(s.upload.value.base)
      && d in s.builders && id !in s.sessions
    case EndUpload =>
      && s.upload.Some? && s.upload.value.query in s.holders && s.holders[s.upload.value.query] < |s.datasets|
    case DropSession(id) => id in s.sessions
    case BeginClose(d) => d in s.closers && d < |s.datasets|
    case FinishClose(d) => d < |s.datasets| && s.datasets[d].drains > 0 && !s.datasets[d].closed
  }

  /** One more goroutine is told to close the graph. */
  function HandOver(s: State, d: nat): State {
    s.(closers := s.closers + multiset{d}, handed := s.handed + multiset{d})
  }

  function HandCurrentOver(s: State): State { if s.current.Some? then HandOver(s, s.current.value) else s }

  function TakeBuilt(s: State, d: nat): State { s.(builders := s.builders - multiset{d}) }

  /** A refused acquire leaves the query without a graph. */
  function Take(s: State, q: nat, d: nat): State
    requires d < |s.datasets|
  {
    var t := s.(datasets := s.datasets[d := Acquired(s.datasets[d])]);
    if s.datasets[d].closing then t else t.(holders := s.holders[q := d])
  }

  function Drop(s: State, q: nat): State
    requires q in s.holders && s.holders[q] < |s.datasets|
  {
    var d := s.holders[q];
    s.(datasets := s.datasets[d := Released(s.datasets[d])], holders := s.holders - {q})
  }

  function Apply(s: State, step: Step): State
    requires Enabled(s, step)
  {
    match step
    case Open => s.(datasets := s.datasets + [NEW_DATASET], builders := s.builders + multiset{|s.datasets|})
    case Replace(d) => TakeBuilt(HandCurrentOver(s), d).(current := Some(d))
    case Discard(d) => HandOver(TakeBuilt(s, d), d)
    case Stop => HandCurrentOver(s).(current := None)
    case Acquire(q) => Take(s, q, s.current.value)
    case AcquireSession(q, id) => Take(s, q, s.sessions[id].dataset)
    case Finish(q) => Drop(s, q)
    case BeginUpload(q, owner) =>
      // The result of this acquire is not looked at.
      var d := s.current.value;
      s.(datasets := s.datasets[d := Acquired(s.datasets[d])], holders := s.holders[q := d],
         upload := Some(Upload(owner, d, q, false)))
    case AddSession(id, d) =>
      TakeBuilt(s, d)
      .(sessions := s.sessions[id := Session(s.upload.value.owner, d)], upload := Some(s.upload.value.(added := true)))
    case EndUpload => Drop(s, s.upload.value.query).(upload := None)
    case DropSession(id) => HandOver(s, s.sessions[id].dataset).(sessions := s.sessions - {id})
    case BeginClose(d) =>
      s.(closers := s.closers - multiset{d}, datasets := s.datasets[d := Closing(s.datasets[d])])
    case FinishClose(d) => s.(datasets := s.datasets[d := s.datasets[d].(closed := true)])
  }

  // ------------------------------------------------------------------- invariant

  function HeldBy(holders: map<nat, nat>, d: nat): set<nat> { set q | q in holders && holders[q] == d }

  /** A graph's counters against who holds it. */
  predicate Fits(x: Dataset, held: nat) {
    && x.active == held
    && x.drains == (if x.closing && held == 0 then 1 else 0)
    && (x.closed ==> x.closing && held == 0)
  }

  ghost predicate DatasetsFit(datasets: seq<Dataset>, holders: map<nat, nat>) {
    && (forall q :: q in holders ==> holders[q] < |datasets|)
    && (forall d :: 0 <= d < |datasets| ==> Fits(datasets[d], |HeldBy(holders, d)|))
  }

  function InSessions(sessions: map<SessionId, Session>, d: nat): set<SessionId> {
    set id | id in sessions && sessions[id].dataset == d
  }

  function One(yes: bool): nat { if yes then 1 else 0 }

  predicate Flagged(datasets: seq<Dataset>, d: nat) { d < |datasets| && datasets[d].closing }

  predicate IsClosing(s: State, d: nat) { Flagged(s.datasets, d) }

  /** In how many hands a graph is: to be published, current, in sessions, to be closed, or
      being closed. */
  function Hands(s: State, d: nat): nat {
    s.builders[d] + One(s.current == Some(d)) + |InSessions(s.sessions, d)| + s.closers[d] + One(IsClosing(s, d))
  }

  /** Every graph is in exactly one hand, and each hand-over is pending or begun. */
  ghost predicate HandsFit(s: State) {
    && (forall d: nat :: Hands(s, d) == One(d < |s.datasets|))
    && (forall d: nat :: s.handed[d] == s.closers[d] + One(IsClosing(s, d)))
  }

  ghost predicate SessionsFit(sessions: map<SessionId, Session>) {
    && |sessions| <= MAX_SESSION_PROFILES
    && forall owner :: |Owned(sessions, owner)| <= OwnerSessionProfileLimit(owner)
  }

  ghost predicate UploadFits(s: State) {
    s.upload.Some? ==>
      && s.upload.value.query in s.holders && s.holders[s.upload.value.query] == s.upload.value.base
      && (!s.upload.value.added ==> HasSessionRoom(s, s.upload.value.owner))
  }

  ghost predicate Inv(s: State) {
    && DatasetsFit(s.datasets, s.holders)
    && HandsFit(s)
    && SessionsFit(s.sessions)
    && UploadFits(s)
  }

  // ------------------------------------------------------------------ handles

  lemma TakeKeepsDatasets(s: State, q: nat, d: nat)
    requires DatasetsFit(s.datasets, s.holders) && q !in s.holders
    requires d < |s.datasets| && !s.datasets[d].closing
    ensures var t := Take(s, q, d); DatasetsFit(t.datasets, t.holders)
  {
    var t := Take(s, q, d);
    forall e | 0 <= e < |t.datasets|
      ensures Fits(t.datasets[e], |HeldBy(t.holders, e)|)
    {
      assert Fits(s.datasets[e], |HeldBy(s.holders, e)|);
      assert HeldBy(t.holders, e) == HeldBy(s.holders, e) + if e == d then {q} else {};
    }
  }

  lemma DropKeepsDatasets(s: State, q: nat)
    requires DatasetsFit(s.datasets, s.holders) && q in s.holders
    ensures var t := Drop(s, q); DatasetsFit(t.datasets, t.holders)
  {
    var t := Drop(s, q);
    var d := s.holders[q];
    assert q in HeldBy(s.holders, d);
    forall e | 0 <= e < |t.datasets|
      ensures Fits(t.datasets[e], |HeldBy(t.holders, e)|)
    {
      assert Fits(s.datasets[e], |HeldBy(s.holders, e)|);
      assert HeldBy(t.holders, e) == HeldBy(s.holders, e) - if e == d then {q} else {};
    }
  }

  lemma OpenKeepsDatasets(s: State)
    requires DatasetsFit(s.datasets, s.holders)
    ensures DatasetsFit(s.datasets + [NEW_DATASET], s.holders)
  {
    assert HeldBy(s.holders, |s.datasets|) == {};
  }

  /** A second goroutine beginning to close it would break this: two drain signals. */
  lemma BeginCloseKeepsDatasets(s: State, d: nat)
    requires DatasetsFit(s.datasets, s.holders) && d < |s.datasets| && !s.datasets[d].closing
    ensures DatasetsFit(s.datasets[d := Closing(s.datasets[d])], s.holders)
  {
    assert Fits(s.datasets[d], |HeldBy(s.holders, d)|);
  }

  /** A graph that is published, or that a closer has yet to begin with, is not closing. */
  lemma InHandIsOpen(s: State, d: nat)
    requires HandsFit(s)
    requires s.current == Some(d) || d in s.closers || exists id :: id in s.sessions && s.sessions[id].dataset == d
    ensures d < |s.datasets| && !s.datasets[d].closing
    ensures d in s.closers ==> s.closers[d] == 1
  {
    assert Hands(s, d) == One(d < |s.datasets|);
    if id :| id in s.sessions && s.sessions[id].dataset == d {
      assert id in InSessions(s.sessions, d);
    }
  }

  lemma StepKeepsDatasets(s: State, step: Step)
    requires DatasetsFit(s.datasets, s.holders) && HandsFit(s) && Enabled(s, step)
    ensures var t := Apply(s, step); DatasetsFit(t.datasets, t.holders)
  {
    hide HandsFit, HasSessionRoom;
    match step
    case Open => OpenKeepsDatasets(s);
    case Acquire(q) =>
      InHandIsOpen(s, s.current.value);
      TakeKeepsDatasets(s, q, s.current.value);
    case AcquireSession(q, id) =>
      InHandIsOpen(s, s.sessions[id].dataset);
      TakeKeepsDatasets(s, q, s.sessions[id].dataset);
    case Finish(q) => DropKeepsDatasets(s, q);
    case BeginUpload(q, _) =>
      InHandIsOpen(s, s.current.value);
      TakeKeepsDatasets(s, q, s.current.value);
    case EndUpload => DropKeepsDatasets(s, s.upload.value.query);
    case BeginClose(d) =>
      InHandIsOpen(s, d);
      BeginCloseKeepsDatasets(s, d);
    case FinishClose(d) =>
      assert Fits(s.datasets[d], |HeldBy(s.holders, d)|);
    case _ =>
  }

  // ------------------------------------------------------------ hands and sessions

  lemma OneMoreInSession(sessions: map<SessionId, Session>, id: SessionId, added: Session, d: nat)
    requires id !in sessions
    ensures |InSessions(sessions[id := added], d)| == |InSessions(sessions, d)| + One(d == added.dataset)
  {
    assert InSessions(sessions[id := added], d) == InSessions(sessions, d) + if d == added.dataset then {id} else {};
  }

  lemma OneLessInSession(sessions: map<SessionId, Session>, id: SessionId, d: nat)
    requires id in sessions
    ensures |InSessions(sessions - {id}, d)| == |InSessions(sessions, d)| - One(d == sessions[id].dataset)
  {
    assert (sessions - {id})[id := sessions[id]] == sessions;
    OneMoreInSession(sessions - {id}, id, sessions[id], d);
  }

  /** Every step passes graphs from one hand to one other. */
  lemma StepKeepsHands(s: State, step: Step)
    requires HandsFit(s) && Enabled(s, step)
    ensures HandsFit(Apply(s, step))
  {
    var t := Apply(s, step);
    forall d: nat
      ensures Hands(t, d) == One(d < |t.datasets|)
      ensures t.handed[d] == t.closers[d] + One(IsClosing(t, d))
    {
      HandsStep(s, step, d);
    }
  }

  lemma FlaggedAfter(datasets: seq<Dataset>, d: nat, x: Dataset, e: nat)
    requires d < |datasets|
    ensures Flagged(datasets[d := x], e) == if e == d then x.closing else Flagged(datasets, e)
    ensures Flagged(datasets, d) == datasets[d].closing
  {
  }

  /** Only the beginning of a close sets the flag, and nothing clears it. */
  lemma ClosingStep(s: State, step: Step, e: nat)
    requires Enabled(s, step)
    ensures IsClosing(Apply(s, step), e) <==> IsClosing(s, e) || step == BeginClose(e)
  {
    assert Flagged(s.datasets + [NEW_DATASET], e) == Flagged(s.datasets, e);
    hide HasSessionRoom, Acquired, Released, Closing, Flagged;
    var d := Touched(s, step);
    if d.Some? { FlaggedAfter(s.datasets, d.value, Apply(s, step).datasets[d.value], e); }
  }

  /** The graph whose handle a step changes. */
  function Touched(s: State, step: Step): Option<nat>
    requires Enabled(s, step)
    ensures Touched(s, step).Some? ==> Touched(s, step).value < |s.datasets| == |Apply(s, step).datasets|
  {
    match step
    case Acquire(_) => s.current
    case AcquireSession(_, id) => Some(s.sessions[id].dataset)
    case Finish(q) => Some(s.holders[q])
    case BeginUpload(_, _) => s.current
    case EndUpload => Some(s.holders[s.upload.value.query])
    case BeginClose(d) => Some(d)
    case FinishClose(d) => Some(d)
    case _ => None
  }

  /** Steps of queries, and of an upload, pass no graph on. */
  predicate PassesOn(step: Step) {
    || step.Open? || step.Replace? || step.Discard? || step.Stop?
    || step.AddSession? || step.DropSession? || step.BeginClose?
  }

  lemma QuietStep(s: State, step: Step)
    requires Enabled(s, step) && !PassesOn(step)
    ensures var t := Apply(s, step);
            && t.builders == s.builders && t.current == s.current && t.sessions == s.sessions
            && t.closers == s.closers && t.handed == s.handed && |t.datasets| == |s.datasets|
  {
    hide HasSessionRoom, Acquired, Released;
  }

  lemma BuiltPasses(s: State, step: Step, d: nat)
    requires Enabled(s, step) && (step.Open? || step.Replace? || step.Discard?)
    requires Hands(s, d) == One(d < |s.datasets|) && s.handed[d] == s.closers[d] + One(IsClosing(s, d))
    requires IsClosing(Apply(s, step), d) <==> IsClosing(s, d) || step == BeginClose(d)
    requires step == BeginClose(d) ==> !IsClosing(s, d)
    ensures Hands(Apply(s, step), d) == One(d < |Apply(s, step).datasets|)
    ensures Apply(s, step).handed[d] == Apply(s, step).closers[d] + One(IsClosing(Apply(s, step), d))
  {
    hide IsClosing, InSessions, HasSessionRoom, Closing;
  }

  lemma CurrentPasses(s: State, step: Step, d: nat)
    requires Enabled(s, step) && (step.Stop? || step.BeginClose?)
    requires Hands(s, d) == One(d < |s.datasets|) && s.handed[d] == s.closers[d] + One(IsClosing(s, d))
    requires IsClosing(Apply(s, step), d) <==> IsClosing(s, d) || step == BeginClose(d)
    requires step == BeginClose(d) ==> !IsClosing(s, d)
    ensures Hands(Apply(s, step), d) == One(d < |Apply(s, step).datasets|)
    ensures Apply(s, step).handed[d] == Apply(s, step).closers[d] + One(IsClosing(Apply(s, step), d))
  {
    hide IsClosing, InSessions, HasSessionRoom, Closing;
  }

  lemma SessionPasses(s: State, step: Step, d: nat)
    requires Enabled(s, step) && (step.AddSession? || step.DropSession?)
    requires Hands(s, d) == One(d < |s.datasets|) && s.handed[d] == s.closers[d] + One(IsClosing(s, d))
    requires IsClosing(Apply(s, step), d) <==> IsClosing(s, d) || step == BeginClose(d)
    requires step == BeginClose(d) ==> !IsClosing(s, d)
    ensures Hands(Apply(s, step), d) == One(d < |Apply(s, step).datasets|)
    ensures Apply(s, step).handed[d] == Apply(s, step).closers[d] + One(IsClosing(Apply(s, step), d))
  {
    hide IsClosing, InSessions, HasSessionRoom, Closing;
    if step.AddSession? {
      OneMoreInSession(s.sessions, step.id, Session(s.upload.value.owner, step.d), d);
    } else {
      OneLessInSession(s.sessions, step.id, d);
    }
  }

  lemma HandsStep(s: State, step: Step, d: nat)
    requires HandsFit(s) && Enabled(s, step)
    ensures Hands(Apply(s, step), d) == One(d < |Apply(s, step).datasets|)
    ensures Apply(s, step).handed[d] == Apply(s, step).closers[d] + One(IsClosing(Apply(s, step), d))
  {
    assert Hands(s, d) == One(d < |s.datasets|);
    assert s.handed[d] == s.closers[d] + One(IsClosing(s, d));
    if step.BeginClose? { InHandIsOpen(s, step.d); }
    ClosingStep(s, step, d);
    hide Enabled, Apply, HandsFit;
    if step.Open? || step.Replace? || step.Discard? {
      BuiltPasses(s, step, d);
    } else if step.Stop? || step.BeginClose? {
      CurrentPasses(s, step, d);
    } else if PassesOn(step) {
      SessionPasses(s, step, d);
    } else {
      QuietStep(s, step);
    }
  }

  lemma OneMoreOwned(sessions: map<SessionId, Session>, id: SessionId, added: Session, owner: Owner)
    requires id !in sessions
    ensures |Owned(sessions[id := added], owner)| == |Owned(sessions, owner)| + if owner == added.owner then 1 else 0
  {
    assert Owned(sessions[id := added], owner) == Owned(sessions, owner) + if owner == added.owner then {id} else {};
  }

  lemma AddedSessionFits(sessions: map<SessionId, Session>, id: SessionId, added: Session)
    requires SessionsFit(sessions) && id !in sessions && |sessions| < MAX_SESSION_PROFILES
    requires |Owned(sessions, added.owner)| < OwnerSessionProfileLimit(added.owner)
    ensures SessionsFit(sessions[id := added])
  {
    hide Owned;
    var more := sessions[id := added];
    assert more.Keys == sessions.Keys + {id};
    forall owner
      ensures |Owned(more, owner)| <= OwnerSessionProfileLimit(owner)
    {
      OneMoreOwned(sessions, id, added, owner);
    }
  }

  lemma DroppedSessionFits(sessions: map<SessionId, Session>, id: SessionId)
    requires SessionsFit(sessions) && id in sessions
    ensures SessionsFit(sessions - {id}) && |sessions - {id}| < |sessions|
    ensures forall owner :: |Owned(sessions - {id}, owner)| <= |Owned(sessions, owner)|
  {
    var rest := sessions - {id};
    assert rest.Keys == sessions.Keys - {id};
    forall owner
      ensures |Owned(rest, owner)| <= |Owned(sessions, owner)|
    {
      SubsetSize(Owned(rest, owner), Owned(sessions, owner));
    }
  }

  /** The upload keeps the query it holds its graph with. */
  lemma QuietKeepsSessions(s: State, t: State)
    requires SessionsFit(s.sessions) && UploadFits(s) && t.sessions == s.sessions && t.upload == s.upload
    requires s.upload.Some? ==> s.upload.value.query in t.holders
    requires forall q :: q in s.holders && q in t.holders ==> t.holders[q] == s.holders[q]
    ensures SessionsFit(t.sessions) && UploadFits(t)
  {
    hide SessionsFit, Owned;
  }

  lemma BeginUploadKeepsSessions(s: State, q: nat, owner: Owner)
    requires SessionsFit(s.sessions) && Enabled(s, BeginUpload(q, owner))
    ensures var t := Apply(s, BeginUpload(q, owner)); SessionsFit(t.sessions) && UploadFits(t)
  {
    hide SessionsFit, Owned;
  }

  lemma AddSessionKeepsSessions(s: State, id: SessionId, d: nat)
    requires SessionsFit(s.sessions) && UploadFits(s) && Enabled(s, AddSession(id, d))
    ensures var t := Apply(s, AddSession(id, d)); SessionsFit(t.sessions) && UploadFits(t)
  {
    AddedSessionFits(s.sessions, id, Session(s.upload.value.owner, d));
    hide SessionsFit, Owned;
  }

  lemma DropSessionKeepsSessions(s: State, id: SessionId)
    requires SessionsFit(s.sessions) && UploadFits(s) && Enabled(s, DropSession(id))
    ensures var t := Apply(s, DropSession(id)); SessionsFit(t.sessions) && UploadFits(t)
  {
    DroppedSessionFits(s.sessions, id);
    hide SessionsFit, Owned;
  }

  /** Queries come and go around the upload's own. */
  ghost predicate Around(s: State, t: State) {
    && t.sessions == s.sessions && t.upload == s.upload
    && (s.upload.Some? ==> s.upload.value.query in t.holders)
    && (forall q :: q in s.holders && q in t.holders ==> t.holders[q] == s.holders[q])
  }

  lemma TakeAround(s: State, q: nat, d: nat)
    requires d < |s.datasets| && q !in s.holders && (s.upload.Some? ==> s.upload.value.query in s.holders)
    ensures Around(s, Take(s, q, d))
  {
    hide Acquired;
  }

  lemma DropAround(s: State, q: nat)
    requires q in s.holders && s.holders[q] < |s.datasets|
    requires s.upload.Some? ==> s.upload.value.query in s.holders && s.upload.value.query != q
    ensures Around(s, Drop(s, q))
  {
    hide Released;
  }

  /** The other steps leave sessions and upload alone, and the upload's query in place. */
  lemma OtherStep(s: State, step: Step)
    requires Enabled(s, step)
    requires !step.BeginUpload? && !step.AddSession? && !step.DropSession? && !step.EndUpload?
    requires s.upload.Some? ==> s.upload.value.query in s.holders
    ensures Around(s, Apply(s, step))
  {
    hide Around, Take, Drop, Acquired, Released, Closing, HasSessionRoom;
    var t := Apply(s, step);
    if step.Acquire? {
      TakeAround(s, step.query, s.current.value);
    } else if step.AcquireSession? {
      TakeAround(s, step.query, s.sessions[step.id].dataset);
    } else if step.Finish? {
      DropAround(s, step.query);
    } else {
      SameAround(s, t);
    }
  }

  lemma SameAround(s: State, t: State)
    requires t.sessions == s.sessions && t.upload == s.upload && t.holders == s.holders
    requires s.upload.Some? ==> s.upload.value.query in s.holders
    ensures Around(s, t)
  {
  }

  lemma StepKeepsSessions(s: State, step: Step)
    requires SessionsFit(s.sessions) && UploadFits(s) && Enabled(s, step)
    ensures SessionsFit(Apply(s, step).sessions) && UploadFits(Apply(s, step))
  {
    if step.BeginUpload? {
      BeginUploadKeepsSessions(s, step.query, step.owner);
    } else if step.AddSession? {
      AddSessionKeepsSessions(s, step.id, step.d);
    } else if step.DropSession? {
      DropSessionKeepsSessions(s, step.id);
    } else if step.EndUpload? {
      hide SessionsFit;
      assert Apply(s, step).upload == None;
    } else {
      OtherStep(s, step);
      hide SessionsFit, UploadFits, Apply, Enabled;
      QuietKeepsSessions(s, Apply(s, step));
    }
  }

  lemma StepKeepsInv(s: State, step: Step)
    requires Inv(s) && Enabled(s, step)
    ensures Inv(Apply(s, step))
  {
    hide DatasetsFit, HandsFit, SessionsFit, UploadFits, Apply, Enabled;
    StepKeepsDatasets(s, step);
    StepKeepsHands(s, step);
    StepKeepsSessions(s, step);
  }

  // --------------------------------------------------------------------- results

  ghost predicate Run(states: seq<State>, steps: seq<Step>) {
    && |states| == |steps| + 1
    && states[0] == Initial()
    && forall i :: 0 <= i < |steps| ==> Enabled(states[i], steps[i]) && states[i + 1] == Apply(states[i], steps[i])
  }

  lemma InitialIsInv()
    ensures Inv(Initial())
  {
    assert forall owner :: Owned(map[], owner) == {};
    assert forall d :: InSessions(map[], d) == {};
  }

  lemma {:induction false} RunKeepsInv(states: seq<State>, steps: seq<Step>, n: nat)
    requires Run(states, steps) && n <= |steps|
    ensures Inv(states[n])
  {
    hide Inv, Apply, Enabled;
    if n == 0 {
      InitialIsInv();
    } else {
      RunKeepsInv(states, steps, n - 1);
      StepKeepsInv(states[n - 1], steps[n - 1]);
    }
  }

  /** A graph is never closed while a query holds it, and its drain signal is sent exactly
      once: when it is closing and its last query has let go. */
  lemma ClosedOnlyWhenDrained(states: seq<State>, steps: seq<Step>, n: nat, d: nat)
    requires Run(states, steps) && n <= |steps| && d < |states[n].datasets|
    ensures states[n].datasets[d].active == |HeldBy(states[n].holders, d)|
    ensures states[n].datasets[d].closed ==> HeldBy(states[n].holders, d) == {}
    ensures states[n].datasets[d].drains <= 1
    ensures states[n].datasets[d].drains == 1 <==> states[n].datasets[d].closing && HeldBy(states[n].holders, d) == {}
  {
    hide Apply, Enabled, HandsFit, SessionsFit, UploadFits, HeldBy;
    RunKeepsInv(states, steps, n);
    assert Fits(states[n].datasets[d], |HeldBy(states[n].holders, d)|);
  }

  /** Taking the current graph, or a session's, under the service lock never fails - so the
      upload may ignore the answer. */
  lemma AcquireAlwaysSucceeds(states: seq<State>, steps: seq<Step>, n: nat)
    requires Run(states, steps) && n < |steps|
    requires steps[n].Acquire? || steps[n].AcquireSession? || steps[n].BeginUpload?
    ensures steps[n].query in states[n + 1].holders
    ensures var d := states[n + 1].holders[steps[n].query];
            && (if steps[n].AcquireSession? then d == states[n].sessions[steps[n].id].dataset
                else states[n].current == Some(d))
            && d < |states[n].datasets| && !states[n].datasets[d].closing &&
            states[n + 1].datasets[d].active == states[n].datasets[d].active + 1
  {
    hide HandsFit, SessionsFit, UploadFits, HasSessionRoom;
    RunKeepsInv(states, steps, n);
    var s := states[n];
    InHandIsOpen(s, if steps[n].AcquireSession? then s.sessions[steps[n].id].dataset else s.current.value);
  }

  /** Nobody keeps the graph: it is not to be published, nor current, nor in a session. */
  predicate LetGo(s: State, d: nat) {
    d < |s.datasets| && d !in s.builders && s.current != Some(d) && InSessions(s.sessions, d) == {}
  }

  /** Whoever lets go of a graph, it is handed to exactly one closer, and to none before:
      no graph leaks and none is closed twice. */
  lemma HandedOverOnce(states: seq<State>, steps: seq<Step>, n: nat, d: nat)
    requires Run(states, steps) && n <= |steps|
    ensures states[n].handed[d] == One(LetGo(states[n], d))
    ensures LetGo(states[n], d) <==> d in states[n].closers || IsClosing(states[n], d)
  {
    hide Apply, Enabled, DatasetsFit, SessionsFit, UploadFits;
    RunKeepsInv(states, steps, n);
    assert Hands(states[n], d) == One(d < |states[n].datasets|);
  }

  lemma {:induction false} ClosingStays(states: seq<State>, steps: seq<Step>, m: nat, n: nat, d: nat)
    requires Run(states, steps) && m <= n <= |steps| && IsClosing(states[m], d)
    ensures IsClosing(states[n], d)
    decreases n
  {
    hide Enabled, Apply, IsClosing;
    if m < n {
      ClosingStays(states, steps, m, n - 1, d);
      ClosingStep(states[n - 1], steps[n - 1], d);
    }
  }

  /** No two goroutines begin to close one graph, so its signal channel is not closed twice. */
  lemma OneCloser(states: seq<State>, steps: seq<Step>, i: nat, j: nat, d: nat)
    requires Run(states, steps) && i < j < |steps| && steps[i] == BeginClose(d)
    ensures steps[j] != BeginClose(d)
  {
    ClosingStays(states, steps, i + 1, j, d);
    RunKeepsInv(states, steps, j);
    if d in states[j].closers { InHandIsOpen(states[j], d); }
  }

  /** Live profiles stay within the whole and every account's share. */
  lemma SessionBounds(states: seq<State>, steps: seq<Step>, n: nat, owner: Owner)
    requires Run(states, steps) && n <= |steps|
    ensures |states[n].sessions| <= 8
    ensures owner.Account? ==> |Owned(states[n].sessions, owner)| <= 2
  {
    hide Apply, Enabled, DatasetsFit, HandsFit, UploadFits, Owned;
    RunKeepsInv(states, steps, n);
  }

  /** A session's graph is neither the current one nor another session's, and no closer
      has it. */
  lemma OnePlace(states: seq<State>, steps: seq<Step>, n: nat, id: SessionId, other: SessionId)
    requires Run(states, steps) && n <= |steps| && id in states[n].sessions
    ensures states[n].current != Some(states[n].sessions[id].dataset)
    ensures states[n].sessions[id].dataset !in states[n].closers
    ensures other in states[n].sessions && other != id ==>
              states[n].sessions[other].dataset != states[n].sessions[id].dataset
  {
    hide Apply, Enabled, DatasetsFit, SessionsFit, UploadFits;
    RunKeepsInv(states, steps, n);
    var d := states[n].sessions[id].dataset;
    var sharing := InSessions(states[n].sessions, d);
    assert Hands(states[n], d) == One(d < |states[n].datasets|);
    assert id in sharing && sharing == {id} + (sharing - {id});
    assert sharing - {id} == {};
    assert other in sharing ==> other == id;
  }

  /** The current graph changes in a replacement and at the stop, to just that. */
  lemma CurrentStep(s: State, step: Step)
    requires Enabled(s, step)
    ensures Apply(s, step).current ==
            match step
            case Replace(d) => Some(d)
            case Stop => None
            case _ => s.current
  {
    hide HasSessionRoom, Acquired, Released, Closing;
  }

  /** A session is the upload's owner's, over the graph it brought, until it is dropped. */
  lemma SessionStep(s: State, step: Step, id: SessionId)
    requires Enabled(s, step)
    ensures id in Apply(s, step).sessions <==>
              (step.AddSession? && step.id == id) || (id in s.sessions && !(step.DropSession? && step.id == id))
    ensures id in Apply(s, step).sessions ==>
              Apply(s, step).sessions[id] == if step.AddSession? && step.id == id
                                             then Session(s.upload.value.owner, step.d) else s.sessions[id]
  {
    hide HasSessionRoom, Acquired, Released, Closing;
  }

  /** An upload is of the owner and against the graph it began with, and adds once. */
  lemma UploadStep(s: State, step: Step)
    requires Enabled(s, step)
    ensures var t := Apply(s, step);
            t.upload ==
              match step
              case BeginUpload(query, owner) => Some(Upload(owner, s.current.value, query, false))
              case EndUpload => None
              case AddSession(_, _) => Some(s.upload.value.(added := true))
              case _ => s.upload
  {
    hide HasSessionRoom, Acquired, Released, Closing;
  }

  predicate GivesBack(s: State, step: Step, q: nat) {
    step == Finish(q) || (step.EndUpload? && s.upload.Some? && s.upload.value.query == q)
  }

  /** Only the query itself, or the end of its upload, lets go of its graph. */
  lemma HolderStep(s: State, step: Step, q: nat)
    requires Enabled(s, step) && q in s.holders
    ensures var t := Apply(s, step);
            if GivesBack(s, step, q) then q !in t.holders else q in t.holders && t.holders[q] == s.holders[q]
  {
    hide HasSessionRoom, Acquired, Released, Closing;
  }

  /** From the step that took it to the step that gives it back, a query holds one graph, and
      nobody closes it meanwhile. */
  lemma {:induction false} QueryKeepsItsGraph(states: seq<State>, steps: seq<Step>, m: nat, n: nat, q: nat)
    requires Run(states, steps) && m <= n <= |steps| && q in states[m].holders
    requires forall k :: m <= k < n ==> !GivesBack(states[k], steps[k], q)
    ensures q in states[n].holders && states[n].holders[q] == states[m].holders[q]
    ensures states[n].holders[q] < |states[n].datasets| && !states[n].datasets[states[n].holders[q]].closed
    decreases n
  {
    hide Apply, Enabled;
    RunKeepsInv(states, steps, n);
    if m < n {
      QueryKeepsItsGraph(states, steps, m, n - 1, q);
      HolderStep(states[n - 1], steps[n - 1], q);
    }
    var d := states[n].holders[q];
    assert q in HeldBy(states[n].holders, d);
    ClosedOnlyWhenDrained(states, steps, n, d);
  }
}
