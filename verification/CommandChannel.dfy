/**
  The broker and its pages as one system, over an event stream that may drop at any
  moment: every command runs at most once, in the order it was issued, and a caller is
  answered with what its own run produced.
 */
module CommandChannel {
  import opened Options
  import opened Broker
  import opened Page

  /** One view's current event stream: what the handler has read from the queue and not
      written yet, what is under way, and the last command it wrote. */
  datatype Link = Link(held: Option<Command>, wire: seq<Command>, delivered: Option<nat>)

  datatype Post = Post(view: ViewId, id: nat, body: Result)

  datatype System = System(
    broker: State,
    tabs: map<ViewId, Tab>,
    links: map<ViewId, Link>,
    posts: set<Post>,
    issued: map<nat, ViewId>,
    answers: map<nat, Result>)

  datatype Step =
    | Call(view: ViewId, payload: string)      // a client's command joins a view's queue
    | GiveUp(id: nat)                          // its caller's context ends
    | Heartbeat(view: ViewId, snapshot: Snapshot, active: bool, sequence: nat, now: int)
    | PruneViews(now: int)
    | Reconnect(view: ViewId)                  // whatever the old stream had under way is lost
    | ReadHead(view: ViewId)
    | WriteHead(view: ViewId)
    | Arrive(view: ViewId)
    | StartHandling(view: ViewId)
    | RunEnds(view: ViewId, body: Result)
    | SendResult(view: ViewId)
    | SubmitEnds(view: ViewId, acknowledged: bool)
    | ResultReaches(post: Post)                // possibly late, and possibly more than once

  function Initial(): System { System(Broker.Initial(), map[], map[], {}, map[], map[]) }

  function TabOf(s: System, view: ViewId): Tab { if view in s.tabs then s.tabs[view] else NewTab() }

  function LinkOf(s: System, view: ViewId): Link { if view in s.links then s.links[view] else Link(None, [], None) }

  function QueueOf(s: System, view: ViewId): seq<Command> {
    if view in s.broker.views then s.broker.views[view].commands else []
  }

  predicate Enabled(s: System, step: Step) {
    match step
    case Call(view, _) => view in s.broker.views && |s.broker.views[view].commands| < MAX_QUEUED_COMMANDS
    case Heartbeat(view, _, _, _, _) => view in s.broker.views || |s.broker.views| < MAX_BROWSER_VIEWS
    case ReadHead(view) =>
      var l := LinkOf(s, view);
      l.held == None && QueueOf(s, view) != [] && l.delivered != Some(QueueOf(s, view)[0].id)
    case WriteHead(view) => LinkOf(s, view).held.Some?
    case Arrive(view) => LinkOf(s, view).wire != []
    case StartHandling(view) => TabOf(s, view).phase.Idle? && TabOf(s, view).inbox != []
    case RunEnds(view, _) => TabOf(s, view).phase.Running?
    case SendResult(view) => TabOf(s, view).phase.Submitting?
    case SubmitEnds(view, _) => TabOf(s, view).phase.Submitting?
    case ResultReaches(post) => post in s.posts
    case _ => true
  }

  function Apply(s: System, step: Step): System
    requires Enabled(s, step)
  {
    match step
    case Call(view, payload) =>
      s.(broker := Enqueue(s.broker, view, payload), issued := s.issued[s.broker.nextID + 1 := view])
    case GiveUp(id) => s.(broker := Settle(s.broker, id))
    case Heartbeat(view, snapshot, active, sequence, now) =>
      s.(broker := PublishView(s.broker, view, snapshot, active, sequence, now))
    case PruneViews(now) => s.(broker := Prune(s.broker, now))
    case Reconnect(view) => s.(links := s.links[view := Link(None, [], None)])
    case ReadHead(view) =>
      s.(links := s.links[view := LinkOf(s, view).(held := Some(QueueOf(s, view)[0]))])
    case WriteHead(view) =>
      var l := LinkOf(s, view);
      s.(links := s.links[view := Link(None, l.wire + [l.held.value], Some(l.held.value.id))])
    case Arrive(view) =>
      var l := LinkOf(s, view);
      s.(links := s.links[view := l.(wire := l.wire[1..])],
         tabs := s.tabs[view := Receive(TabOf(s, view), l.wire[0])])
    case StartHandling(view) => s.(tabs := s.tabs[view := Take(TabOf(s, view))])
    case RunEnds(view, body) => s.(tabs := s.tabs[view := Finish(TabOf(s, view), body)])
    case SendResult(view) =>
      var phase := TabOf(s, view).phase;
      s.(posts := s.posts + {Post(view, phase.id, phase.body)})
    case SubmitEnds(view, acknowledged) => s.(tabs := s.tabs[view := EndSubmit(TabOf(s, view), acknowledged)])
    case ResultReaches(post) =>
      if post.id in s.broker.pending && s.broker.pending[post.id] == post.view
      then s.(broker := Settle(s.broker, post.id), answers := s.answers[post.id := post.body])
      else s
  }

  // ------------------------------------------------------------------- invariant

  ghost predicate Ascending(cs: seq<Command>) {
    forall i, j :: 0 <= i < j < |cs| ==> cs[i].id <= cs[j].id
  }

  function HeldOf(l: Link): seq<Command> { match l.held case None => [] case Some(c) => [c] }

  /** What has not reached the page yet. */
  function Beyond(s: System, view: ViewId): seq<Command> {
    LinkOf(s, view).wire + HeldOf(LinkOf(s, view)) + QueueOf(s, view)
  }

  /** Everything on its way from a view's queue to its page, nearest to the page first. */
  function Flow(s: System, view: ViewId): seq<Command> {
    TabOf(s, view).inbox + Beyond(s, view)
  }

  /** Nothing on its way is older than anything already run. */
  ghost predicate Following(flow: seq<Command>, runs: seq<nat>) {
    && Ascending(flow)
    && (forall i, k :: 0 <= i < |runs| && 0 <= k < |flow| ==> runs[i] <= flow[k].id)
  }

  /** The page ran its commands in issue order and remembers the last ones of them. */
  ghost predicate Remembering(deliveries: seq<Delivery>, runs: seq<nat>) {
    && (forall i, j :: 0 <= i < j < |runs| ==> runs[i] < runs[j])
    && (runs != [] ==> deliveries != [] && deliveries[|deliveries| - 1].id == runs[|runs| - 1])
    && |deliveries| <= MAX_TRACKED_COMMANDS
    && (forall i, j :: 0 <= i < j < |deliveries| ==> deliveries[i].id < deliveries[j].id)
    && (forall i :: 0 <= i < |deliveries| ==> deliveries[i].id in runs)
  }

  /** Answers are those of the page's own runs. */
  ghost predicate Answered(t: Tab) {
    && (forall id :: id in t.outcomes ==> id in t.runs)
    && (forall i :: 0 <= i < |t.deliveries| && t.deliveries[i].body.Some? ==>
          t.deliveries[i].id in t.outcomes && t.outcomes[t.deliveries[i].id] == t.deliveries[i].body.value)
    && (forall i :: 0 <= i < |t.deliveries| && t.deliveries[i].id in t.outcomes ==> t.deliveries[i].body.Some?)
    && (forall id :: id in t.runs ==> id in t.outcomes || t.phase == Running(id))
    && (t.phase.Submitting? ==> t.phase.id in t.outcomes && t.outcomes[t.phase.id] == t.phase.body)
    && (t.phase.Running? ==> t.runs != [] && t.phase.id == t.runs[|t.runs| - 1] && t.phase.id !in t.outcomes)
  }

  ghost predicate IssuedHere(issued: map<nat, ViewId>, view: ViewId, flow: seq<Command>, runs: seq<nat>) {
    && (forall c :: c in flow ==> c.id in issued && issued[c.id] == view)
    && (forall id :: id in runs ==> id in issued && issued[id] == view)
  }

  ghost predicate TabInv(issued: map<nat, ViewId>, view: ViewId, flow: seq<Command>, t: Tab) {
    && Following(flow, t.runs)
    && Remembering(t.deliveries, t.runs)
    && Answered(t)
    && IssuedHere(issued, view, flow, t.runs)
  }

  ghost predicate ViewInv(s: System, view: ViewId) { TabInv(s.issued, view, Flow(s, view), TabOf(s, view)) }

  predicate HasOutcome(s: System, view: ViewId, id: nat, body: Result) {
    id in TabOf(s, view).outcomes && TabOf(s, view).outcomes[id] == body
  }

  ghost predicate BrokerInv(broker: State, issued: map<nat, ViewId>) {
    && Consistent(broker)
    && (forall id :: id in issued ==> 0 < id <= broker.nextID)
    && (forall id :: id in broker.pending ==> id in issued && issued[id] == broker.pending[id])
  }

  ghost predicate AnswersInv(s: System) {
    && (forall p :: p in s.posts ==> HasOutcome(s, p.view, p.id, p.body))
    && (forall id :: id in s.answers ==> id in s.issued && HasOutcome(s, s.issued[id], id, s.answers[id]))
  }

  ghost predicate Inv(s: System) {
    BrokerInv(s.broker, s.issued) && AnswersInv(s) && forall view :: ViewInv(s, view)
  }

  // ------------------------------------------------------------ how flows change

  /** Nothing new and still in issue order: commands were lost, or came to stand twice. */
  ghost predicate Within(before: seq<Command>, after: seq<Command>) {
    Ascending(after) && forall c :: c in after ==> c in before
  }

  lemma CutWithin(before: seq<Command>, i: nat, j: nat)
    requires Ascending(before) && i <= j <= |before|
    ensures Within(before, before[..i] + before[j..])
  {
    var after := before[..i] + before[j..];
    forall k | 0 <= k < |after|
      ensures after[k] == before[if k < i then k else k - i + j]
    {
    }
  }

  /** A flow that only lost or repeated commands keeps everything a view promises. */
  lemma FlowShrinks(issued: map<nat, ViewId>, view: ViewId, before: seq<Command>, after: seq<Command>, t: Tab)
    requires TabInv(issued, view, before, t) && Within(before, after)
    ensures TabInv(issued, view, after, t)
  {
    forall i, k | 0 <= i < |t.runs| && 0 <= k < |after|
      ensures t.runs[i] <= after[k].id
    {
      assert after[k] in before;
    }
  }

  /** Removing a command from the queue only takes it out of the flow. */
  lemma QueueShrinks(front: seq<Command>, queue: seq<Command>, id: nat)
    requires Ascending(front + queue)
    ensures Within(front + queue, front + WithoutCommand(queue, id))
  {
    var k := WithoutCommandAt(queue, id);
    var before, after := front + queue, front + WithoutCommand(queue, id);
    if k < |queue| {
      CutWithin(before, |front| + k, |front| + k + 1);
      assert after == before[..|front| + k] + before[|front| + k + 1..];
    } else {
      assert after == before;
    }
  }

  /** A stream that reads the head of the queue again doubles it in the flow. */
  lemma HeadDoubles(front: seq<Command>, queue: seq<Command>)
    requires Ascending(front + queue) && queue != []
    ensures Within(front + queue, front + [queue[0]] + queue)
  {
    var before, after := front + queue, front + [queue[0]] + queue;
    forall k | 0 <= k < |after|
      ensures after[k] == before[if k <= |front| then k else k - 1]
    {
    }
  }

  /** A new command is younger than everything issued before it. */
  lemma QueueGrows(issued: map<nat, ViewId>, view: ViewId, before: seq<Command>, c: Command, t: Tab, last: nat)
    requires TabInv(issued, view, before, t) && c.id == last + 1
    requires forall id :: id in issued ==> 0 < id <= last
    ensures TabInv(issued[c.id := view], view, before + [c], t)
  {
    var after := before + [c];
    forall k | 0 <= k < |before|
      ensures after[k] == before[k] && before[k].id < c.id
    {
      assert before[k] in before;
    }
    forall i | 0 <= i < |t.runs|
      ensures t.runs[i] < c.id
    {
      assert t.runs[i] in t.runs;
    }
  }

  // ------------------------------------------------------------ the page's own steps

  lemma KnownHeadKeeps(issued: map<nat, ViewId>, view: ViewId, t: Tab, rest: seq<Command>)
    requires t.phase.Idle? && t.inbox != [] && Remembers(t.deliveries, t.inbox[0].id)
    requires TabInv(issued, view, t.inbox + rest, t)
    ensures TabInv(issued, view, Take(t).inbox + rest, Take(t))
  {
    var before, after := t.inbox + rest, Take(t).inbox + rest;
    HeadGone(t.inbox, rest);
    FlowShrinks(issued, view, before, after, t);
    hide Following, Remembering, IssuedHere, Within, Ascending;
    assert Answered(Take(t));
  }

  lemma HeadGone(inbox: seq<Command>, rest: seq<Command>)
    requires inbox != []
    ensures Ascending(inbox + rest) ==> Within(inbox + rest, inbox[1..] + rest)
  {
    var before := inbox + rest;
    assert inbox[1..] + rest == before[..0] + before[1..];
    if Ascending(before) { CutWithin(before, 0, 1); }
  }

  /** The filter is never wrong: an unremembered command is younger than every run. */
  lemma UnknownHeadIsNew(t: Tab, flow: seq<Command>)
    requires flow != [] && Following(flow, t.runs) && Remembering(t.deliveries, t.runs)
    requires !Remembers(t.deliveries, flow[0].id)
    ensures forall r :: r in t.runs ==> r < flow[0].id
  {
    if t.runs != [] {
      var last := t.runs[|t.runs| - 1];
      assert last <= flow[0].id;
      assert t.deliveries[|t.deliveries| - 1].id != flow[0].id;
      assert last < flow[0].id;
      forall i | 0 <= i < |t.runs|
        ensures t.runs[i] < flow[0].id
      {
        assert t.runs[i] <= last;
      }
    }
  }

  ghost predicate AscendingIds(deliveries: seq<Delivery>) {
    forall i, j :: 0 <= i < j < |deliveries| ==> deliveries[i].id < deliveries[j].id
  }

  lemma RunsExtend(runs: seq<nat>, id: nat)
    requires forall i, j :: 0 <= i < j < |runs| ==> runs[i] < runs[j]
    requires forall r :: r in runs ==> r < id
    ensures forall i, j :: 0 <= i < j < |runs + [id]| ==> (runs + [id])[i] < (runs + [id])[j]
  {
    forall i | 0 <= i < |runs|
      ensures runs[i] in runs
    {
    }
  }

  /** The remembered commands after one more, oldest forgotten first. */
  lemma RememberExtends(deliveries: seq<Delivery>, id: nat)
    requires AscendingIds(deliveries) && |deliveries| <= MAX_TRACKED_COMMANDS
    requires forall i :: 0 <= i < |deliveries| ==> deliveries[i].id < id
    ensures var more := Remember(deliveries, id);
            && AscendingIds(more) && 0 < |more| <= MAX_TRACKED_COMMANDS
            && more[|more| - 1] == Delivery(id, None, false)
            && forall i :: 0 <= i < |more| - 1 ==> more[i] in deliveries
  {
    var all := deliveries + [Delivery(id, None, false)];
    assert AscendingIds(all);
    if |all| > MAX_TRACKED_COMMANDS {
      assert forall i :: 0 <= i < |all| - 1 ==> all[1..][i] == all[i + 1];
    }
  }

  lemma RememberKeeps(deliveries: seq<Delivery>, runs: seq<nat>, id: nat)
    requires Remembering(deliveries, runs)
    requires forall r :: r in runs ==> r < id
    ensures Remembering(Remember(deliveries, id), runs + [id])
    ensures forall d :: d in Remember(deliveries, id) ==> d in deliveries || d == Delivery(id, None, false)
  {
    var more := Remember(deliveries, id);
    forall i | 0 <= i < |deliveries|
      ensures deliveries[i].id < id
    {
      assert deliveries[i].id in runs;
    }
    assert forall d :: d in deliveries ==> d.id in runs;
    assert AscendingIds(deliveries);
    RunsExtend(runs, id);
    RememberExtends(deliveries, id);
    hide Remember;
    assert AscendingIds(more);
    forall i | 0 <= i < |more|
      ensures more[i].id in runs + [id]
    {
      if i < |more| - 1 { assert more[i] in deliveries; }
    }
  }

  lemma NewHeadKeeps(issued: map<nat, ViewId>, view: ViewId, t: Tab, rest: seq<Command>)
    requires t.phase.Idle? && t.inbox != [] && !Remembers(t.deliveries, t.inbox[0].id)
    requires TabInv(issued, view, t.inbox + rest, t)
    ensures TabInv(issued, view, Take(t).inbox + rest, Take(t))
  {
    var u := Take(t);
    var id := t.inbox[0].id;
    var before, after := t.inbox + rest, u.inbox + rest;
    assert before[0] == t.inbox[0] && before[0] in before;
    assert forall k :: 0 <= k < |after| ==> after[k] == before[k + 1];
    UnknownHeadIsNew(t, before);
    RememberKeeps(t.deliveries, t.runs, id);
    assert Following(after, u.runs);
    NewRunAnswered(t, u);
    assert IssuedHere(issued, view, after, u.runs);
    hide Answered, Take, Remember;
  }

  lemma NewRunAnswered(t: Tab, u: Tab)
    requires Answered(t) && t.phase.Idle? && u.phase.Running? && u.outcomes == t.outcomes
    requires u.phase.id !in t.runs && u.runs == t.runs + [u.phase.id]
    requires forall d :: d in u.deliveries ==> d in t.deliveries || d == Delivery(u.phase.id, None, false)
    ensures Answered(u)
  {
    forall i | 0 <= i < |u.deliveries| && u.deliveries[i].id != u.phase.id
      ensures u.deliveries[i] in t.deliveries
    {
      assert u.deliveries[i] in u.deliveries;
    }
    forall i | 0 <= i < |u.deliveries| && u.deliveries[i].id == u.phase.id
      ensures u.deliveries[i].body.Some? ==> u.phase.id in t.outcomes
    {
      assert u.deliveries[i] in u.deliveries;
    }
  }

  lemma FinishKeeps(issued: map<nat, ViewId>, view: ViewId, flow: seq<Command>, t: Tab, body: Result)
    requires t.phase.Running? && TabInv(issued, view, flow, t)
    ensures TabInv(issued, view, flow, Finish(t, body))
  {
    var u := Finish(t, body);
    assert |u.deliveries| == |t.deliveries|;
    assert forall i :: 0 <= i < |u.deliveries| ==> u.deliveries[i].id == t.deliveries[i].id;
    assert Remembering(u.deliveries, u.runs);
    FinishAnswered(t, body);
    hide Answered;
  }

  lemma FinishAnswered(t: Tab, body: Result)
    requires t.phase.Running? && Answered(t) && Remembering(t.deliveries, t.runs)
    ensures Answered(Finish(t, body))
  {
    FindIsFirst(t.deliveries, t.phase.id);
  }

  lemma EndSubmitKeeps(issued: map<nat, ViewId>, view: ViewId, flow: seq<Command>, t: Tab, acknowledged: bool)
    requires t.phase.Submitting? && TabInv(issued, view, flow, t)
    ensures TabInv(issued, view, flow, EndSubmit(t, acknowledged))
  {
    var u := EndSubmit(t, acknowledged);
    assert |u.deliveries| == |t.deliveries|;
    assert forall i :: 0 <= i < |u.deliveries| ==>
      u.deliveries[i].id == t.deliveries[i].id && u.deliveries[i].body == t.deliveries[i].body;
    assert Remembering(u.deliveries, u.runs);
    assert Answered(u);
  }

  // ------------------------------------------------------------- every step keeps it

  ghost predicate AllViews(s: System) { forall view :: ViewInv(s, view) }

  function Ahead(s: System, view: ViewId): seq<Command> {
    TabOf(s, view).inbox + LinkOf(s, view).wire + HeldOf(LinkOf(s, view))
  }

  lemma FlowSplits(s: System, view: ViewId)
    ensures Flow(s, view) == Ahead(s, view) + QueueOf(s, view)
  {
    var inbox, sent := TabOf(s, view).inbox, LinkOf(s, view).wire + HeldOf(LinkOf(s, view));
    assert Ahead(s, view) == inbox + sent;
    assert inbox + (sent + QueueOf(s, view)) == (inbox + sent) + QueueOf(s, view);
  }

  lemma TabFollows(issued: map<nat, ViewId>, view: ViewId, flow: seq<Command>, t: Tab)
    requires TabInv(issued, view, flow, t)
    ensures Following(flow, t.runs)
  {
  }

  /** A step of the broker alone keeps a view whose queue lost at most one command. */
  lemma QueueStep(s: System, t: System, view: ViewId, id: nat)
    requires ViewInv(s, view) && t.tabs == s.tabs && t.links == s.links && t.issued == s.issued
    requires QueueOf(t, view) == QueueOf(s, view) || QueueOf(t, view) == WithoutCommand(QueueOf(s, view), id)
    ensures ViewInv(t, view)
  {
    hide TabInv, Flow, Beyond;
    FlowSplits(s, view);
    FlowSplits(t, view);
    if QueueOf(t, view) != QueueOf(s, view) {
      TabFollows(s.issued, view, Flow(s, view), TabOf(s, view));
      QueueShrinks(Ahead(s, view), QueueOf(s, view), id);
      FlowShrinks(s.issued, view, Flow(s, view), Flow(t, view), TabOf(s, view));
    }
  }

  lemma SettleStep(s: System, t: System, id: nat)
    requires AllViews(s) && t.broker == Settle(s.broker, id)
    requires t.tabs == s.tabs && t.links == s.links && t.issued == s.issued
    ensures AllViews(t)
  {
    forall view
      ensures ViewInv(t, view)
    {
      assert ViewInv(s, view);
      QueueStep(s, t, view, id);
    }
  }

  lemma PruneStep(s: System, t: System, now: int)
    requires AllViews(s) && Consistent(s.broker) && t.broker == Prune(s.broker, now)
    requires t.tabs == s.tabs && t.links == s.links && t.issued == s.issued
    ensures AllViews(t)
  {
    PruneKeepsConsistent(s.broker, now);
    forall view
      ensures ViewInv(t, view)
    {
      assert ViewInv(s, view);
      QueueStep(s, t, view, 0);
    }
  }

  lemma HeartbeatStep(s: System, t: System)
    requires AllViews(s) && t.tabs == s.tabs && t.links == s.links && t.issued == s.issued
    requires forall view :: QueueOf(t, view) == QueueOf(s, view)
    ensures AllViews(t)
  {
    forall view
      ensures ViewInv(t, view)
    {
      assert ViewInv(s, view);
      QueueStep(s, t, view, 0);
    }
  }

  lemma CallStep(s: System, view: ViewId, payload: string)
    requires AllViews(s) && BrokerInv(s.broker, s.issued) && Enabled(s, Step.Call(view, payload))
    ensures AllViews(Apply(s, Step.Call(view, payload)))
  {
    hide TabInv, Flow, Beyond, Ahead, Consistent;
    var t := Apply(s, Step.Call(view, payload));
    var c := Command(s.broker.nextID + 1, payload);
    forall v
      ensures ViewInv(t, v)
    {
      assert ViewInv(s, v);
      CallFlow(s, view, payload, v);
      if v == view {
        QueueGrows(s.issued, v, Flow(s, v), c, TabOf(s, v), s.broker.nextID);
      } else {
        OtherIssued(s.issued, c.id, view, v, Flow(s, v), TabOf(s, v));
      }
    }
  }

  lemma CallFlow(s: System, view: ViewId, payload: string, v: ViewId)
    requires Enabled(s, Step.Call(view, payload))
    ensures var t := Apply(s, Step.Call(view, payload));
            Flow(t, v) == if v == view then Flow(s, v) + [Command(s.broker.nextID + 1, payload)] else Flow(s, v)
  {
    hide Flow, Beyond;
    var t := Apply(s, Step.Call(view, payload));
    FlowSplits(s, v);
    FlowSplits(t, v);
    assert Ahead(t, v) == Ahead(s, v);
    if v == view {
      var c := Command(s.broker.nextID + 1, payload);
      assert QueueOf(t, v) == QueueOf(s, v) + [c];
      assert Ahead(s, v) + (QueueOf(s, v) + [c]) == (Ahead(s, v) + QueueOf(s, v)) + [c];
    }
  }

  lemma OtherIssued(issued: map<nat, ViewId>, id: nat, view: ViewId, v: ViewId, flow: seq<Command>, t: Tab)
    requires TabInv(issued, v, flow, t) && id !in issued
    ensures TabInv(issued[id := view], v, flow, t)
  {
  }

  /** A step of one view's stream: the flow only loses or repeats commands. */
  lemma LinkStep(s: System, t: System, view: ViewId)
    requires AllViews(s) && t.broker == s.broker && t.tabs == s.tabs && t.issued == s.issued
    requires forall v :: v != view ==> LinkOf(t, v) == LinkOf(s, v)
    requires Within(Flow(s, view), Flow(t, view))
    ensures AllViews(t)
  {
    forall v
      ensures ViewInv(t, v)
    {
      assert ViewInv(s, v);
      if v == view {
        FlowShrinks(s.issued, v, Flow(s, v), Flow(t, v), TabOf(s, v));
      } else {
        assert Flow(t, v) == Flow(s, v);
      }
    }
  }

  lemma FlowCuts(inbox: seq<Command>, sent: seq<Command>, queue: seq<Command>)
    requires Ascending(inbox + (sent + queue))
    ensures Within(inbox + (sent + queue), inbox + queue)
  {
    var before := inbox + (sent + queue);
    CutWithin(before, |inbox|, |inbox| + |sent|);
    assert inbox + queue == before[..|inbox|] + before[|inbox| + |sent|..];
  }

  lemma ReconnectShrinks(s: System, view: ViewId)
    requires AllViews(s)
    ensures Within(Flow(s, view), Flow(Apply(s, Reconnect(view)), view))
  {
    hide TabInv, Within;
    var t := Apply(s, Reconnect(view));
    var inbox, sent := TabOf(s, view).inbox, LinkOf(s, view).wire + HeldOf(LinkOf(s, view));
    assert ViewInv(s, view);
    TabFollows(s.issued, view, Flow(s, view), TabOf(s, view));
    FlowCuts(inbox, sent, QueueOf(s, view));
    assert Beyond(t, view) == QueueOf(s, view);
  }

  lemma ReadShrinks(s: System, view: ViewId)
    requires AllViews(s) && Enabled(s, ReadHead(view))
    ensures Within(Flow(s, view), Flow(Apply(s, ReadHead(view)), view))
  {
    var t := Apply(s, ReadHead(view));
    FlowSplits(s, view);
    FlowSplits(t, view);
    assert ViewInv(s, view);
    HeadDoubles(Ahead(s, view), QueueOf(s, view));
    assert Ahead(t, view) == Ahead(s, view) + [QueueOf(s, view)[0]];
  }

  lemma WriteShrinks(s: System, view: ViewId)
    requires AllViews(s) && Enabled(s, WriteHead(view))
    ensures Within(Flow(s, view), Flow(Apply(s, WriteHead(view)), view))
  {
    assert ViewInv(s, view);
    var l := LinkOf(s, view);
    assert l.wire + [l.held.value] + [] == l.wire + HeldOf(l);
    assert Flow(Apply(s, WriteHead(view)), view) == Flow(s, view);
  }

  /** A step of one page: only its own tab changes. */
  lemma TabStep(s: System, t: System, view: ViewId)
    requires AllViews(s) && t.broker == s.broker && t.issued == s.issued
    requires forall v :: v != view ==> LinkOf(t, v) == LinkOf(s, v) && TabOf(t, v) == TabOf(s, v)
    requires ViewInv(t, view)
    ensures AllViews(t)
  {
    forall v
      ensures ViewInv(t, v)
    {
      assert ViewInv(s, v);
      if v != view { assert Flow(t, v) == Flow(s, v); }
    }
  }

  lemma ArriveKeeps(s: System, view: ViewId)
    requires AllViews(s) && Enabled(s, Arrive(view))
    ensures ViewInv(Apply(s, Arrive(view)), view)
  {
    var t := Apply(s, Arrive(view));
    assert ViewInv(s, view);
    assert Beyond(s, view) == [LinkOf(s, view).wire[0]] + Beyond(t, view);
    assert Flow(t, view) == Flow(s, view);
  }

  lemma StartKeeps(s: System, view: ViewId)
    requires AllViews(s) && Enabled(s, StartHandling(view))
    ensures ViewInv(Apply(s, StartHandling(view)), view)
  {
    hide TabInv, Take, Find;
    var t := Apply(s, StartHandling(view));
    assert ViewInv(s, view);
    var tab := TabOf(s, view);
    var rest := Beyond(s, view);
    assert Beyond(t, view) == rest;
    if Remembers(tab.deliveries, tab.inbox[0].id) {
      KnownHeadKeeps(s.issued, view, tab, rest);
    } else {
      NewHeadKeeps(s.issued, view, tab, rest);
    }
  }

  lemma RunEndsKeeps(s: System, view: ViewId, body: Result)
    requires AllViews(s) && Enabled(s, RunEnds(view, body))
    ensures ViewInv(Apply(s, RunEnds(view, body)), view)
  {
    assert ViewInv(s, view);
    FinishKeeps(s.issued, view, Flow(s, view), TabOf(s, view), body);
    assert Flow(Apply(s, RunEnds(view, body)), view) == Flow(s, view);
  }

  lemma SubmitEndsKeeps(s: System, view: ViewId, acknowledged: bool)
    requires AllViews(s) && Enabled(s, SubmitEnds(view, acknowledged))
    ensures ViewInv(Apply(s, SubmitEnds(view, acknowledged)), view)
  {
    assert ViewInv(s, view);
    EndSubmitKeeps(s.issued, view, Flow(s, view), TabOf(s, view), acknowledged);
    assert Flow(Apply(s, SubmitEnds(view, acknowledged)), view) == Flow(s, view);
  }

  lemma StepKeepsViews(s: System, step: Step)
    requires AllViews(s) && BrokerInv(s.broker, s.issued) && Enabled(s, step)
    ensures AllViews(Apply(s, step))
  {
    hide AllViews, ViewInv, Consistent, Flow, Within, Prune, Settle, Take, Finish, EndSubmit, Receive;
    var t := Apply(s, step);
    match step
    case Call(view, payload) => CallStep(s, view, payload);
    case GiveUp(id) => SettleStep(s, t, id);
    case Heartbeat(_, _, _, _, _) => HeartbeatStep(s, t);
    case PruneViews(now) =>
      assert Consistent(s.broker);
      PruneStep(s, t, now);
    case Reconnect(view) =>
      ReconnectShrinks(s, view);
      LinkStep(s, t, view);
    case ReadHead(view) =>
      ReadShrinks(s, view);
      LinkStep(s, t, view);
    case WriteHead(view) =>
      WriteShrinks(s, view);
      LinkStep(s, t, view);
    case Arrive(view) =>
      ArriveKeeps(s, view);
      TabStep(s, t, view);
    case StartHandling(view) =>
      StartKeeps(s, view);
      TabStep(s, t, view);
    case RunEnds(view, body) =>
      RunEndsKeeps(s, view, body);
      TabStep(s, t, view);
    case SendResult(view) => HeartbeatStep(s, t);
    case SubmitEnds(view, acknowledged) =>
      SubmitEndsKeeps(s, view, acknowledged);
      TabStep(s, t, view);
    case ResultReaches(post) =>
      if t != s { SettleStep(s, t, post.id); }
  }

  lemma StepKeepsBroker(s: System, step: Step)
    requires BrokerInv(s.broker, s.issued) && Enabled(s, step)
    ensures BrokerInv(Apply(s, step).broker, Apply(s, step).issued)
  {
    hide Consistent, WithoutCommand;
    match step
    case Call(view, payload) => EnqueueKeepsConsistent(s.broker, view, payload);
    case GiveUp(id) => SettleKeepsConsistent(s.broker, id);
    case Heartbeat(view, snapshot, active, sequence, now) =>
      PublishKeepsConsistent(s.broker, view, snapshot, active, sequence, now);
    case PruneViews(now) => PruneKeepsConsistent(s.broker, now);
    case ResultReaches(post) => SettleKeepsConsistent(s.broker, post.id);
    case _ =>
  }

  /** Only the end of a run adds an outcome. */
  lemma OtherStepsKeepOutcomes(s: System, step: Step, view: ViewId)
    requires Enabled(s, step) && (step.RunEnds? ==> step.view != view)
    ensures TabOf(Apply(s, step), view).outcomes == TabOf(s, view).outcomes
  {
    hide Prune, Settle, Enqueue, PublishView;
  }

  /** What a run produced is never replaced. */
  lemma OutcomesStay(s: System, step: Step, view: ViewId)
    requires AllViews(s) && Enabled(s, step)
    ensures forall id, body :: HasOutcome(s, view, id, body) ==> HasOutcome(Apply(s, step), view, id, body)
  {
    if step.RunEnds? && step.view == view {
      assert ViewInv(s, view);
      assert Answered(TabOf(s, view));
    } else {
      OtherStepsKeepOutcomes(s, step, view);
    }
  }

  lemma StepKeepsPosts(s: System, step: Step)
    requires Inv(s) && Enabled(s, step)
    ensures forall p :: p in Apply(s, step).posts ==> HasOutcome(Apply(s, step), p.view, p.id, p.body)
  {
    hide ViewInv, BrokerInv, HasOutcome, Prune, Settle, Receive, Take, Finish, EndSubmit;
    var t := Apply(s, step);
    forall p | p in t.posts
      ensures HasOutcome(t, p.view, p.id, p.body)
    {
      OutcomesStay(s, step, p.view);
      if p !in s.posts { SentIsOutcome(s, p.view); }
    }
  }

  lemma StepKeepsAnswers(s: System, step: Step)
    requires Inv(s) && Enabled(s, step)
    ensures AnswersInv(Apply(s, step))
    ensures forall id :: id in s.answers ==> id in Apply(s, step).answers && Apply(s, step).answers[id] == s.answers[id]
  {
    hide ViewInv, Consistent, Prune, Settle, Receive, Take, Finish, EndSubmit;
    var t := Apply(s, step);
    StepKeepsPosts(s, step);
    forall id | id in t.answers
      ensures id in t.issued && HasOutcome(t, t.issued[id], id, t.answers[id])
      ensures id in s.answers ==> s.answers[id] == t.answers[id]
    {
      OutcomesStay(s, step, s.issued[id]);
    }
  }

  lemma SentIsOutcome(s: System, view: ViewId)
    requires AllViews(s) && TabOf(s, view).phase.Submitting?
    ensures HasOutcome(s, view, TabOf(s, view).phase.id, TabOf(s, view).phase.body)
  {
    assert ViewInv(s, view);
    assert Answered(TabOf(s, view));
  }

  lemma StepKeepsInv(s: System, step: Step)
    requires Inv(s) && Enabled(s, step)
    ensures Inv(Apply(s, step))
  {
    hide BrokerInv, AnswersInv, ViewInv, Apply, Enabled;
    StepKeepsBroker(s, step);
    StepKeepsViews(s, step);
    StepKeepsAnswers(s, step);
  }

  // -------------------------------------------------------------------- whole runs

  ghost predicate Run(states: seq<System>, steps: seq<Step>) {
    && |states| == |steps| + 1
    && states[0] == Initial()
    && forall i :: 0 <= i < |steps| ==> Enabled(states[i], steps[i]) && states[i + 1] == Apply(states[i], steps[i])
  }

  lemma InitialIsInv()
    ensures Inv(Initial())
  {
  }

  lemma {:induction false} RunKeepsInv(states: seq<System>, steps: seq<Step>, n: nat)
    requires Run(states, steps) && n <= |steps|
    ensures Inv(states[n])
  {
    hide Inv, Apply, Enabled;
    if n == 0 {
      InitialIsInv();
    } else {
      RunKeepsInv(states, steps, n - 1);
      StepKeepsInv(states[n - 1], steps[n - 1]);
    }
  }

  /** A page runs every command at most once and in the order they were issued, and no
      command runs on two pages: identifiers count up as commands are issued. */
  lemma CommandsRunOnceInOrder(states: seq<System>, steps: seq<Step>, view: ViewId)
    requires Run(states, steps)
    ensures var s := states[|steps|];
            && (forall i, j :: 0 <= i < j < |TabOf(s, view).runs| ==> TabOf(s, view).runs[i] < TabOf(s, view).runs[j])
            && (forall id :: id in TabOf(s, view).runs ==> id in s.issued && s.issued[id] == view)
  {
    RunKeepsInv(states, steps, |steps|);
    assert ViewInv(states[|steps|], view);
  }

  /** The bounded filter forgets only commands that can no longer come again. */
  lemma FilterNeverForgets(states: seq<System>, steps: seq<Step>, view: ViewId, c: Command)
    requires Run(states, steps)
    requires c in Flow(states[|steps|], view) && c.id in TabOf(states[|steps|], view).runs
    ensures Remembers(TabOf(states[|steps|], view).deliveries, c.id)
    ensures |TabOf(states[|steps|], view).deliveries| <= MAX_TRACKED_COMMANDS
  {
    hide Apply, Enabled, Answered, IssuedHere;
    RunKeepsInv(states, steps, |steps|);
    assert ViewInv(states[|steps|], view);
    ResentIsRemembered(Flow(states[|steps|], view), TabOf(states[|steps|], view), c);
  }

  lemma ResentIsRemembered(flow: seq<Command>, t: Tab, c: Command)
    requires Following(flow, t.runs) && Remembering(t.deliveries, t.runs)
    requires c in flow && c.id in t.runs
    ensures Remembers(t.deliveries, c.id)
  {
    var k :| 0 <= k < |flow| && flow[k] == c;
    var i :| 0 <= i < |t.runs| && t.runs[i] == c.id;
    assert t.runs[|t.runs| - 1] <= flow[k].id;
    assert i == |t.runs| - 1;
    assert t.deliveries[|t.deliveries| - 1].id == c.id;
  }

  /** A caller that gets a result gets what the one run of its command gave, for good. */
  lemma AnswersComeFromTheRun(states: seq<System>, steps: seq<Step>, n: nat, id: nat)
    requires Run(states, steps) && n <= |steps| && id in states[n].answers
    ensures id in states[n].issued
    ensures id in TabOf(states[n], states[n].issued[id]).runs
    ensures HasOutcome(states[n], states[n].issued[id], id, states[n].answers[id])
    ensures n < |steps| ==> id in states[n + 1].answers && states[n + 1].answers[id] == states[n].answers[id]
  {
    RunKeepsInv(states, steps, n);
    assert ViewInv(states[n], states[n].issued[id]);
    assert Answered(TabOf(states[n], states[n].issued[id]));
    if n < |steps| { StepKeepsAnswers(states[n], steps[n]); }
  }
}
