/**
  What becomes of a command that comes again, and of the answer to it: theorems over every
  run of the command channel.
 */
module Redelivery {
  import opened Broker
  import opened CommandChannel
  import opened Options
  import opened Page

  /** Step `m` is a submission of this command's answer that the broker acknowledged. */
  predicate Acks(s: System, step: Step, view: ViewId, id: nat) {
    step == SubmitEnds(view, true) && TabOf(s, view).phase.Submitting? && TabOf(s, view).phase.id == id
  }

  ghost predicate AckedBefore(states: seq<System>, steps: seq<Step>, n: nat, view: ViewId, id: nat) {
    exists m :: 0 <= m < n && m < |steps| && m < |states| && Acks(states[m], steps[m], view, id)
  }

  predicate Remembered(deliveries: seq<Delivery>, id: nat) {
    exists i :: 0 <= i < |deliveries| && deliveries[i].id == id
  }

  predicate Marked(deliveries: seq<Delivery>, id: nat) {
    exists i :: 0 <= i < |deliveries| && deliveries[i].id == id && deliveries[i].done
  }

  // -------------------------------------------------------------- what happens to a page

  /** A step leaves a page alone, or is the page's own. */
  lemma PageStep(s: System, step: Step, view: ViewId)
    requires Enabled(s, step)
    ensures var t, u := TabOf(s, view), TabOf(Apply(s, step), view);
            if step == StartHandling(view) then u == Take(t)
            else if step.RunEnds? && step.view == view then u == Finish(t, step.body)
            else if step.SubmitEnds? && step.view == view then u == EndSubmit(t, step.acknowledged)
            else u == t.(inbox := u.inbox)
  {
    hide Prune, Settle, Enqueue, PublishView, Take, Finish, EndSubmit;
  }

  lemma TakeMarks(issued: map<nat, ViewId>, view: ViewId, flow: seq<Command>, t: Tab, id: nat)
    requires TabInv(issued, view, flow, t) && t.inbox != [] && t.phase.Idle? && t.inbox <= flow
    ensures var u := Take(t);
            && t.runs <= u.runs
            && (id in t.runs && Remembered(u.deliveries, id) ==>
                  Remembered(t.deliveries, id) && (Marked(u.deliveries, id) <==> Marked(t.deliveries, id)))
            && (id in u.runs && id !in t.runs ==> !Marked(u.deliveries, id))
  {
    var u, c := Take(t), t.inbox[0];
    if !Remembers(t.deliveries, c.id) {
      assert flow[0] == c;
      UnknownHeadIsNew(t, flow);
      RememberTells(t.deliveries, c.id, id);
      RememberTells(t.deliveries, c.id, c.id);
      assert forall i :: 0 <= i < |t.deliveries| ==> t.deliveries[i].id in t.runs;
    }
  }

  /** Remembering one more command moves no other command's mark. */
  lemma RememberTells(deliveries: seq<Delivery>, added: nat, id: nat)
    requires forall i, j :: 0 <= i < j < |deliveries| ==> deliveries[i].id < deliveries[j].id
    requires forall i :: 0 <= i < |deliveries| ==> deliveries[i].id != added
    ensures var more := Remember(deliveries, added);
            && (id != added && Remembered(more, id) ==>
                  Remembered(deliveries, id) && (Marked(more, id) <==> Marked(deliveries, id)))
            && !Marked(more, added)
  {
    var more := Remember(deliveries, added);
    var drop := |deliveries| + 1 - |more|;
    assert forall i :: 0 <= i < |more| - 1 ==> more[i] == deliveries[i + drop];
    if id != added && Remembered(more, id) {
      var i :| 0 <= i < |more| && more[i].id == id;
      assert deliveries[i + drop].id == id;
    }
  }

  lemma SubmitMarks(t: Tab, acknowledged: bool, id: nat)
    requires t.phase.Submitting?
    requires forall i, j :: 0 <= i < j < |t.deliveries| ==> t.deliveries[i].id < t.deliveries[j].id
    ensures var u := EndSubmit(t, acknowledged);
            Remembered(u.deliveries, id) ==>
              && Remembered(t.deliveries, id)
              && (Marked(u.deliveries, id) <==> Marked(t.deliveries, id) || (acknowledged && t.phase.id == id))
  {
    var u := EndSubmit(t, acknowledged);
    assert forall i :: 0 <= i < |u.deliveries| ==> u.deliveries[i].id == t.deliveries[i].id;
    if Remembered(u.deliveries, id) {
      var i :| 0 <= i < |u.deliveries| && u.deliveries[i].id == id;
      assert t.deliveries[i].id == id;
      FindIsFirst(t.deliveries, t.phase.id);
      if t.phase.id == id { assert FirstAt(t.deliveries, id, i); }
    }
  }

  lemma FinishMarks(t: Tab, body: Result, id: nat)
    requires t.phase.Running?
    ensures var u := Finish(t, body);
            && (Remembered(u.deliveries, id) ==> Remembered(t.deliveries, id))
            && (Marked(u.deliveries, id) <==> Marked(t.deliveries, id))
  {
    var u := Finish(t, body);
    assert |u.deliveries| == |t.deliveries|;
    assert forall i :: 0 <= i < |u.deliveries| ==>
      u.deliveries[i].id == t.deliveries[i].id && u.deliveries[i].done == t.deliveries[i].done;
  }

  lemma MarkStep(s: System, step: Step, view: ViewId, id: nat)
    requires ViewInv(s, view) && Enabled(s, step)
    ensures var t, u := TabOf(s, view), TabOf(Apply(s, step), view);
            && t.runs <= u.runs
            && (id in t.runs && Remembered(u.deliveries, id) ==>
                  && Remembered(t.deliveries, id)
                  && (Marked(u.deliveries, id) <==> Marked(t.deliveries, id) || Acks(s, step, view, id)))
            && (id in u.runs && id !in t.runs ==> !Marked(u.deliveries, id) && step == StartHandling(view))
  {
    PageStep(s, step, view);
    var t := TabOf(s, view);
    if step == StartHandling(view) {
      TakeMarks(s.issued, view, Flow(s, view), t, id);
    } else if step.RunEnds? && step.view == view {
      FinishMarks(t, step.body, id);
    } else if step.SubmitEnds? && step.view == view {
      SubmitMarks(t, step.acknowledged, id);
    }
    hide Apply, Take, Finish, EndSubmit, Marked, Remembered;
  }

  lemma {:induction false} RunsGrow(states: seq<System>, steps: seq<Step>, m: nat, n: nat, view: ViewId)
    requires Run(states, steps) && m <= n <= |steps|
    ensures TabOf(states[m], view).runs <= TabOf(states[n], view).runs
    decreases n
  {
    if m < n {
      hide Apply, Enabled, TabInv, BrokerInv, AnswersInv, TabOf, Flow, Marked, Remembered, Acks;
      RunsGrow(states, steps, m, n - 1, view);
      RunKeepsInv(states, steps, n - 1);
      assert ViewInv(states[n - 1], view);
      MarkStep(states[n - 1], steps[n - 1], view, 0);
    }
  }

  lemma AckedHasRun(states: seq<System>, steps: seq<Step>, m: nat, view: ViewId, id: nat)
    requires Run(states, steps) && m < |steps| && Acks(states[m], steps[m], view, id)
    ensures id in TabOf(states[m], view).runs
  {
    RunKeepsInv(states, steps, m);
    hide Apply, Enabled, BrokerInv, AnswersInv;
    assert ViewInv(states[m], view);
    assert Answered(TabOf(states[m], view));
  }

  /** A remembered command is marked as answered for good exactly if some submission of its
      answer was acknowledged. */
  lemma {:induction false} MarkedIffAcked(states: seq<System>, steps: seq<Step>, n: nat, view: ViewId, id: nat)
    requires Run(states, steps) && n <= |steps|
    requires id in TabOf(states[n], view).runs && Remembered(TabOf(states[n], view).deliveries, id)
    ensures Marked(TabOf(states[n], view).deliveries, id) <==> AckedBefore(states, steps, n, view, id)
  {
    if n > 0 {
      var s, step := states[n - 1], steps[n - 1];
      RunKeepsInv(states, steps, n - 1);
      hide Apply, Enabled, TabInv, BrokerInv, AnswersInv, Marked, Remembered;
      assert ViewInv(s, view);
      MarkStep(s, step, view, id);
      if id in TabOf(s, view).runs {
        MarkedIffAcked(states, steps, n - 1, view, id);
      } else {
        forall m | 0 <= m < n
          ensures !Acks(states[m], steps[m], view, id)
        {
          if Acks(states[m], steps[m], view, id) {
            AckedHasRun(states, steps, m, view, id);
            RunsGrow(states, steps, m, n - 1, view);
          }
        }
      }
    }
  }

  // -------------------------------------------------------------------------- theorems

  /** A command that comes again after it has run is never run again. If no submission of
      its answer was acknowledged, exactly the outcome of its one run is submitted again;
      if one was, the page just goes on. */
  lemma RedeliveryIsAnswered(states: seq<System>, steps: seq<Step>, n: nat, view: ViewId)
    requires Run(states, steps) && n < |steps| && steps[n] == StartHandling(view)
    requires TabOf(states[n], view).inbox[0].id in TabOf(states[n], view).runs
    ensures var t, u := TabOf(states[n], view), TabOf(states[n + 1], view);
            var id := t.inbox[0].id;
            && u.runs == t.runs && u.outcomes == t.outcomes && id in t.outcomes
            && u.phase == if AckedBefore(states, steps, n, view, id) then Idle else Submitting(id, t.outcomes[id])
  {
    RunKeepsInv(states, steps, n);
    hide Apply, Enabled, BrokerInv, AnswersInv, Marked;
    var t := TabOf(states[n], view);
    var id := t.inbox[0].id;
    assert ViewInv(states[n], view);
    assert t.inbox[0] == Flow(states[n], view)[0];
    ResentIsRemembered(Flow(states[n], view), t, t.inbox[0]);
    var i := Find(t.deliveries, id);
    assert Remembered(t.deliveries, id) by { assert t.deliveries[i].id == id; }
    MarkedIffAcked(states, steps, n, view, id);
    MarkedAt(t.deliveries, id, i);
    PageStep(states[n], steps[n], view);
  }

  lemma MarkedAt(deliveries: seq<Delivery>, id: nat, i: nat)
    requires i < |deliveries| && deliveries[i].id == id
    requires forall j, k :: 0 <= j < k < |deliveries| ==> deliveries[j].id < deliveries[k].id
    ensures Marked(deliveries, id) <==> deliveries[i].done
  {
  }

  // ------------------------------------------------------------------ what was asked for

  /** Step `i` was the call that issued this very command to this view. */
  predicate IssuedAt(s: System, step: Step, view: ViewId, c: Command) {
    step == Call(view, c.payload) && c.id == s.broker.nextID + 1
  }

  ghost predicate IssuedBefore(states: seq<System>, steps: seq<Step>, n: nat, view: ViewId, c: Command) {
    exists i :: 0 <= i < n && i < |steps| && i < |states| && IssuedAt(states[i], steps[i], view, c)
  }

  lemma SettledQueue(broker: State, id: nat, view: ViewId, c: Command)
    requires view in Settle(broker, id).views && c in Settle(broker, id).views[view].commands
    ensures view in broker.views && c in broker.views[view].commands
  {
    if id in broker.pending && broker.pending[id] == view {
      var k := WithoutCommandAt(broker.views[view].commands, id);
    }
  }

  lemma FlowMember(s: System, view: ViewId, c: Command)
    ensures c in Flow(s, view) <==>
              || c in TabOf(s, view).inbox || c in LinkOf(s, view).wire
              || LinkOf(s, view).held == Some(c) || c in QueueOf(s, view)
  {
  }

  lemma QueueStep(s: System, step: Step, view: ViewId, c: Command)
    requires Enabled(s, step) && c in QueueOf(Apply(s, step), view)
    ensures c in QueueOf(s, view) || IssuedAt(s, step, view, c)
  {
    hide Settle, Take, Finish, EndSubmit, Receive, TabOf;
    match step
    case GiveUp(id) => SettledQueue(s.broker, id, view, c);
    case ResultReaches(post) => if Apply(s, step) != s { SettledQueue(s.broker, post.id, view, c); }
    case _ =>
  }

  /** What the stream holds and the page has taken in comes from nearer the queue. */
  lemma StreamStep(s: System, step: Step, view: ViewId, c: Command)
    requires Enabled(s, step)
    requires var t := Apply(s, step);
             c in TabOf(t, view).inbox || c in LinkOf(t, view).wire || LinkOf(t, view).held == Some(c)
    ensures c in TabOf(s, view).inbox || c in LinkOf(s, view).wire || LinkOf(s, view).held == Some(c)
            || c in QueueOf(s, view)
  {
    hide Settle, Prune, Enqueue, PublishView, Find, Remember, SetBody, SetDone;
  }

  /** Whatever is on its way was so before, or was issued just now. */
  lemma FlowStep(s: System, step: Step, view: ViewId, c: Command)
    requires Enabled(s, step) && c in Flow(Apply(s, step), view)
    ensures c in Flow(s, view) || IssuedAt(s, step, view, c)
  {
    FlowMember(s, view, c);
    FlowMember(Apply(s, step), view, c);
    hide *;
    if c in QueueOf(Apply(s, step), view) {
      QueueStep(s, step, view, c);
    } else {
      StreamStep(s, step, view, c);
    }
  }

  /** Every command on its way to a page is, text and number, one that a caller issued to
      that very view. */
  lemma {:induction false} ArrivesAsIssued(states: seq<System>, steps: seq<Step>, n: nat, view: ViewId, c: Command)
    requires Run(states, steps) && n <= |steps| && c in Flow(states[n], view)
    ensures IssuedBefore(states, steps, n, view, c)
  {
    hide Apply, Enabled;
    if n == 0 {
      hide Flow;
      FlowMember(states[0], view, c);
    } else {
      hide Flow;
      FlowStep(states[n - 1], steps[n - 1], view, c);
      if c in Flow(states[n - 1], view) {
        ArrivesAsIssued(states, steps, n - 1, view, c);
      }
    }
  }

  /** What a page starts to run is the head of its inbox, as it was issued. */
  lemma RunsWhatWasIssued(states: seq<System>, steps: seq<Step>, n: nat, view: ViewId)
    requires Run(states, steps) && n < |steps| && steps[n] == StartHandling(view)
    ensures var t, u := TabOf(states[n], view), TabOf(states[n + 1], view);
            && IssuedBefore(states, steps, n, view, t.inbox[0]) && u.inbox == t.inbox[1..]
            && (t.inbox[0].id !in t.runs ==> u.phase == Running(t.inbox[0].id) && u.runs == t.runs + [t.inbox[0].id])
  {
    var t := TabOf(states[n], view);
    RunKeepsInv(states, steps, n);
    hide Apply, Enabled, BrokerInv, AnswersInv;
    PageStep(states[n], steps[n], view);
    assert ViewInv(states[n], view);
    FlowMember(states[n], view, t.inbox[0]);
    ArrivesAsIssued(states, steps, n, view, t.inbox[0]);
  }

  /** A result that reaches the broker while its caller waits is that caller's answer, is
      the outcome of the command's one run, and ends the wait; any other changes nothing. */
  lemma ResultAnswers(states: seq<System>, steps: seq<Step>, n: nat, post: Post)
    requires Run(states, steps) && n < |steps| && steps[n] == ResultReaches(post)
    ensures var s, t := states[n], states[n + 1];
            if post.id in s.broker.pending && s.broker.pending[post.id] == post.view then
              && post.id in t.answers && t.answers[post.id] == post.body && HasOutcome(s, post.view, post.id, post.body)
              && t.broker.pending == s.broker.pending - {post.id}
              && OnlyTakenOut(s.broker.views, t.broker.views, post.id)
            else t == s
  {
    RunKeepsInv(states, steps, n);
    var s, t := states[n], states[n + 1];
    hide Settle, TabInv, AnswersInv;
    SettleTells(s.broker, post.id);
    assert HasOutcome(s, post.view, post.id, post.body) by { assert AnswersInv(s); }
  }
}
