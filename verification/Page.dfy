/**
  The browser side of the command channel: one page that handles the commands of its
  event stream one at a time and remembers the last ones it was given.
 */
module Page {
  import opened Options
  import opened Broker

  type Result = string

  /** A remembered command: its answer once it has run, and whether that was accepted. */
  datatype Delivery = Delivery(id: nat, body: Option<Result>, done: bool)

  datatype Phase = Idle | Running(id: nat) | Submitting(id: nat, body: Result)

  /** `runs` lists every command the page has executed, `outcomes` what they gave. */
  datatype Tab = Tab(
    inbox: seq<Command>,
    deliveries: seq<Delivery>,
    phase: Phase,
    runs: seq<nat>,
    outcomes: map<nat, Result>)

  const MAX_TRACKED_COMMANDS := 128

  function NewTab(): Tab { Tab([], [], Idle, [], map[]) }

  /** The position of a remembered command, or the number of them. */
  function Find(deliveries: seq<Delivery>, id: nat): (i: nat)
    ensures i <= |deliveries|
    ensures i < |deliveries| ==> deliveries[i].id == id
    ensures i == |deliveries| ==> forall k :: 0 <= k < |deliveries| ==> deliveries[k].id != id
  {
    if deliveries == [] then 0
    else if deliveries[0].id == id then 0
    else
      assert forall k :: 0 < k < |deliveries| ==> deliveries[k] == deliveries[1..][k - 1];
      1 + Find(deliveries[1..], id)
  }

  /** The first remembered delivery of an identifier. */
  predicate FirstAt(deliveries: seq<Delivery>, id: nat, k: int) {
    0 <= k < |deliveries| && deliveries[k].id == id && forall j :: 0 <= j < k ==> deliveries[j].id != id
  }

  lemma {:induction false} FindIsFirst(deliveries: seq<Delivery>, id: nat)
    ensures forall k :: FirstAt(deliveries, id, k) ==> Find(deliveries, id) == k
    ensures Find(deliveries, id) < |deliveries| ==> FirstAt(deliveries, id, Find(deliveries, id))
  {
    if deliveries != [] && deliveries[0].id != id {
      FindIsFirst(deliveries[1..], id);
      forall k | FirstAt(deliveries, id, k)
        ensures Find(deliveries, id) == k
      {
        assert FirstAt(deliveries[1..], id, k - 1);
      }
      var i := Find(deliveries, id);
      assert forall j :: 0 < j < i ==> deliveries[j] == deliveries[1..][j - 1];
    }
  }

  predicate Remembers(deliveries: seq<Delivery>, id: nat) { Find(deliveries, id) < |deliveries| }

  /** Remembers one more command, forgetting the oldest beyond the bound. */
  function Remember(deliveries: seq<Delivery>, id: nat): seq<Delivery> {
    var more := deliveries + [Delivery(id, None, false)];
    if |more| > MAX_TRACKED_COMMANDS then more[1..] else more
  }

  function Receive(t: Tab, c: Command): Tab { t.(inbox := t.inbox + [c]) }

  /** Starts on the next queued command: a known one is answered again, never run again. */
  function Take(t: Tab): Tab
    requires t.phase.Idle? && t.inbox != []
  {
    var id := t.inbox[0].id;
    var rest := t.(inbox := t.inbox[1..]);
    var i := Find(t.deliveries, id);
    if i < |t.deliveries| then
      var known := t.deliveries[i];
      if !known.done && known.body.Some? then rest.(phase := Submitting(id, known.body.value)) else rest
    else
      rest.(deliveries := Remember(t.deliveries, id), phase := Running(id), runs := t.runs + [id])
  }

  function SetBody(deliveries: seq<Delivery>, id: nat, body: Result): seq<Delivery> {
    var i := Find(deliveries, id);
    if i < |deliveries| then deliveries[i := deliveries[i].(body := Some(body))] else deliveries
  }

  function SetDone(deliveries: seq<Delivery>, id: nat): seq<Delivery> {
    var i := Find(deliveries, id);
    if i < |deliveries| then deliveries[i := deliveries[i].(done := true)] else deliveries
  }

  /** The command has run and produced its answer. */
  function Finish(t: Tab, body: Result): Tab
    requires t.phase.Running?
  {
    t.(deliveries := SetBody(t.deliveries, t.phase.id, body),
       phase := Submitting(t.phase.id, body),
       outcomes := t.outcomes[t.phase.id := body])
  }

  /** Submitting ended: acknowledged, or given up until the command comes again. */
  function EndSubmit(t: Tab, acknowledged: bool): Tab
    requires t.phase.Submitting?
  {
    t.(deliveries := if acknowledged then SetDone(t.deliveries, t.phase.id) else t.deliveries, phase := Idle)
  }

  /** The page itself: an insertion-ordered map of deliveries and a queue of work. */
  class BrowserPage {
    var inbox: seq<Command>
    var deliveries: seq<Delivery>
    var phase: Phase
    ghost var runs: seq<nat>
    ghost var outcomes: map<nat, Result>

    constructor ()
      ensures Contents() == NewTab()
    {
      inbox, deliveries, phase := [], [], Idle;
      runs, outcomes := [], map[];
    }

    ghost function Contents(): Tab
      reads this
    {
      Tab(inbox, deliveries, phase, runs, outcomes)
    }

    method OnMessage(c: Command)
      modifies this`inbox
      ensures Contents() == Receive(old(Contents()), c) && inbox == old(inbox) + [c]
    {
      inbox := inbox + [c];
    }

    /** Looks a command up in the redelivery guard. */
    method Lookup(id: nat) returns (i: nat)
      ensures i == Find(deliveries, id)
      ensures if i < |deliveries| then FirstAt(deliveries, id, i)
              else forall k :: 0 <= k < |deliveries| ==> deliveries[k].id != id
    {
      FindIsFirst(deliveries, id);
      i := 0;
      while i < |deliveries| && deliveries[i].id != id
        invariant i <= |deliveries|
        invariant Find(deliveries, id) == i + Find(deliveries[i..], id)
      {
        i := i + 1;
      }
    }

    /** Takes the next message. A command with a stored answer that nobody acknowledged is
        submitted again; one that is answered for good is dropped; a new one is remembered,
        the oldest forgotten beyond the bound, and run. */
    method Handle()
      requires phase.Idle? && inbox != []
      modifies this
      ensures Contents() == Take(old(Contents()))
      ensures inbox == old(inbox)[1..] && outcomes == old(outcomes)
      ensures var id := old(inbox)[0].id;
              forall k :: FirstAt(old(deliveries), id, k) ==>
                && deliveries == old(deliveries) && runs == old(runs)
                && phase == if !deliveries[k].done && deliveries[k].body.Some?
                            then Submitting(id, deliveries[k].body.value) else Idle
      ensures var id := old(inbox)[0].id;
              (forall k :: 0 <= k < |old(deliveries)| ==> old(deliveries)[k].id != id) ==>
                && phase == Running(id) && runs == old(runs) + [id]
                && 0 < |deliveries| && deliveries[|deliveries| - 1] == Delivery(id, None, false)
                && deliveries[..|deliveries| - 1] ==
                     if |old(deliveries)| < MAX_TRACKED_COMMANDS then old(deliveries) else old(deliveries)[1..]
    {
      FindIsFirst(deliveries, inbox[0].id);
      var c := inbox[0];
      inbox := inbox[1..];
      var i := Lookup(c.id);
      if i < |deliveries| {
        if !deliveries[i].done && deliveries[i].body.Some? {
          phase := Submitting(c.id, deliveries[i].body.value);
        }
        return;
      }
      deliveries := deliveries + [Delivery(c.id, None, false)];
      if |deliveries| > MAX_TRACKED_COMMANDS {
        deliveries := deliveries[1..];
      }
      phase := Running(c.id);
      runs := runs + [c.id];
    }

    method CommandDone(body: Result)
      requires phase.Running?
      modifies this
      ensures Contents() == Finish(old(Contents()), body)
      ensures phase == Submitting(old(phase).id, body) && outcomes == old(outcomes)[old(phase).id := body]
      ensures inbox == old(inbox) && runs == old(runs) && |deliveries| == |old(deliveries)|
      ensures forall k :: 0 <= k < |deliveries| ==>
                deliveries[k] == if FirstAt(old(deliveries), old(phase).id, k)
                                 then old(deliveries)[k].(body := Some(body)) else old(deliveries)[k]
    {
      FindIsFirst(deliveries, phase.id);
      var i := Lookup(phase.id);
      if i < |deliveries| {
        deliveries := deliveries[i := deliveries[i].(body := Some(body))];
      }
      outcomes := outcomes[phase.id := body];
      phase := Submitting(phase.id, body);
    }

    method SubmitDone(acknowledged: bool)
      requires phase.Submitting?
      modifies this
      ensures Contents() == EndSubmit(old(Contents()), acknowledged)
      ensures phase.Idle? && inbox == old(inbox) && runs == old(runs) && outcomes == old(outcomes)
      ensures |deliveries| == |old(deliveries)|
      ensures forall k :: 0 <= k < |deliveries| ==>
                deliveries[k] == if acknowledged && FirstAt(old(deliveries), old(phase).id, k)
                                 then old(deliveries)[k].(done := true) else old(deliveries)[k]
    {
      FindIsFirst(deliveries, phase.id);
      if acknowledged {
        var i := Lookup(phase.id);
        if i < |deliveries| {
          deliveries := deliveries[i := deliveries[i].(done := true)];
        }
      }
      phase := Idle;
    }
  }
}
