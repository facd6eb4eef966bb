/**
  The broker between MCP clients and browser views: per-view command queues, the
  commands still awaiting a result, and the views kept alive by their heartbeats.
 */
module Broker {
  import opened FiniteSets
  import opened Options

  type ViewId = string
  type Snapshot = string

  /** Commands carry the number their identifier is formatted from. */
  datatype Command = Command(id: nat, payload: string)

  datatype View = View(snapshot: Snapshot, updated: int, active: bool, sequence: nat, commands: seq<Command>)

  datatype State = State(nextID: nat, views: map<ViewId, View>, pending: map<nat, ViewId>)

  datatype CallResult = NoActiveView | ViewBusy | Queued(view: ViewId, id: nat)

  datatype HeadResult = Gone | Empty | Head(command: Command)

  datatype PublishResult = TooManyViews | Outdated | Published

  const MAX_QUEUED_COMMANDS := 32
  const MAX_BROWSER_VIEWS := 8
  const VIEW_STALE_AFTER := 5

  // ------------------------------------------------------------- the transitions

  function Initial(): State { State(0, map[], map[]) }

  predicate Stale(v: View, now: int) { now - v.updated > VIEW_STALE_AFTER }

  predicate HasPending(pending: map<nat, ViewId>, view: ViewId) { exists id :: id in pending && pending[id] == view }

  predicate Prunable(s: State, view: ViewId, now: int)
    requires view in s.views
  {
    Stale(s.views[view], now) && !HasPending(s.pending, view)
  }

  /** Forgets the stale views that no caller is waiting on. */
  function Prune(s: State, now: int): State {
    s.(views := map view | view in s.views && !Prunable(s, view, now) :: s.views[view])
  }

  predicate Selectable(v: View, now: int) { !Stale(v, now) && v.snapshot != "" }

  /** A visible view beats a hidden one, and the fresher of two alike wins. */
  predicate Prefer(a: View, b: View) { (a.active && !b.active) || (a.active == b.active && a.updated > b.updated) }

  ghost predicate IsActiveView(s: State, view: ViewId, now: int) {
    && view in s.views && Selectable(s.views[view], now)
    && forall other :: other in s.views && Selectable(s.views[other], now) ==> !Prefer(s.views[other], s.views[view])
  }

  function Enqueue(s: State, view: ViewId, payload: string): State
    requires view in s.views
  {
    var id := s.nextID + 1;
    var v := s.views[view];
    State(id, s.views[view := v.(commands := v.commands + [Command(id, payload)])], s.pending[id := view])
  }

  /** A queue without the command of one identifier. */
  function WithoutCommand(commands: seq<Command>, id: nat): seq<Command> {
    if commands == [] then []
    else if commands[0].id == id then commands[1..]
    else [commands[0]] + WithoutCommand(commands[1..], id)
  }

  /** The command is no longer awaited: its caller was answered or gave up. */
  function Settle(s: State, id: nat): State {
    if id !in s.pending then s
    else
      var view := s.pending[id];
      var rest := s.(pending := s.pending - {id});
      if view !in s.views then rest
      else
        var v := s.views[view];
        rest.(views := s.views[view := v.(commands := WithoutCommand(v.commands, id))])
  }

  function PublishView(s: State, view: ViewId, snapshot: Snapshot, active: bool, sequence: nat, now: int): State {
    var commands := if view in s.views then s.views[view].commands else [];
    s.(views := s.views[view := View(snapshot, now, active, sequence, commands)])
  }

  // ------------------------------------------------------------------- invariant

  ghost predicate QueueInOrder(commands: seq<Command>, last: nat) {
    && (forall i, j :: 0 <= i < j < |commands| ==> commands[i].id < commands[j].id)
    && (forall i :: 0 <= i < |commands| ==> commands[i].id <= last)
  }

  /** One view's queue: its own pending commands, oldest first, within the bound. */
  ghost predicate QueueFits(commands: seq<Command>, view: ViewId, last: nat, pending: map<nat, ViewId>) {
    && QueueInOrder(commands, last)
    && |commands| <= MAX_QUEUED_COMMANDS
    && (forall c :: c in commands ==> c.id in pending && pending[c.id] == view)
  }

  ghost predicate Consistent(s: State) {
    && |s.views| <= MAX_BROWSER_VIEWS
    && (forall id :: id in s.pending ==> 0 < id <= s.nextID)
    && (forall view :: view in s.views ==> QueueFits(s.views[view].commands, view, s.nextID, s.pending))
  }

  /** Where the removed command stood, or the length of the queue. */
  lemma {:induction false} WithoutCommandAt(commands: seq<Command>, id: nat) returns (k: nat)
    ensures k <= |commands| && forall i :: 0 <= i < k ==> commands[i].id != id
    ensures k == |commands| ==> WithoutCommand(commands, id) == commands
    ensures k < |commands| ==> commands[k].id == id && WithoutCommand(commands, id) == commands[..k] + commands[k + 1..]
  {
    if commands == [] || commands[0].id == id {
      k := 0;
    } else {
      var tail := commands[1..];
      var at := WithoutCommandAt(tail, id);
      k := at + 1;
      assert commands == [commands[0]] + tail;
      if at < |tail| {
        assert commands[..k] + commands[k + 1..] == [commands[0]] + (tail[..at] + tail[at + 1..]);
      }
    }
  }

  lemma WithoutCommandKeeps(commands: seq<Command>, id: nat, last: nat)
    requires QueueInOrder(commands, last)
    ensures var rest := WithoutCommand(commands, id);
            && QueueInOrder(rest, last) && |rest| <= |commands|
            && (forall c :: c in rest ==> c in commands && c.id != id)
  {
    var k := WithoutCommandAt(commands, id);
    var rest := WithoutCommand(commands, id);
    forall i | 0 <= i < |rest|
      ensures rest[i] == commands[if i < k then i else i + 1]
    {
    }
  }

  /** No queue holds the command any more, and nothing else about the views is different. */
  ghost predicate OnlyTakenOut(before: map<ViewId, View>, after: map<ViewId, View>, id: nat) {
    && after.Keys == before.Keys
    && (forall view :: view in after ==> after[view] == before[view].(commands := after[view].commands))
    && (forall view, c :: view in after ==>
          (c in after[view].commands <==> c in before[view].commands && c.id != id))
  }

  /** Settling takes exactly that command out of the pending table and out of every queue. */
  lemma SettleTells(s: State, id: nat)
    requires Consistent(s)
    ensures var t := Settle(s, id);
            t.nextID == s.nextID && t.pending == s.pending - {id} && OnlyTakenOut(s.views, t.views, id)
  {
    var t := Settle(s, id);
    if id in s.pending && s.pending[id] in s.views {
      var view := s.pending[id];
      assert QueueFits(s.views[view].commands, view, s.nextID, s.pending);
      WithoutCommandKeeps(s.views[view].commands, id, s.nextID);
      OthersStay(s.views[view].commands, id);
    }
    forall view, c | view in s.views && view !in (if id in s.pending then {s.pending[id]} else {})
      ensures c in s.views[view].commands ==> c.id != id
    {
      assert QueueFits(s.views[view].commands, view, s.nextID, s.pending);
    }
  }

  lemma OthersStay(commands: seq<Command>, id: nat)
    ensures forall c :: c in commands && c.id != id ==> c in WithoutCommand(commands, id)
  {
    var k := WithoutCommandAt(commands, id);
    if k < |commands| {
      assert commands == commands[..k] + [commands[k]] + commands[k + 1..];
    }
  }

  lemma SettleKeepsConsistent(s: State, id: nat)
    requires Consistent(s)
    ensures Consistent(Settle(s, id))
  {
    hide QueueInOrder;
    if id in s.pending && s.pending[id] in s.views {
      var view := s.pending[id];
      assert QueueFits(s.views[view].commands, view, s.nextID, s.pending);
      WithoutCommandKeeps(s.views[view].commands, id, s.nextID);
      var t := Settle(s, id);
      assert t.views.Keys == s.views.Keys;
    }
  }

  lemma PruneKeepsConsistent(s: State, now: int)
    requires Consistent(s)
    ensures Consistent(Prune(s, now))
    ensures forall view :: view in s.views && s.views[view].commands != [] ==> view in Prune(s, now).views
  {
    hide QueueInOrder;
    var t := Prune(s, now);
    assert t.views.Keys <= s.views.Keys;
    SubsetSize(t.views.Keys, s.views.Keys);
    forall view | view in s.views && s.views[view].commands != []
      ensures view in t.views
    {
      assert QueueFits(s.views[view].commands, view, s.nextID, s.pending);
      var first := s.views[view].commands[0];
      assert first in s.views[view].commands && s.pending[first.id] == view;
    }
  }

  lemma EnqueueKeepsConsistent(s: State, view: ViewId, payload: string)
    requires Consistent(s) && view in s.views && |s.views[view].commands| < MAX_QUEUED_COMMANDS
    ensures Consistent(Enqueue(s, view, payload))
  {
    hide QueueFits;
    var t := Enqueue(s, view, payload);
    assert t.views.Keys == s.views.Keys;
    forall v | v in t.views
      ensures QueueFits(t.views[v].commands, v, t.nextID, t.pending)
    {
      assert QueueFits(s.views[v].commands, v, s.nextID, s.pending);
      QueueOutlives(s.views[v].commands, v, s.nextID, s.pending, view);
      if v == view { QueueExtends(s.views[v].commands, v, s.nextID, s.pending, payload); }
    }
  }

  lemma QueueOutlives(commands: seq<Command>, view: ViewId, last: nat, pending: map<nat, ViewId>, other: ViewId)
    requires QueueFits(commands, view, last, pending)
    ensures QueueFits(commands, view, last + 1, pending[last + 1 := other])
  {
    forall c | c in commands
      ensures c.id <= last
    {
      var i :| 0 <= i < |commands| && commands[i] == c;
    }
  }

  lemma QueueExtends(commands: seq<Command>, view: ViewId, last: nat, pending: map<nat, ViewId>, payload: string)
    requires QueueFits(commands, view, last, pending) && |commands| < MAX_QUEUED_COMMANDS
    requires QueueFits(commands, view, last + 1, pending[last + 1 := view])
    ensures QueueFits(commands + [Command(last + 1, payload)], view, last + 1, pending[last + 1 := view])
  {
  }

  lemma PublishKeepsConsistent(s: State, view: ViewId, snapshot: Snapshot, active: bool, sequence: nat, now: int)
    requires Consistent(s) && (view in s.views || |s.views| < MAX_BROWSER_VIEWS)
    ensures Consistent(PublishView(s, view, snapshot, active, sequence, now))
  {
    var t := PublishView(s, view, snapshot, active, sequence, now);
    assert t.views.Keys == s.views.Keys + {view};
    forall v | v in t.views
      ensures QueueFits(t.views[v].commands, v, t.nextID, t.pending)
    {
      if v in s.views { assert QueueFits(s.views[v].commands, v, s.nextID, s.pending); }
    }
  }

  // ------------------------------------------------------------------ the broker

  class Bridge {
    var nextID: nat
    var views: map<ViewId, View>
    var pending: map<nat, ViewId>

    constructor ()
      ensures Contents() == Initial() && Valid()
    {
      nextID, views, pending := 0, map[], map[];
    }

    function Contents(): State
      reads this
    {
      State(nextID, views, pending)
    }

    ghost predicate Valid()
      reads this
    {
      Consistent(Contents())
    }

    method ViewHasPendingLocked(view: ViewId) returns (found: bool)
      ensures found == HasPending(pending, view)
    {
      var rest := pending.Keys;
      while rest != {}
        invariant rest <= pending.Keys
        invariant forall id :: id in pending.Keys - rest ==> pending[id] != view
        decreases rest
      {
        var id :| id in rest;
        rest := rest - {id};
        if pending[id] == view {
          return true;
        }
      }
      found := false;
    }

    method PruneViewsLocked(now: int)
      requires Valid()
      modifies this`views
      ensures Valid() && Contents() == Prune(old(Contents()), now)
      ensures forall view :: view in views <==>
                view in old(views) && (now - old(views)[view].updated <= 5 || HasPending(pending, view))
      ensures forall view :: view in views ==> views[view] == old(views)[view]
    {
      hide Consistent, HasPending;
      PruneKeepsConsistent(Contents(), now);
      var rest := views.Keys;
      while rest != {}
        invariant rest <= views.Keys
        invariant forall view :: view in views ==> view in old(views) && views[view] == old(views)[view]
        invariant forall view :: view in old(views) && view !in views ==> Prunable(old(Contents()), view, now)
        invariant forall view :: view in views && view !in rest ==> !Prunable(old(Contents()), view, now)
        decreases rest
      {
        var view :| view in rest;
        rest := rest - {view};
        var waiting := ViewHasPendingLocked(view);
        if Stale(views[view], now) && !waiting {
          views := views - {view};
        }
      }
      assert views == Prune(old(Contents()), now).views;
    }

    /** The view commands go to: visible if any is, and the most recently published. */
    method ActiveViewLocked(now: int) returns (selected: Option<ViewId>)
      requires Valid()
      modifies this`views
      ensures Valid() && Contents() == Prune(old(Contents()), now)
      ensures selected.Some? ==> IsActiveView(Contents(), selected.value, now)
      ensures selected.None? ==> forall view :: view in views ==> !Selectable(views[view], now)
    {
      PruneViewsLocked(now);
      selected := None;
      var rest := views.Keys;
      while rest != {}
        invariant rest <= views.Keys
        invariant selected.Some? ==> selected.value in views && Selectable(views[selected.value], now)
        invariant forall view :: view in views && view !in rest && Selectable(views[view], now) ==>
          selected.Some? && !Prefer(views[view], views[selected.value])
        decreases rest
      {
        var view :| view in rest;
        rest := rest - {view};
        if Selectable(views[view], now) {
          if selected.None? || Prefer(views[view], views[selected.value]) {
            selected := Some(view);
          }
        }
      }
    }

    /** The first half of a call: the command joins the active view's queue. */
    method Call(payload: string, now: int) returns (r: CallResult)
      requires Valid()
      modifies this
      ensures Valid()
      ensures var pruned := Prune(old(Contents()), now);
              match r
              case NoActiveView =>
                Contents() == pruned && forall view :: view in pruned.views ==> !Selectable(pruned.views[view], now)
              case ViewBusy =>
                && Contents() == pruned
                && exists view ::
                  IsActiveView(pruned, view, now) && |pruned.views[view].commands| >= MAX_QUEUED_COMMANDS
              case Queued(view, id) =>
                && IsActiveView(pruned, view, now) && id == old(nextID) + 1
                && Contents() == Enqueue(pruned, view, payload)
                && views == pruned.views[view := views[view]]
                && views[view] == pruned.views[view].(commands := pruned.views[view].commands + [Command(id, payload)])
                && nextID == id && pending == old(pending)[id := view]
    {
      hide Consistent, Prune, Prefer, Selectable;
      var selected := ActiveViewLocked(now);
      if selected.None? {
        return NoActiveView;
      }
      var view := views[selected.value];
      if |view.commands| >= MAX_QUEUED_COMMANDS {
        return ViewBusy;
      }
      EnqueueKeepsConsistent(Contents(), selected.value, payload);
      nextID := nextID + 1;
      pending := pending[nextID := selected.value];
      views := views[selected.value := view.(commands := view.commands + [Command(nextID, payload)])];
      return Queued(selected.value, nextID);
    }

    /** Takes one command out of a view's queue. */
    method DropCommand(view: ViewId, id: nat)
      requires view in views
      modifies this`views
      ensures views == old(views)[view := old(views)[view].(commands := WithoutCommand(old(views)[view].commands, id))]
    {
      var commands := views[view].commands;
      for i := 0 to |commands|
        invariant views == old(views)
        invariant WithoutCommand(commands, id) == commands[..i] + WithoutCommand(commands[i..], id)
      {
        if commands[i].id == id {
          views := views[view := views[view].(commands := commands[..i] + commands[i + 1..])];
          return;
        }
      }
      assert WithoutCommand(commands, id) == commands;
      assert views[view].(commands := commands) == views[view];
    }

    /** A caller gave up: its command leaves the queue so it cannot block the next one. */
    method RemovePending(id: nat)
      requires Valid()
      modifies this`views, this`pending
      ensures Valid() && Contents() == Settle(old(Contents()), id)
      ensures pending == old(pending) - {id} && OnlyTakenOut(old(views), views, id)
    {
      SettleTells(Contents(), id);
      SettleKeepsConsistent(Contents(), id);
      hide OnlyTakenOut, Consistent, WithoutCommand;
      if id in pending {
        var view := pending[id];
        pending := pending - {id};
        if view in views {
          DropCommand(view, id);
        }
      }
    }

    /** A page answered. Only a command still pending for that very view is resolved. */
    method HandleResult(view: ViewId, id: nat) returns (accepted: bool)
      requires Valid()
      modifies this`views, this`pending
      ensures Valid()
      ensures accepted <==> id in old(pending) && old(pending)[id] == view
      ensures Contents() == if accepted then Settle(old(Contents()), id) else old(Contents())
      ensures accepted ==> pending == old(pending) - {id} && OnlyTakenOut(old(views), views, id)
    {
      SettleTells(Contents(), id);
      hide OnlyTakenOut, Consistent, WithoutCommand;
      if id !in pending || pending[id] != view {
        return false;
      }
      SettleKeepsConsistent(Contents(), id);
      pending := pending - {id};
      if view in views {
        DropCommand(view, id);
      }
      accepted := true;
    }

    /** The oldest unacknowledged command of a view. */
    method HeadCommand(view: ViewId) returns (r: HeadResult)
      requires Valid()
      ensures r.Gone? <==> view !in views
      ensures r.Empty? <==> view in views && views[view].commands == []
      ensures r.Head? ==>
        && views[view].commands != [] && r.command == views[view].commands[0]
        && r.command in views[view].commands
        && forall c :: c in views[view].commands ==> r.command.id <= c.id
    {
      if view !in views {
        return Gone;
      }
      return if |views[view].commands| == 0 then Empty else Head(views[view].commands[0]);
    }

    /** A page's heartbeat; a reordered older one changes nothing. */
    method HandleView(view: ViewId, snapshot: Snapshot, active: bool, sequence: nat, now: int)
      returns (r: PublishResult)
      requires Valid()
      modifies this`views
      ensures Valid()
      ensures var pruned := Prune(old(Contents()), now);
              match r
              case TooManyViews =>
                Contents() == pruned && view !in pruned.views && |pruned.views| >= MAX_BROWSER_VIEWS
              case Outdated =>
                Contents() == pruned && view in pruned.views && sequence <= pruned.views[view].sequence
              case Published =>
                && Contents() == PublishView(pruned, view, snapshot, active, sequence, now)
                && views == pruned.views[view := views[view]] && pending == old(pending) && nextID == old(nextID)
                && views[view].snapshot == snapshot && views[view].updated == now && views[view].active == active
                && views[view].sequence == sequence
                && views[view].commands == (if view in pruned.views then pruned.views[view].commands else [])
                && (view in pruned.views ==> sequence > pruned.views[view].sequence)
    {
      PruneViewsLocked(now);
      if view !in views {
        if |views| >= MAX_BROWSER_VIEWS {
          return TooManyViews;
        }
      } else if sequence <= views[view].sequence {
        return Outdated;
      }
      PublishKeepsConsistent(Contents(), view, snapshot, active, sequence, now);
      var commands := if view in views then views[view].commands else [];
      views := views[view := View(snapshot, now, active, sequence, commands)];
      return Published;
    }
  }
}
