/**
  The switch between using the network and serving only what is stored, and the network
  contexts it hands out and drains.
 */
module OfflineMode {
  import opened Options
  import opened FiniteSets

  datatype Mode = Auto | CacheOnly

  /** A context belongs to the generation that was current when it was issued. */
  datatype Context = Context(generation: nat, released: bool)

  /** `waiting` are the calls switching to cache-only that wait for the network to drain,
      each with the number of contexts issued before it. */
  datatype State = State(
    configured: Mode, current: Mode, generation: Option<nat>, generations: nat, cancelled: set<nat>,
    active: int, issued: seq<Context>, waiting: map<nat, nat>)

  datatype Step =
    | SwitchToAuto
    | SwitchToCacheOnly(caller: nat)   // up to its first wait
    | Drained(caller: nat)             // the rest of that call, once nothing is active
    | Issue
    | Release(context: nat)

  function Initial(mode: Mode): State {
    if mode == Auto then State(mode, mode, Some(0), 1, {}, 0, [], map[])
    else State(mode, mode, None, 0, {}, 0, [], map[])
  }

  predicate Enabled(s: State, step: Step) {
    match step
    case SwitchToAuto => s.configured == Auto && s.current == CacheOnly
    case SwitchToCacheOnly(caller) => s.current == Auto && caller !in s.waiting
    case Drained(caller) => caller in s.waiting && s.active == 0
    case Issue => s.current == Auto && s.generation.Some?
    case Release(context) => context < |s.issued|
  }

  function Apply(s: State, step: Step): State
    requires Enabled(s, step)
  {
    match step
    case SwitchToAuto => s.(current := Auto, generation := Some(s.generations), generations := s.generations + 1)
    case SwitchToCacheOnly(caller) =>
      s.(current := CacheOnly,
         cancelled := if s.generation.Some? then s.cancelled + {s.generation.value} else s.cancelled,
         waiting := s.waiting[caller := |s.issued|])
    case Drained(caller) => s.(generation := None, waiting := s.waiting - {caller})
    case Issue => s.(issued := s.issued + [Context(s.generation.value, false)], active := s.active + 1)
    case Release(context) =>
      if s.issued[context].released then s
      else s.(issued := s.issued[context := s.issued[context].(released := true)], active := s.active - 1)
  }

  function Live(issued: seq<Context>): set<nat> { set c | 0 <= c < |issued| && !issued[c].released }

  ghost predicate Inv(s: State) {
    && s.active == |Live(s.issued)|
    && (s.generation.Some? ==> s.generation.value < s.generations)
    && (s.configured == CacheOnly ==> s.current == CacheOnly)
    && (forall c :: c in Live(s.issued) ==>
          s.issued[c].generation in s.cancelled || (s.current == Auto && s.generation == Some(s.issued[c].generation)))
    && (forall caller :: caller in s.waiting ==> s.waiting[caller] <= |s.issued|)
    && (forall g :: g in s.cancelled ==> g < s.generations)
    && (s.current == Auto && s.generation.Some? ==> s.generation.value !in s.cancelled)
  }

  lemma IssueGrowsLive(issued: seq<Context>, c: Context)
    requires !c.released
    ensures Live(issued + [c]) == Live(issued) + {|issued|} && |Live(issued + [c])| == |Live(issued)| + 1
  {
  }

  lemma ReleaseShrinksLive(issued: seq<Context>, c: nat)
    requires c < |issued| && !issued[c].released
    ensures Live(issued[c := issued[c].(released := true)]) == Live(issued) - {c}
    ensures |Live(issued)| == |Live(issued) - {c}| + 1
  {
  }

  lemma StepKeepsInv(s: State, step: Step)
    requires Inv(s) && Enabled(s, step)
    ensures Inv(Apply(s, step))
  {
    match step
    case Issue => IssueGrowsLive(s.issued, Context(s.generation.value, false));
    case Release(c) => if !s.issued[c].released { ReleaseShrinksLive(s.issued, c); }
    case Drained(_) => assert Live(s.issued) == {};
    case _ =>
  }

  ghost predicate Run(states: seq<State>, steps: seq<Step>) {
    && |states| == |steps| + 1
    && states[0] == Initial(states[0].configured)
    && forall i :: 0 <= i < |steps| ==> Enabled(states[i], steps[i]) && states[i + 1] == Apply(states[i], steps[i])
  }

  lemma {:induction false} RunKeepsInv(states: seq<State>, steps: seq<Step>, n: nat)
    requires Run(states, steps) && n <= |steps|
    ensures Inv(states[n])
  {
    if n == 0 {
      assert Live([]) == {};
    } else {
      hide Inv, Apply;
      RunKeepsInv(states, steps, n - 1);
      StepKeepsInv(states[n - 1], steps[n - 1]);
    }
  }

  // --------------------------------------------------------------------- results

  /** How many contexts the steps so far have issued, and which of them they released. */
  function Issues(steps: seq<Step>): nat {
    if steps == [] then 0 else Issues(steps[..|steps| - 1]) + if steps[|steps| - 1].Issue? then 1 else 0
  }

  function ReleasedBy(steps: seq<Step>): set<nat> {
    set i | 0 <= i < |steps| && steps[i].Release? :: steps[i].context
  }

  /** A context counts as released exactly if some step released it. */
  lemma {:induction false} ReleasedIff(states: seq<State>, steps: seq<Step>, n: nat)
    requires Run(states, steps) && n <= |steps|
    ensures |states[n].issued| == Issues(steps[..n])
    ensures forall c :: c in ReleasedBy(steps[..n]) ==> c < |states[n].issued|
    ensures forall c :: 0 <= c < |states[n].issued| ==> (states[n].issued[c].released <==> c in ReleasedBy(steps[..n]))
  {
    if n > 0 {
      ReleasedIff(states, steps, n - 1);
      assert steps[..n][..n - 1] == steps[..n - 1];
      ReleasedStep(steps, n);
    }
  }

  lemma ReleasedStep(steps: seq<Step>, n: nat)
    requires 0 < n <= |steps|
    ensures ReleasedBy(steps[..n]) ==
            ReleasedBy(steps[..n - 1]) + if steps[n - 1].Release? then {steps[n - 1].context} else {}
  {
    assert forall i :: 0 <= i < n - 1 ==> steps[..n][i] == steps[..n - 1][i];
    if steps[n - 1].Release? { assert steps[..n][n - 1].context in ReleasedBy(steps[..n]); }
  }

  /** `active` is the number of contexts issued so far, less those released at least once:
      releasing one again takes nothing. */
  lemma ActiveIsIssuedMinusReleased(states: seq<State>, steps: seq<Step>, n: nat)
    requires Run(states, steps) && n <= |steps|
    ensures states[n].active == Issues(steps[..n]) - |ReleasedBy(steps[..n])|
  {
    RunKeepsInv(states, steps, n);
    ReleasedIff(states, steps, n);
    var issued, released := states[n].issued, ReleasedBy(steps[..n]);
    assert Live(issued) == Below(|issued|) - released && released <= Below(|issued|);
  }

  /** A context is never issued already cancelled. */
  lemma IssuedFresh(states: seq<State>, steps: seq<Step>, n: nat)
    requires Run(states, steps) && n < |steps| && steps[n].Issue?
    ensures var c := states[n + 1].issued[|states[n].issued|];
            !c.released && c.generation !in states[n + 1].cancelled
    ensures |states[n + 1].issued| == |states[n].issued| + 1
  {
    RunKeepsInv(states, steps, n);
  }

  lemma {:induction false} IssuedStays(states: seq<State>, steps: seq<Step>, m: nat, n: nat)
    requires Run(states, steps) && m <= n <= |steps|
    ensures |states[m].issued| <= |states[n].issued|
    decreases n
  {
    if m < n { IssuedStays(states, steps, m, n - 1); }
  }

  predicate AllReleased(issued: seq<Context>) { forall c :: 0 <= c < |issued| ==> issued[c].released }

  lemma NoneLive(issued: seq<Context>)
    requires |Live(issued)| == 0
    ensures AllReleased(issued)
  {
    forall c | 0 <= c < |issued|
      ensures issued[c].released
    {
      assert c !in Live(issued);
    }
  }

  /** When a switch to cache-only returns, every context issued before it is released. */
  lemma SwitchDrains(states: seq<State>, steps: seq<Step>, start: nat, end: nat, caller: nat)
    requires Run(states, steps) && start < end < |steps|
    requires steps[start] == SwitchToCacheOnly(caller) && steps[end] == Drained(caller)
    ensures |states[start].issued| <= |states[end + 1].issued|
    ensures AllReleased(states[end + 1].issued)
  {
    RunKeepsInv(states, steps, end);
    IssuedStays(states, steps, start, end);
    NoneLive(states[end].issued);
  }

  /** In cache-only mode nothing is issued, and whatever is still live has been cancelled. */
  lemma CacheOnlyCancelsAll(states: seq<State>, steps: seq<Step>, n: nat)
    requires Run(states, steps) && n <= |steps| && states[n].current == CacheOnly
    ensures forall c :: c in Live(states[n].issued) ==> states[n].issued[c].generation in states[n].cancelled
    ensures n < |steps| ==> |states[n + 1].issued| == |states[n].issued|
  {
    RunKeepsInv(states, steps, n);
  }

  // ------------------------------------------------------------- overlapping switches

  /** Network use is allowed, and no context can be issued. */
  predicate Stuck(s: State) { s.current == Auto && s.generation == None }

  /** The one way to get stuck: a drained switch finishes after the mode went back to auto. */
  lemma StuckIff(s: State, step: Step)
    requires Enabled(s, step) && !Stuck(s)
    ensures Stuck(Apply(s, step)) <==> step.Drained? && s.current == Auto
  {
  }

  lemma OverlapGetsStuck()
    returns (states: seq<State>, steps: seq<Step>)
    ensures Run(states, steps) && Stuck(states[|steps|])
  {
    steps := [SwitchToCacheOnly(0), SwitchToAuto, Drained(0)];
    var s0 := Initial(Auto);
    var s1 := Apply(s0, steps[0]);
    var s2 := Apply(s1, steps[1]);
    states := [s0, s1, s2, Apply(s2, steps[2])];
  }

  /** Stuck lasts until somebody switches to cache-only: switching to auto changes nothing. */
  lemma StuckUntilSwitched(s: State, step: Step)
    requires Stuck(s) && Enabled(s, step)
    ensures !Stuck(Apply(s, step)) ==> step.SwitchToCacheOnly?
  {
  }

  /** Callers that never switch to auto while another switch still waits are never stuck. */
  lemma {:induction false} SerializedIsNeverStuck(states: seq<State>, steps: seq<Step>, n: nat)
    requires Run(states, steps) && n <= |steps|
    requires forall i :: 0 <= i < n && steps[i].SwitchToAuto? ==> states[i].waiting == map[]
    ensures !Stuck(states[n]) && (states[n].current == Auto ==> states[n].waiting == map[])
  {
    if n > 0 { SerializedIsNeverStuck(states, steps, n - 1); }
  }

  // ------------------------------------------------------------------ the controller

  class OfflineModeController {
    const configured: Mode
    var current: Mode
    var generation: Option<nat>
    var active: int
    ghost var generations: nat
    ghost var cancelled: set<nat>
    ghost var issued: seq<Context>
    ghost var waiting: map<nat, nat>

    constructor (mode: Mode)
      ensures Contents() == Initial(mode) && Inv(Contents())
    {
      configured, current, active := mode, mode, 0;
      generation := if mode == Auto then Some(0) else None;
      generations := if mode == Auto then 1 else 0;
      cancelled, issued, waiting := {}, [], map[];
      new;
      assert Live(issued) == {};
    }

    ghost function Contents(): State
      reads this
    {
      State(configured, current, generation, generations, cancelled, active, issued, waiting)
    }

    /** The locked part of a switch. A switch to cache-only goes on in `Drain`. */
    method Set(mode: Mode, newGeneration: nat, ghost caller: nat) returns (changed: bool, refused: bool)
      requires Inv(Contents()) && newGeneration == generations && caller !in waiting
      modifies this
      ensures Inv(Contents())
      ensures refused <==> mode == Auto && configured == CacheOnly
      ensures changed <==> !refused && old(current) != mode
      ensures Contents() ==
        if !changed then old(Contents())
        else Apply(old(Contents()), if mode == Auto then SwitchToAuto else SwitchToCacheOnly(caller))
      ensures current == (if changed then mode else old(current)) && active == old(active) && issued == old(issued)
      ensures generation == if changed && mode == Auto then Some(newGeneration) else old(generation)
      ensures cancelled ==
        old(cancelled) + if changed && mode == CacheOnly && old(generation).Some? then {old(generation).value} else {}
      ensures waiting == if changed && mode == CacheOnly then old(waiting)[caller := |issued|] else old(waiting)
    {
      if mode == Auto && configured == CacheOnly {
        return false, true;
      }
      if current == mode {
        return false, false;
      }
      StepKeepsInv(Contents(), if mode == Auto then SwitchToAuto else SwitchToCacheOnly(caller));
      if mode == CacheOnly {
        current := mode;
        if generation.Some? {
          cancelled := cancelled + {generation.value};
        }
        waiting := waiting[caller := |issued|];
        return true, false;
      }
      generation, generations := Some(newGeneration), generations + 1;
      current := mode;
      return true, false;
    }

    /** The end of the wait, once nothing is active. */
    method Drain(ghost caller: nat)
      requires Inv(Contents()) && caller in waiting && active == 0
      modifies this
      ensures Inv(Contents()) && Contents() == Apply(old(Contents()), Drained(caller))
      ensures AllReleased(issued) && issued == old(issued) && active == 0
      ensures generation.None? && current == old(current) && waiting == old(waiting) - {caller}
    {
      StepKeepsInv(Contents(), Drained(caller));
      NoneLive(issued);
      generation := None;
      waiting := waiting - {caller};
    }

    method NetworkContext() returns (online: bool, ghost context: nat)
      requires Inv(Contents())
      modifies this
      ensures Inv(Contents())
      ensures online <==> old(current) == Auto && old(generation).Some?
      ensures Contents() == if online then Apply(old(Contents()), Issue) else old(Contents())
      ensures online ==> context == |old(issued)|
      ensures issued == old(issued) + if online then [Context(old(generation).value, false)] else []
      ensures active == old(active) + if online then 1 else 0
      ensures current == old(current) && generation == old(generation) && cancelled == old(cancelled)
    {
      context := |issued|;
      if current == CacheOnly || generation.None? {
        return false, context;
      }
      StepKeepsInv(Contents(), Issue);
      issued := issued + [Context(generation.value, false)];
      active := active + 1;
      online := true;
    }

    /** Runs at most once for a context, however often its holder calls it. */
    method ReleaseContext(once: bool, ghost context: nat)
      requires Inv(Contents()) && context < |issued| && once == !issued[context].released
      modifies this
      ensures Inv(Contents()) && Contents() == Apply(old(Contents()), Release(context))
      ensures |issued| == |old(issued)| && issued[context] == old(issued)[context].(released := true)
      ensures forall other :: 0 <= other < |issued| && other != context ==> issued[other] == old(issued)[other]
      ensures active == old(active) - if once then 1 else 0
      ensures current == old(current) && generation == old(generation) && waiting == old(waiting)
    {
      StepKeepsInv(Contents(), Release(context));
      if once {
        issued := issued[context := issued[context].(released := true)];
        active := active - 1;
      }
    }
  }
}
