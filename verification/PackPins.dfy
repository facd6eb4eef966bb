/**
  The pins that one pack holds in the cache, while its workers pin and record resources,
  a request deletes it, and responses are refreshed underneath.
 */
module PackPins {
  import PackProgress

  type Key = PackProgress.Key

  /** Worker `worker` of one of the job's concurrent stages. */
  datatype WorkerId = WorkerId(stage: nat, worker: nat)

  /** A worker that pinned its key and is to record it, or that must take the pin back. */
  datatype Worker = Pinned(key: Key) | Rejected(key: Key)

  /** Metadata of one entry copied before a refresh: whether it carried this pack's pin. */
  datatype Copy = Copy(key: Key, pinned: bool)

  /** `pins` are the entries carrying the pack's identifier. `stray` and `dropped` are
      ghost history: pins nobody will take back, and recorded keys whose pin is gone. */
  datatype State = State(
    pins: set<Key>, cacheKeys: seq<Key>, deleted: bool, cleaned: nat,
    workers: map<WorkerId, Worker>, copies: map<nat, Copy>,
    stray: set<Key>, dropped: set<Key>)

  datatype Step =
    | Pin(w: WorkerId, key: Key)
    | Record(w: WorkerId, saved: bool)          // the manifest update, under the manager's lock
    | TakeBack(w: WorkerId, released: bool)     // unpins a key whose update was refused
    | Delete
    | Clean(released: bool)                // unpins the next recorded key of a deleted pack
    | CopyMetadata(r: nat, key: Key)
    | WriteBack(r: nat)                    // a refreshed response is stored with the copied pins
    | LoseEntry(key: Key)                  // a damaged entry is removed, pinned or not

  function Initial(recorded: seq<Key>, pinned: set<Key>): State {
    State(pinned, recorded, false, 0, map[], map[], {}, (set k | k in recorded) - pinned)
  }

  predicate Enabled(s: State, step: Step) {
    match step
    case Pin(w, _) => w !in s.workers
    case Record(w, _) => w in s.workers && s.workers[w].Pinned?
    case TakeBack(w, _) => w in s.workers && s.workers[w].Rejected?
    case Delete => !s.deleted
    case Clean(_) => s.deleted && s.cleaned < |s.cacheKeys|
    case WriteBack(r) => r in s.copies
    case _ => true
  }

  /** The key's pin is gone, whoever took it. */
  function Unpin(s: State, key: Key): State {
    s.(pins := s.pins - {key}, stray := s.stray - {key},
       dropped := if key in s.cacheKeys then s.dropped + {key} else s.dropped)
  }

  function PutPin(s: State, key: Key): State { s.(pins := s.pins + {key}, dropped := s.dropped - {key}) }

  /** Nobody comes back for this pin. */
  function Leave(s: State, key: Key): State { if key in s.pins then s.(stray := s.stray + {key}) else s }

  function Apply(s: State, step: Step): State
    requires Enabled(s, step)
  {
    match step
    case Pin(w, key) => PutPin(s, key).(workers := s.workers[w := Pinned(key)])
    case Record(w, saved) =>
      var key := s.workers[w].key;
      if s.deleted then s.(workers := s.workers[w := Rejected(key)])
      else
        var recorded := s.(cacheKeys := PackProgress.WithKey(s.cacheKeys, key),
                           dropped := if key in s.pins then s.dropped else s.dropped + {key});
        recorded.(workers := if saved then s.workers - {w} else s.workers[w := Rejected(key)])
    case TakeBack(w, released) =>
      var key := s.workers[w].key;
      (if released then Unpin(s, key) else Leave(s, key)).(workers := s.workers - {w})
    case Delete => s.(deleted := true)
    case Clean(released) =>
      var key := s.cacheKeys[s.cleaned];
      (if released then Unpin(s, key) else Leave(s, key)).(cleaned := s.cleaned + 1)
    case CopyMetadata(r, key) => s.(copies := s.copies[r := Copy(key, key in s.pins)])
    case WriteBack(r) =>
      var c := s.copies[r];
      var rest := s.(copies := s.copies - {r});
      if !c.pinned then Unpin(rest, c.key)
      else if c.key in s.pins then rest
      else Leave(PutPin(rest, c.key), c.key)
    case LoseEntry(key) => Unpin(s, key)
  }

  // ------------------------------------------------------------------- invariant

  /** Recorded keys that a deletion has not come to yet. */
  predicate Uncleaned(s: State, key: Key) { key in s.cacheKeys[if s.cleaned <= |s.cacheKeys| then s.cleaned else 0..] }

  predicate InHand(workers: map<WorkerId, Worker>, key: Key) { exists w :: w in workers && workers[w].key == key }

  ghost predicate Inv(s: State) { Accounted(s) && RecordedPinned(s) }

  /** Every pin is recorded, in a worker's unfinished step, or known to be stray. */
  ghost predicate Accounted(s: State) {
    && s.cleaned <= |s.cacheKeys| && (!s.deleted ==> s.cleaned == 0)
    && (forall key :: key in s.pins ==> key in s.stray || Uncleaned(s, key) || InHand(s.workers, key))
    && s.stray <= s.pins
  }

  /** The recorded keys carry the pin, except exactly the dropped ones. */
  ghost predicate RecordedPinned(s: State) {
    && (forall key :: key in s.dropped ==> key in s.cacheKeys)
    && (forall key :: key in s.cacheKeys ==> (key in s.pins <==> key !in s.dropped))
  }

  lemma InitialIsInv(recorded: seq<Key>, pinned: set<Key>)
    requires forall key :: key in pinned ==> key in recorded
    ensures Inv(Initial(recorded, pinned))
  {
  }

  lemma PinChangesKeepRecordedPinned(s: State, key: Key)
    requires RecordedPinned(s)
    ensures RecordedPinned(Unpin(s, key)) && RecordedPinned(PutPin(s, key)) && RecordedPinned(Leave(s, key))
    ensures RecordedPinned(Leave(PutPin(s, key), key))
  {
  }

  lemma RecordKeepsRecordedPinned(s: State, w: WorkerId, saved: bool)
    requires RecordedPinned(s) && Enabled(s, Record(w, saved))
    ensures RecordedPinned(Apply(s, Record(w, saved)))
  {
  }

  /** Only these parts of the state matter to the recorded pins. */
  lemma SamePins(s: State, t: State)
    requires RecordedPinned(s) && t.pins == s.pins && t.cacheKeys == s.cacheKeys && t.dropped == s.dropped
    ensures RecordedPinned(t)
  {
  }

  lemma StepKeepsRecordedPinned(s: State, step: Step)
    requires RecordedPinned(s) && Enabled(s, step)
    ensures RecordedPinned(Apply(s, step))
  {
    hide RecordedPinned, Unpin, PutPin, Leave;
    var t := Apply(s, step);
    match step
    case Pin(_, key) =>
      PinChangesKeepRecordedPinned(s, key);
      SamePins(PutPin(s, key), t);
    case Record(w, saved) => RecordKeepsRecordedPinned(s, w, saved);
    case TakeBack(w, released) =>
      var key := s.workers[w].key;
      PinChangesKeepRecordedPinned(s, key);
      SamePins(if released then Unpin(s, key) else Leave(s, key), t);
    case Clean(released) =>
      var key := s.cacheKeys[s.cleaned];
      PinChangesKeepRecordedPinned(s, key);
      SamePins(if released then Unpin(s, key) else Leave(s, key), t);
    case WriteBack(r) =>
      var rest := s.(copies := s.copies - {r});
      SamePins(s, rest);
      PinChangesKeepRecordedPinned(rest, s.copies[r].key);
    case LoseEntry(key) => PinChangesKeepRecordedPinned(s, key);
    case _ => SamePins(s, t);
  }

  lemma WorkerStepKeepsAccounted(s: State, step: Step)
    requires Accounted(s) && Enabled(s, step) && (step.Pin? || step.Record? || step.TakeBack?)
    ensures Accounted(Apply(s, step))
  {
    var t := Apply(s, step);
    forall key | key in t.pins
      ensures key in t.stray || Uncleaned(t, key) || InHand(t.workers, key)
    {
      if InHand(s.workers, key) {
        var w :| w in s.workers && s.workers[w].key == key;
        assert w in t.workers ==> t.workers[w].key == key;
      }
      if step.Pin? { assert t.workers[step.w].key == step.key; }
    }
  }

  lemma CleanKeepsAccounted(s: State, released: bool)
    requires Accounted(s) && Enabled(s, Clean(released))
    ensures Accounted(Apply(s, Clean(released)))
  {
    assert s.cacheKeys[s.cleaned..] == [s.cacheKeys[s.cleaned]] + s.cacheKeys[s.cleaned + 1..];
  }

  lemma StepKeepsAccounted(s: State, step: Step)
    requires Accounted(s) && Enabled(s, step)
    ensures Accounted(Apply(s, step))
  {
    if step.Pin? || step.Record? || step.TakeBack? {
      WorkerStepKeepsAccounted(s, step);
    } else if step.Clean? {
      CleanKeepsAccounted(s, step.released);
    }
  }

  lemma StepKeepsInv(s: State, step: Step)
    requires Inv(s) && Enabled(s, step)
    ensures Inv(Apply(s, step))
  {
    hide Apply, Accounted, RecordedPinned;
    StepKeepsAccounted(s, step);
    StepKeepsRecordedPinned(s, step);
  }

  // -------------------------------------------------------------------- whole runs

  /** Runs start from a pack whose pins are all recorded, as a new or loaded pack's are. */
  ghost predicate Run(states: seq<State>, steps: seq<Step>) {
    && |states| == |steps| + 1
    && states[0] == Initial(states[0].cacheKeys, states[0].pins)
    && (forall key :: key in states[0].pins ==> key in states[0].cacheKeys)
    && forall i :: 0 <= i < |steps| ==> Enabled(states[i], steps[i]) && states[i + 1] == Apply(states[i], steps[i])
  }

  lemma {:induction false} RunKeepsInv(states: seq<State>, steps: seq<Step>, n: nat)
    requires Run(states, steps) && n <= |steps|
    ensures Inv(states[n])
  {
    if n == 0 {
      InitialIsInv(states[0].cacheKeys, states[0].pins);
    } else {
      hide Inv, Apply;
      RunKeepsInv(states, steps, n - 1);
      StepKeepsInv(states[n - 1], steps[n - 1]);
    }
  }

  /** The pack is gone: deleted, cleaned up, and its last worker has finished. */
  predicate Finished(s: State) { s.deleted && s.cleaned == |s.cacheKeys| && s.workers == map[] }

  /** What a finished pack leaves pinned is exactly what became stray. */
  lemma FinishedLeavesOnlyStray(states: seq<State>, steps: seq<Step>, n: nat)
    requires Run(states, steps) && n <= |steps| && Finished(states[n])
    ensures states[n].pins == states[n].stray
  {
    hide Apply;
    RunKeepsInv(states, steps, n);
  }

  /** An unpin that the cache could not store, or a refresh that brings a pin back. */
  ghost predicate Strays(s: State, step: Step)
    requires Enabled(s, step)
  {
    match step
    case TakeBack(w, released) => !released && s.workers[w].key in s.pins
    case Clean(released) => !released && s.cacheKeys[s.cleaned] in s.pins
    case WriteBack(r) => s.copies[r].pinned && s.copies[r].key !in s.pins
    case _ => false
  }

  /** A pin becomes stray in these steps and in no others. */
  lemma StrayStep(s: State, step: Step)
    requires Enabled(s, step)
    ensures Strays(s, step) ==> Apply(s, step).stray > {}
    ensures !Strays(s, step) ==> Apply(s, step).stray <= s.stray
  {
    if step.WriteBack? && Strays(s, step) {
      assert s.copies[step.r].key in Apply(s, step).stray;
    }
    if step.TakeBack? && Strays(s, step) {
      assert s.workers[step.w].key in Apply(s, step).stray;
    }
    if step.Clean? && Strays(s, step) {
      assert s.cacheKeys[s.cleaned] in Apply(s, step).stray;
    }
  }

  /** A recorded key loses its pin, or is recorded without one. */
  ghost predicate Drops(s: State, step: Step, key: Key)
    requires Enabled(s, step)
  {
    match step
    case Record(w, _) => !s.deleted && key == s.workers[w].key && key !in s.pins
    case TakeBack(w, released) => released && key == s.workers[w].key && key in s.cacheKeys
    case Clean(released) => released && key == s.cacheKeys[s.cleaned]
    case WriteBack(r) => !s.copies[r].pinned && key == s.copies[r].key && key in s.cacheKeys
    case LoseEntry(k) => key == k && key in s.cacheKeys
    case _ => false
  }

  /** A recorded key is without its pin after a step exactly if the step took it, or it was
      so before and the step did not put the pin back. */
  lemma DroppedStep(s: State, step: Step, key: Key)
    requires RecordedPinned(s) && Enabled(s, step)
    requires key in Apply(s, step).cacheKeys
    ensures var t := Apply(s, step);
            var restored := (step.Pin? && step.key == key)
                            || (step.WriteBack? && s.copies[step.r] == Copy(key, true));
            key !in t.pins <==> Drops(s, step, key) || (key in s.dropped && !restored)
  {
    hide RecordedPinned;
    StepKeepsRecordedPinned(s, step);
    RecordedPinnedAt(s, key);
    RecordedPinnedAt(Apply(s, step), key);
  }

  lemma RecordedPinnedAt(s: State, key: Key)
    requires RecordedPinned(s)
    ensures key in s.dropped ==> key in s.cacheKeys
    ensures key in s.cacheKeys ==> (key in s.pins <==> key !in s.dropped)
  {
  }

  lemma {:induction false} NoStrays(states: seq<State>, steps: seq<Step>, n: nat)
    requires Run(states, steps) && n <= |steps|
    requires forall i :: 0 <= i < n ==> !Strays(states[i], steps[i])
    ensures states[n].stray == {}
  {
    if n > 0 {
      hide Apply;
      NoStrays(states, steps, n - 1);
      StrayStep(states[n - 1], steps[n - 1]);
    }
  }

  /** After a deletion, its clean-up and the last worker, no pin of the pack remains -
      under every interleaving in which no unpin failed and no refresh brought one back. */
  lemma DeletedPackHoldsNoPins(states: seq<State>, steps: seq<Step>, n: nat)
    requires Run(states, steps) && n <= |steps| && Finished(states[n])
    requires forall i :: 0 <= i < n ==> !Strays(states[i], steps[i])
    ensures states[n].pins == {}
  {
    hide Apply;
    FinishedLeavesOnlyStray(states, steps, n);
    NoStrays(states, steps, n);
  }

  /** The condition is needed: a refresh that started before the deletion can store the
      pin of a deleted pack again after its clean-up. */
  lemma RefreshRevivesPin(key: Key)
    returns (states: seq<State>, steps: seq<Step>)
    ensures Run(states, steps) && Finished(states[|steps|])
    ensures states[|steps|].pins == {key}
  {
    var s0 := Initial([key], {key});
    steps := [CopyMetadata(0, key), Delete, Clean(true), WriteBack(0)];
    var s1 := Apply(s0, steps[0]);
    var s2 := Apply(s1, steps[1]);
    var s3 := Apply(s2, steps[2]);
    var s4 := Apply(s3, steps[3]);
    states := [s0, s1, s2, s3, s4];
  }

  /** Until it is deleted, a pack's pins lie within its recorded keys, its workers' hands
      and what went stray; the recorded keys that lost their pin are exactly the dropped. */
  lemma LivePackPins(states: seq<State>, steps: seq<Step>, n: nat)
    requires Run(states, steps) && n <= |steps| && !states[n].deleted
    ensures forall key :: key in states[n].pins ==>
              key in states[n].cacheKeys || InHand(states[n].workers, key) || key in states[n].stray
    ensures forall key :: key in states[n].cacheKeys ==> (key in states[n].pins <==> key !in states[n].dropped)
  {
    hide Apply;
    RunKeepsInv(states, steps, n);
  }

  /** A manifest write that fails leaves its key recorded but no longer pinned. */
  lemma FailedSaveDropsPin(s: State, w: WorkerId)
    requires Enabled(s, Record(w, false)) && !s.deleted
    ensures var key := s.workers[w].key;
            var t := Apply(Apply(s, Record(w, false)), TakeBack(w, true));
            key in t.cacheKeys && key !in t.pins
  {
  }
}
