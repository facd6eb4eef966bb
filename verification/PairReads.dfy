/**
  Reads racing replacement, recovery, damage and crashes.

  A read copies the indexed sidecar, drops every lock, and only then opens the body.
  Any file operation, by any code, may happen in between; what is served must still be
  a body together with a sidecar that was written for that very body.
 */
module PairReads {
  import opened Options
  import opened PairFiles

  /** `written` holds every body ever handed to a replacement; `served` every result. */
  datatype State = State(
    slots: Slots,
    index: Option<Sidecar>,
    reading: map<nat, Sidecar>,
    written: set<Bytes>,
    served: seq<Pair>)

  datatype Step =
    | WriteBodyTemp(body: Bytes)
    | WriteMetaTemp(body: Bytes, revision: nat)
    | RewriteMeta(known: Sidecar, revision: nat)   // pins, access times, a 304 answer
    | MoveFile(from: Slot, to: Slot)               // replacement, rollback, recovery
    | DeleteFile(slot: Slot)
    | DamageBody(slot: Slot, bytes: Bytes)
    | IndexKnown(known: Sidecar)
    | LoadIndex
    | Crash
    | BeginGet(reader: nat)
    | FinishGet(reader: nat)

  predicate BodySlot(slot: Slot) { slot == Body || slot == BodyBak || slot == BodyTmp }

  function Initial(): State { State(map[], None, map[], {}, []) }

  /** The sidecar was written for a body that was really stored. */
  predicate Describes(written: set<Bytes>, c: Sidecar) {
    c.checksum.preimage in written && c == SidecarOf(c.checksum.preimage, c.revision)
  }

  predicate Enabled(s: State, step: Step) {
    match step
    case RewriteMeta(known, _) => Describes(s.written, known)
    case IndexKnown(known) => Describes(s.written, known)
    case WriteMetaTemp(body, _) => body in s.written
    case MoveFile(from, to) => BodySlot(from) == BodySlot(to)
    case DamageBody(slot, _) => BodySlot(slot)
    case BeginGet(_) => s.index.Some?
    case FinishGet(reader) => reader in s.reading
    case _ => true
  }

  /** The end of a read: the body is checked against the sidecar copied at its start,
      and a mismatch removes whatever pair is installed by now. */
  function FinishRead(s: State, reader: nat): State
    requires reader in s.reading
  {
    var copy := s.reading[reader];
    var rest := s.(reading := s.reading - {reader});
    if && Body in s.slots && s.slots[Body].Data?
       && |s.slots[Body].bytes| == copy.length && Checksum(s.slots[Body].bytes) == copy.checksum
    then rest.(served := s.served + [Pair(copy, s.slots[Body].bytes)])
    else rest.(slots := Remove(Remove(s.slots, Body), Meta), index := None)
  }

  function Apply(s: State, step: Step): State
    requires Enabled(s, step)
  {
    match step
    case WriteBodyTemp(body) => s.(slots := s.slots[BodyTmp := Data(body)], written := s.written + {body})
    case WriteMetaTemp(body, revision) => s.(slots := s.slots[MetaTmp := Metadata(SidecarOf(body, revision))])
    case RewriteMeta(known, revision) => s.(slots := s.slots[Meta := Metadata(known.(revision := revision))])
    case MoveFile(from, to) => s.(slots := Rename(s.slots, from, to))
    case DeleteFile(slot) => s.(slots := Remove(s.slots, slot))
    case DamageBody(slot, bytes) => s.(slots := s.slots[slot := Data(bytes)])
    case IndexKnown(known) => s.(index := Some(known))
    case LoadIndex => s.(index := match Index(s.slots) case Some(p) => Some(p.sidecar) case None => None)
    case Crash => s.(index := None, reading := map[])
    case BeginGet(reader) => s.(reading := s.reading[reader := s.index.value])
    case FinishGet(reader) => FinishRead(s, reader)
  }

  ghost predicate Inv(s: State) {
    && (forall slot :: slot in s.slots ==> (BodySlot(slot) <==> s.slots[slot].Data?))
    && (forall slot :: slot in s.slots && s.slots[slot].Metadata? ==> Describes(s.written, s.slots[slot].sidecar))
    && (s.index.Some? ==> Describes(s.written, s.index.value))
    && (forall r :: r in s.reading ==> Describes(s.written, s.reading[r]))
    && (forall i :: 0 <= i < |s.served| ==> ServedWhole(s, s.served[i]))
  }

  /** A served pair is one stored body with a sidecar made for it. */
  predicate ServedWhole(s: State, p: Pair) {
    p.body in s.written && p.sidecar == SidecarOf(p.body, p.sidecar.revision)
  }

  lemma StepKeepsInv(s: State, step: Step)
    requires Inv(s) && Enabled(s, step)
    ensures Inv(Apply(s, step))
    ensures s.written <= Apply(s, step).written
  {
    var t := Apply(s, step);
    forall slot | slot in t.slots
      ensures BodySlot(slot) <==> t.slots[slot].Data?
      ensures t.slots[slot].Metadata? ==> Describes(t.written, t.slots[slot].sidecar)
    {
      if slot in s.slots && s.slots[slot].Metadata? {
        assert Describes(s.written, s.slots[slot].sidecar);
      }
    }
    forall i | 0 <= i < |t.served|
      ensures ServedWhole(t, t.served[i])
    {
      if i < |s.served| {
        assert ServedWhole(s, s.served[i]) && s.served[i] == t.served[i];
      }
    }
  }

  /** A read serves the pair if the installed body is the one its sidecar was made for, word
      for word; otherwise it serves nothing and removes what is installed. */
  lemma ReadServes(s: State, reader: nat)
    requires Inv(s) && Enabled(s, FinishGet(reader))
    ensures var t, copy := Apply(s, FinishGet(reader)), s.reading[reader];
            && t.reading == s.reading - {reader} && t.written == s.written
            && if Holds(s.slots, Body, Data(copy.checksum.preimage)) then
                 t.served == s.served + [Pair(copy, copy.checksum.preimage)] && t.slots == s.slots && t.index == s.index
               else
                 t.served == s.served && t.slots == s.slots - {Body, Meta} && t.index == None
  {
    assert Describes(s.written, s.reading[reader]);
    assert Remove(Remove(s.slots, Body), Meta) == s.slots - {Body, Meta};
  }

  ghost predicate Run(states: seq<State>, steps: seq<Step>) {
    && |states| == |steps| + 1
    && states[0] == Initial()
    && forall i :: 0 <= i < |steps| ==> Enabled(states[i], steps[i]) && states[i + 1] == Apply(states[i], steps[i])
  }

  /** Whatever interleaves with them, reads never mix the halves of two entries. */
  lemma {:induction false} ServedPairsAreWhole(states: seq<State>, steps: seq<Step>)
    requires Run(states, steps)
    ensures Inv(states[|steps|])
    ensures forall i :: 0 <= i < |states[|steps|].served| ==> ServedWhole(states[|steps|], states[|steps|].served[i])
  {
    if |steps| > 0 {
      var n := |steps| - 1;
      ServedPairsAreWhole(states[..|steps|], steps[..n]);
      assert states[..|steps|][n] == states[n];
      StepKeepsInv(states[n], steps[n]);
    }
  }

  /** One sidecar never vouches for two bodies, so mixing halves would be noticed. */
  lemma SidecarNamesOneBody(a: Pair, b: Pair)
    requires Sound(a) && Sound(b) && a.sidecar.checksum == b.sidecar.checksum
    ensures a.body == b.body && a.sidecar.length == b.sidecar.length
  {
  }
}
