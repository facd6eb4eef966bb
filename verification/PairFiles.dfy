/**
  The files of one cache entry and the crash behaviour of replacing them.

  An entry is a body file and a metadata sidecar. A replacement first moves both
  halves to `.bak` names, then renames the new halves into place. Every directory
  a crash can expose is recorded in the ghost history of `EntryDirectory`.
 */
module PairFiles {
  import opened Options

  type Key = string
  newtype Byte = b: int | 0 <= b < 256
  type Bytes = seq<Byte>

  /** SHA-256 stands for any injective function; the digest carries its preimage. */
  datatype Digest = Digest(preimage: Bytes)

  function Checksum(body: Bytes): Digest { Digest(body) }

  /** `revision` stands for the sidecar fields that no file check looks at. */
  datatype Sidecar = Sidecar(length: int, checksum: Digest, revision: nat)

  datatype File = Data(bytes: Bytes) | Metadata(sidecar: Sidecar)

  datatype Slot = Body | Meta | BodyBak | MetaBak | BodyTmp | MetaTmp

  type Slots = map<Slot, File>

  datatype Pair = Pair(sidecar: Sidecar, body: Bytes)

  function SidecarOf(body: Bytes, revision: nat): Sidecar {
    Sidecar(|body|, Checksum(body), revision)
  }

  predicate Sound(p: Pair) {
    p.sidecar.length == |p.body| && p.sidecar.checksum == Checksum(p.body)
  }

  // ------------------------------------------------------------ file operations

  function Remove(s: Slots, slot: Slot): Slots { s - {slot} }

  /** Atomic rename: replaces the target; a missing source changes nothing. */
  function Rename(s: Slots, from: Slot, to: Slot): Slots {
    if from in s then (s - {from})[to := s[from]] else s
  }

  predicate Holds(s: Slots, slot: Slot, file: File) { slot in s && s[slot] == file }

  /** The full check of both halves that recovery makes. */
  predicate ValidPair(s: Slots) {
    && Meta in s && s[Meta].Metadata? && s[Meta].sidecar.length >= 0
    && Body in s && s[Body].Data?
    && Sound(Pair(s[Meta].sidecar, s[Body].bytes))
  }

  // ------------------------------------------------------------------- recovery

  /** What the first recovery walk leaves of an entry: a lone body backup goes back. */
  function RecoverBody(s: Slots): Slots {
    if BodyBak in s && MetaBak !in s then Rename(Remove(s, Body), BodyBak, Body) else s
  }

  /** What the second recovery walk leaves of an entry. */
  function RecoverMeta(s: Slots): Slots {
    if MetaBak !in s then s
    else if !s[MetaBak].Metadata? then Remove(Remove(s, MetaBak), BodyBak)
    else if ValidPair(s) then Remove(Remove(s, BodyBak), MetaBak)
    else Rename(Rename(Remove(Remove(s, Body), Meta), BodyBak, Body), MetaBak, Meta)
  }

  function Recover(s: Slots): Slots { RecoverMeta(RecoverBody(s)) }

  /** The entry that loading indexes: only the size of the body is compared. */
  function Index(s: Slots): Option<Pair> {
    if && Meta in s && s[Meta].Metadata? && s[Meta].sidecar.length >= 0
       && Body in s && s[Body].Data? && |s[Body].bytes| == s[Meta].sidecar.length
    then Some(Pair(s[Meta].sidecar, s[Body].bytes))
    else None
  }

  /** One uninterrupted recovery followed by a load. */
  function Settle(s: Slots): Option<Pair> { Index(Recover(s)) }

  /** The directories visible between the file operations of the first walk. */
  function BodyWalk(s: Slots): seq<Slots> {
    if BodyBak in s && MetaBak !in s then [s, Remove(s, Body), RecoverBody(s)] else [s]
  }

  /** The directories visible between the file operations of the second walk. */
  function MetaWalk(s: Slots): seq<Slots> {
    if MetaBak !in s then [s]
    else if !s[MetaBak].Metadata? then [s, Remove(s, MetaBak), RecoverMeta(s)]
    else if ValidPair(s) then [s, Remove(s, BodyBak), RecoverMeta(s)]
    else
      var cleared := Remove(Remove(s, Body), Meta);
      [s, Remove(s, Body), cleared, Rename(cleared, BodyBak, Body), RecoverMeta(s)]
  }

  predicate RecoveryCut(s: Slots, t: Slots) { t in BodyWalk(s) || t in MetaWalk(RecoverBody(s)) }

  /** Between the two backup renames of a restore the entry cannot be recovered. */
  predicate HalfRestored(s: Slots) {
    MetaBak in s && s[MetaBak].Metadata? && BodyBak !in s && !ValidPair(s)
  }

  predicate ReadableBackup(s: Slots) { MetaBak in s ==> s[MetaBak].Metadata? }

  // ------------------------------------------------------- what recovery decides

  /** Closed form of recovery and load over every directory with a readable backup. */
  lemma SettleOutcome(s: Slots)
    requires ReadableBackup(s)
    ensures MetaBak !in s && BodyBak !in s ==> Settle(s) == Index(s)
    ensures MetaBak !in s && BodyBak in s ==> Settle(s) == Index(s[Body := s[BodyBak]])
    ensures MetaBak in s && ValidPair(s) ==> Settle(s) == Index(s) && Settle(s).Some?
    ensures MetaBak in s && BodyBak in s && !ValidPair(s)
      ==> Settle(s) == Index(map[Body := s[BodyBak], Meta := s[MetaBak]])
    ensures HalfRestored(s) ==> Settle(s) == None
  {
  }

  /** Recovery is idempotent: it leaves no backup, and a second start changes nothing. */
  lemma RecoverIdempotent(s: Slots)
    ensures BodyBak !in Recover(s) && MetaBak !in Recover(s)
    ensures Recover(Recover(s)) == Recover(s)
    ensures Settle(Recover(s)) == Settle(s)
  {
  }

  /** Cutting a recovery anywhere either keeps its outcome or loses the entry. */
  lemma RecoveryCutOutcome(s: Slots, t: Slots)
    requires ReadableBackup(s) && RecoveryCut(s, t)
    ensures ReadableBackup(t)
    ensures Settle(t) == Settle(s) || (HalfRestored(t) && Settle(t) == None)
  {
    var r := RecoverBody(s);
    if t in BodyWalk(s) {
      assert t == s || t == Remove(s, Body) || t == r;
    } else if MetaBak in r {
      assert r == s;
      if ValidPair(r) {
        assert t == s || t == Remove(s, BodyBak) || t == RecoverMeta(s);
      } else {
        var cleared := Remove(Remove(s, Body), Meta);
        assert t == s || t == Remove(s, Body) || t == cleared
            || t == Rename(cleared, BodyBak, Body) || t == RecoverMeta(s);
        if t == Rename(cleared, BodyBak, Body) {
          SettleOutcome(t);
        }
      }
    }
  }

  /** A run of starts, each but the last cut short at some file operation. */
  predicate CrashRun(run: seq<Slots>) {
    |run| > 0 && forall i :: 0 <= i < |run| - 1 ==> RecoveryCut(run[i], run[i + 1])
  }

  /** However many recoveries are cut short, the last start yields the first outcome
      or nothing, and nothing only if some crash hit the half-restored window. */
  lemma {:induction false} CrashRunOutcome(run: seq<Slots>)
    requires CrashRun(run) && ReadableBackup(run[0])
    ensures ReadableBackup(run[|run| - 1])
    ensures || Settle(run[|run| - 1]) == Settle(run[0])
            || (Settle(run[|run| - 1]) == None && exists i :: 0 <= i < |run| && HalfRestored(run[i]))
  {
    if |run| > 1 {
      var front := run[..|run| - 1];
      forall i | 0 <= i < |front| - 1
        ensures RecoveryCut(front[i], front[i + 1])
      {
        assert front[i] == run[i] && front[i + 1] == run[i + 1];
      }
      CrashRunOutcome(front);
      var s, t := run[|run| - 2], run[|run| - 1];
      assert s == front[|front| - 1];
      assert RecoveryCut(run[|run| - 2], run[|run| - 2 + 1]);
      RecoveryCutOutcome(s, t);
      if exists i :: 0 <= i < |front| && HalfRestored(front[i]) {
        var i :| 0 <= i < |front| && HalfRestored(front[i]);
        assert HalfRestored(run[i]);
      }
    }
  }

  /** The window is real: a restored body beside the metadata backup is discarded. */
  lemma HalfRestoredLosesEntry(p: Pair)
    requires Sound(p)
    ensures var s := map[Body := Data(p.body), MetaBak := Metadata(p.sidecar)];
            && RecoveryCut(map[BodyBak := Data(p.body), MetaBak := Metadata(p.sidecar)], s)
            && Settle(map[BodyBak := Data(p.body), MetaBak := Metadata(p.sidecar)]) == Some(p)
            && Settle(s) == None
  {
    var before: Slots := map[BodyBak := Data(p.body), MetaBak := Metadata(p.sidecar)];
    var s: Slots := map[Body := Data(p.body), MetaBak := Metadata(p.sidecar)];
    assert RecoverBody(before) == before && !ValidPair(before);
    assert Remove(Remove(before, Body), Meta) == before;
    assert Rename(before, BodyBak, Body) == s;
    assert MetaWalk(before)[3] == s;
    assert Recover(before) == map[Body := Data(p.body), Meta := Metadata(p.sidecar)];
  }

  /** An installed entry beside whichever of the old entry's backups could not be removed. */
  function Leftover(before: Pair, after: Pair, bodyStays: bool, metaStays: bool): Slots {
    var s: Slots := map[Body := Data(after.body), Meta := Metadata(after.sidecar)];
    var t := if bodyStays then s[BodyBak := Data(before.body)] else s;
    if metaStays then t[MetaBak := Metadata(before.sidecar)] else t
  }

  /** Removing the backups may fail: the next start keeps the new entry if and only if the
      body backup did not stay alone, or holds the very bytes of the new body. Otherwise
      the old body goes back under the new metadata: dropped, or listed if just as long. */
  lemma LeftoverKeepsNewIff(before: Pair, after: Pair, bodyStays: bool, metaStays: bool)
    requires Sound(before) && Sound(after)
    ensures var s := Leftover(before, after, bodyStays, metaStays);
            && (Settle(s) == Some(after) <==> !bodyStays || metaStays || before.body == after.body)
            && (bodyStays && !metaStays ==>
                  Settle(s) == if |before.body| == |after.body| then Some(Pair(after.sidecar, before.body)) else None)
  {
    SettleOutcome(Leftover(before, after, bodyStays, metaStays));
  }

  // ------------------------------------------------ recoveries whose operations fail

  /** One of the two backups is there without the other. */
  predicate OneBackup(s: Slots) { (BodyBak in s) != (MetaBak in s) }

  /** Unless it started half restored, an entry keeps its outcome in every directory that
      holds both of its backups or neither. */
  predicate Outlives(s: Slots, t: Slots) { HalfRestored(s) || OneBackup(t) || Settle(t) == Settle(s) }

  /** The first walk at a lone body backup, whichever of its operations fail. */
  lemma BodyWalkOutlives(s: Slots)
    requires BodyBak in s && MetaBak !in s
    ensures Outlives(s, s) && Outlives(s, Remove(s, Body))
    ensures Outlives(s, Rename(s, BodyBak, Body)) && Outlives(s, Rename(Remove(s, Body), BodyBak, Body))
    ensures Rename(Remove(s, Body), BodyBak, Body) == Rename(s, BodyBak, Body) == RecoverBody(s)
    ensures RecoveryCut(s, Remove(s, Body)) && RecoveryCut(s, RecoverBody(s))
  {
    assert BodyWalk(s)[1] == Remove(s, Body) && BodyWalk(s)[2] == RecoverBody(s);
    SettleOutcome(s);
    SettleOutcome(RecoverBody(s));
    assert Rename(Remove(s, Body), BodyBak, Body) == Rename(s, BodyBak, Body);
  }

  /** Some of the removals before a restore went through. */
  predicate Cleared(s: Slots, c: Slots) {
    c == s || c == Remove(s, Body) || c == Remove(s, Meta) || c == Remove(Remove(s, Body), Meta)
  }

  /** A restore, whichever of its removals and renames fail. */
  lemma RestoreOutlives(s: Slots, c: Slots)
    requires MetaBak in s && s[MetaBak].Metadata? && !ValidPair(s) && Cleared(s, c)
    ensures Outlives(s, c) && Outlives(s, Rename(c, BodyBak, Body)) && Outlives(s, Rename(c, MetaBak, Meta))
    ensures Outlives(s, Rename(Rename(c, BodyBak, Body), MetaBak, Meta))
  {
    if BodyBak in s {
      var t := Rename(Rename(c, BodyBak, Body), MetaBak, Meta);
      SettleOutcome(s);
      SettleOutcome(c);
      SettleOutcome(t);
    }
  }

  /** Dropping both backups, whichever of the removals fail. */
  lemma DropOutlives(s: Slots)
    requires MetaBak in s && (!s[MetaBak].Metadata? || ValidPair(s))
    ensures Outlives(s, s) && Outlives(s, Remove(s, MetaBak)) && Outlives(s, Remove(s, BodyBak))
    ensures Outlives(s, Remove(Remove(s, BodyBak), MetaBak)) && Outlives(s, Remove(Remove(s, MetaBak), BodyBak))
  {
    var t := Remove(Remove(s, BodyBak), MetaBak);
    assert Remove(Remove(s, MetaBak), BodyBak) == t;
    if ValidPair(s) {
      assert ValidPair(t) && ValidPair(Remove(s, BodyBak));
    }
  }

  // ------------------------------------------------------------- the replacement

  type Tree = map<Key, Slots>

  function Lookup(files: Tree, key: Key): Slots { if key in files then files[key] else map[] }

  /** Every directory of a stretch of history settles to one outcome. */
  ghost predicate AllSettle(stretch: seq<Tree>, key: Key, outcome: Option<Pair>) {
    forall i :: 0 <= i < |stretch| ==> Settle(Lookup(stretch[i], key)) == outcome
  }

  predicate Lost(s: Slots) { HalfRestored(s) && Settle(s) == None }

  /** Every directory a failed replacement exposes settles to the old entry, or to
      nothing while the two backups are half restored. */
  ghost predicate FailureSettles(stretch: seq<Tree>, key: Key, before: Option<Pair>) {
    forall i :: 0 <= i < |stretch| ==>
      Settle(Lookup(stretch[i], key)) == before || Lost(Lookup(stretch[i], key))
  }

  function Installed(p: Option<Pair>): Slots {
    match p
    case None => map[]
    case Some(q) => map[Body := Data(q.body), Meta := Metadata(q.sidecar)]
  }

  // A replacement may start beside backups `left` that an earlier one could not remove.

  predicate OnlyBackups(left: Slots) { left.Keys <= {BodyBak, MetaBak} }

  /** Whatever backups there are belong to this entry. */
  predicate Own(s: Slots, p: Pair) {
    && (BodyBak in s ==> s[BodyBak] == Data(p.body))
    && (MetaBak in s ==> s[MetaBak] == Metadata(p.sidecar))
  }

  predicate Clean(left: Slots, before: Option<Pair>) {
    match before
    case None => left == map[]
    case Some(p) => Own(left, p)
  }

  /** An older backup would be put back over this entry: the body's stands alone beside the
      installed pair, or the metadata's is still there while the body is moved aside. */
  predicate Stale(s: Slots, p: Pair) {
    && Holds(s, Meta, Metadata(p.sidecar))
    && if Body in s then BodyBak in s && MetaBak !in s && s[BodyBak] != Data(p.body)
       else MetaBak in s && s[MetaBak] != Metadata(p.sidecar)
  }

  /** Before the new metadata is in: a restart finds exactly the old entry, if and only if
      no older backup would be put back over it. A first write leaves what a restart would
      have found without it. */
  predicate Old(s: Slots, before: Option<Pair>, left: Slots) {
    match before
    case None => Settle(s) == Settle(left)
    case Some(p) => (Settle(s) == before <==> !Stale(s, p)) && (Own(left, p) ==> Own(s, p))
  }

  ghost predicate AllOld(stretch: seq<Tree>, key: Key, before: Option<Pair>, left: Slots) {
    forall i :: 0 <= i < |stretch| ==> Old(Lookup(stretch[i], key), before, left)
  }

  predicate Survives(s: Slots, before: Option<Pair>, left: Slots) { Old(s, before, left) || Lost(s) }

  ghost predicate AllSurvive(stretch: seq<Tree>, key: Key, before: Option<Pair>, left: Slots) {
    forall i :: 0 <= i < |stretch| ==> Survives(Lookup(stretch[i], key), before, left)
  }

  /** Beside no foreign backup nothing is stale. */
  lemma CleanSettles(stretch: seq<Tree>, key: Key, before: Option<Pair>, left: Slots)
    requires Clean(left, before)
    ensures AllOld(stretch, key, before, left) ==> AllSettle(stretch, key, before)
    ensures AllSurvive(stretch, key, before, left) ==> FailureSettles(stretch, key, before)
  {
    NothingIsFound();
    hide HalfRestored, Settle;
  }

  lemma NothingIsFound()
    ensures Settle(map[]) == None
  {
  }

  lemma OldStep(history: seq<Tree>, start: nat, key: Key, before: Option<Pair>, left: Slots)
    requires start < |history|
    requires AllOld(history[start..|history| - 1], key, before, left)
    requires Old(Lookup(history[|history| - 1], key), before, left)
    ensures AllOld(history[start..], key, before, left)
    ensures AllSurvive(history[start..], key, before, left)
  {
  }

  lemma SurvivingStep(history: seq<Tree>, start: nat, key: Key, before: Option<Pair>, left: Slots)
    requires start < |history|
    requires AllSurvive(history[start..|history| - 1], key, before, left)
    requires Survives(Lookup(history[|history| - 1], key), before, left)
    ensures AllSurvive(history[start..], key, before, left)
  {
  }

  lemma NewStep(history: seq<Tree>, start: nat, key: Key, before: Option<Pair>, left: Slots, after: Pair)
    requires start < |history|
    requires NewFrom(history[start..|history| - 1], key, before, left, after)
    requires NewUnlessStuck(Lookup(history[|history| - 1], key), before, left, after)
    ensures NewFrom(history[start..], key, before, left, after)
  {
  }

  /** The old entry with both temporary files beside it. */
  function Prepared(before: Option<Pair>, body: Bytes, sidecar: Sidecar): Slots {
    Installed(before)[BodyTmp := Data(body)][MetaTmp := Metadata(sidecar)]
  }

  /** The backups while the new pair moves in: the old entry, or on a first write what was
      left there. */
  function Aside(before: Option<Pair>, left: Slots): Slots {
    match before
    case None => left
    case Some(p) => map[BodyBak := Data(p.body), MetaBak := Metadata(p.sidecar)]
  }

  /** The old entry moved to its backups, the new one still temporary. */
  function Moved(before: Option<Pair>, left: Slots, body: Bytes, sidecar: Sidecar): Slots {
    Aside(before, left)[BodyTmp := Data(body)][MetaTmp := Metadata(sidecar)]
  }

  /** The new entry installed, the old one still in its backups. */
  function Replaced(before: Option<Pair>, left: Slots, after: Pair): Slots {
    Aside(before, left)[Body := Data(after.body)][Meta := Metadata(after.sidecar)]
  }

  predicate SameBackups(s: Slots, t: Slots) {
    && (BodyBak in s <==> BodyBak in t) && (BodyBak in s ==> s[BodyBak] == t[BodyBak])
    && (MetaBak in s <==> MetaBak in t) && (MetaBak in s ==> s[MetaBak] == t[MetaBak])
  }

  /** The metadata is not installed, and the backups are as they were set aside. */
  predicate BackedUp(s: Slots, before: Option<Pair>, left: Slots) {
    Meta !in s && SameBackups(s, Aside(before, left)) && (before.Some? ==> Sound(before.value))
  }

  lemma OldWhenInstalled(s: Slots, before: Option<Pair>, left: Slots)
    requires OnlyBackups(left) && (before.Some? ==> Sound(before.value))
    requires match before
             case None => Meta !in s && SameBackups(s, left)
             case Some(p) =>
               Holds(s, Body, Data(p.body)) && Holds(s, Meta, Metadata(p.sidecar)) && (Own(left, p) ==> Own(s, p))
    ensures Old(s, before, left)
  {
  }

  /** The entry's own body is aside, its metadata still in place. */
  lemma OldWhenBodyAside(s: Slots, p: Pair, left: Slots)
    requires Sound(p) && Body !in s
    requires Holds(s, BodyBak, Data(p.body)) && Holds(s, Meta, Metadata(p.sidecar)) && (Own(left, p) ==> Own(s, p))
    ensures Old(s, Some(p), left)
  {
  }

  lemma OldWhenBackedUp(s: Slots, before: Option<Pair>, left: Slots)
    requires OnlyBackups(left) && BackedUp(s, before, left)
    ensures Old(s, before, left)
  {
  }

  /** Stale backups are real: where the metadata's of an older entry could not be removed, the
      first rename of the next replacement leaves nothing to recover, or the old body under
      the older metadata. */
  lemma StaleMetadataLosesEntry(p: Pair, older: Sidecar)
    requires Sound(p) && older != p.sidecar
    ensures var s := Installed(Some(p))[MetaBak := Metadata(older)];
            && Settle(s) == Some(p)
            && Settle(Rename(s, Body, BodyBak)) == if older.length == |p.body| then Some(Pair(older, p.body)) else None
  {
    var s := Installed(Some(p))[MetaBak := Metadata(older)];
    SettleOutcome(s);
    SettleOutcome(Rename(s, Body, BodyBak));
  }

  predicate Beside(s: Slots, plain: Slots) { Remove(Remove(s, BodyBak), MetaBak) == plain }

  lemma PrepareSettles(before: Option<Pair>, left: Slots, body: Bytes, sidecar: Sidecar)
    requires OnlyBackups(left) && (before.Some? ==> Sound(before.value))
    ensures var s := Installed(before) + left;
            && Old(s, before, left) && Old(s[BodyTmp := Data(body)], before, left)
            && s[BodyTmp := Data(body)][MetaTmp := Metadata(sidecar)] == Prepared(before, body, sidecar) + left
            && Old(Prepared(before, body, sidecar) + left, before, left)
    ensures before.None? ==> Prepared(before, body, sidecar) + left == Moved(before, left, body, sidecar)
  {
    hide Old;
    OldWhenInstalled(Installed(before) + left, before, left);
    OldWhenInstalled((Installed(before) + left)[BodyTmp := Data(body)], before, left);
    OldWhenInstalled(Prepared(before, body, sidecar) + left, before, left);
  }

  lemma PreparedBeside(p: Pair, left: Slots, body: Bytes, sidecar: Sidecar)
    requires OnlyBackups(left)
    ensures var s := Prepared(Some(p), body, sidecar) + left;
            Beside(s, Prepared(Some(p), body, sidecar)) && (Own(left, p) ==> Own(s, p))
  {
    var plain := Prepared(Some(p), body, sidecar);
    assert Remove(Remove(plain + left, BodyBak), MetaBak) == plain;
  }

  /** Dropping what was left, as far as that succeeds. */
  lemma LeftoversGo(s: Slots, p: Pair, left: Slots, body: Bytes, sidecar: Sidecar, slot: Slot)
    requires Sound(p) && (Own(left, p) ==> Own(s, p)) && OnlyBackups(left)
    requires Beside(s, Prepared(Some(p), body, sidecar)) && (slot == BodyBak || slot == MetaBak)
    ensures Old(s, Some(p), left) && Old(Remove(s, slot), Some(p), left)
    ensures Beside(Remove(s, slot), Prepared(Some(p), body, sidecar)) && (Own(left, p) ==> Own(Remove(s, slot), p))
  {
    hide Old;
    var plain := Remove(Remove(s, BodyBak), MetaBak);
    assert Body in plain && Meta in plain;
    assert Remove(Remove(Remove(s, slot), BodyBak), MetaBak) == plain;
    OldWhenInstalled(s, Some(p), left);
    OldWhenInstalled(Remove(s, slot), Some(p), left);
  }

  /** Moving both old files aside overwrites whatever was left there. */
  lemma BackupSettles(s: Slots, p: Pair, left: Slots, body: Bytes, sidecar: Sidecar)
    requires Sound(p) && (Own(left, p) ==> Own(s, p)) && OnlyBackups(left)
    requires Beside(s, Prepared(Some(p), body, sidecar))
    ensures var t := Rename(s, Body, BodyBak);
            && Body in s && Meta in t
            && Old(t, Some(p), left) && Old(Rename(t, BodyBak, Body), Some(p), left)
            && Rename(t, Meta, MetaBak) == Moved(Some(p), left, body, sidecar)
            && Old(Moved(Some(p), left, body, sidecar), Some(p), left)
  {
    hide Old;
    var plain := Remove(Remove(s, BodyBak), MetaBak);
    assert Holds(plain, Body, Data(p.body)) && Holds(plain, Meta, Metadata(p.sidecar));
    var t := Rename(s, Body, BodyBak);
    OldWhenBodyAside(t, p, left);
    OldWhenInstalled(Rename(t, BodyBak, Body), Some(p), left);
    OldWhenBackedUp(Moved(Some(p), left, body, sidecar), Some(p), left);
    var u, moved := Rename(t, Meta, MetaBak), Moved(Some(p), left, body, sidecar);
    forall slot: Slot
      ensures slot in u <==> slot in moved
      ensures slot in u ==> u[slot] == moved[slot]
    {
      assert slot in plain <==> slot in s && slot != BodyBak && slot != MetaBak;
    }
  }

  lemma InstallSettles(before: Option<Pair>, left: Slots, body: Bytes, sidecar: Sidecar)
    requires OnlyBackups(left) && (before.Some? ==> Sound(before.value))
    ensures var s := Moved(before, left, body, sidecar);
            && Old(s, before, left)
            && BackedUp(s, before, left) && BodyTmp in s && MetaTmp in Rename(s, BodyTmp, Body)
            && Old(Rename(s, BodyTmp, Body), before, left)
            && BackedUp(Rename(s, BodyTmp, Body), before, left)
            && Rename(Rename(s, BodyTmp, Body), MetaTmp, Meta) == Replaced(before, left, Pair(sidecar, body))
  {
    hide Old;
    var s := Moved(before, left, body, sidecar);
    OldWhenBackedUp(s, before, left);
    OldWhenBackedUp(Rename(s, BodyTmp, Body), before, left);
  }

  /** Every directory a rollback passes through, whichever of its operations fail. */
  lemma RollbackSurvives(c: Slots, before: Option<Pair>, left: Slots)
    requires OnlyBackups(left) && BackedUp(c, before, left)
    ensures BackedUp(Remove(c, Body), before, left) && Remove(c, Meta) == c
    ensures Survives(c, before, left)
    ensures before.Some? ==> Survives(Rename(c, BodyBak, Body), before, left)
    ensures before.Some? ==> Survives(Rename(c, MetaBak, Meta), before, left)
    ensures before.Some? ==> Survives(Rename(Rename(c, BodyBak, Body), MetaBak, Meta), before, left)
  {
    OldWhenBackedUp(c, before, left);
  }

  /** The new entry is installed; what was set aside may still be there. */
  predicate NewInPlace(s: Slots, before: Option<Pair>, left: Slots, after: Pair) {
    && Beside(s, Installed(Some(after)))
    && (BodyBak in s ==> Holds(Aside(before, left), BodyBak, s[BodyBak]))
    && (MetaBak in s ==> Holds(Aside(before, left), MetaBak, s[MetaBak]))
  }

  lemma ReplacedIsInPlace(before: Option<Pair>, left: Slots, after: Pair)
    requires OnlyBackups(left)
    ensures NewInPlace(Replaced(before, left, after), before, left, after)
    ensures Remove(Remove(Replaced(before, left, after), BodyBak), MetaBak) == Installed(Some(after))
  {
    assert Remove(Remove(Replaced(before, left, after), BodyBak), MetaBak) == Installed(Some(after));
  }

  /** From the metadata rename on, exactly the new entry - unless a body backup is left
      alone, and then if and only if it holds the same bytes. */
  predicate NewUnlessStuck(s: Slots, before: Option<Pair>, left: Slots, after: Pair) {
    && NewInPlace(s, before, left, after)
    && (Settle(s) == Some(after) <==> !(BodyBak in s && MetaBak !in s) || s[BodyBak] == Data(after.body))
  }

  ghost predicate NewFrom(stretch: seq<Tree>, key: Key, before: Option<Pair>, left: Slots, after: Pair) {
    forall i :: 0 <= i < |stretch| ==> NewUnlessStuck(Lookup(stretch[i], key), before, left, after)
  }

  lemma InPlaceSettles(s: Slots, before: Option<Pair>, left: Slots, after: Pair)
    requires Sound(after) && NewInPlace(s, before, left, after)
    ensures NewUnlessStuck(s, before, left, after)
    ensures NewInPlace(Remove(s, BodyBak), before, left, after) && NewInPlace(Remove(s, MetaBak), before, left, after)
  {
    var plain := Remove(Remove(s, BodyBak), MetaBak);
    assert Remove(Remove(Remove(s, BodyBak), BodyBak), MetaBak) == plain;
    assert Remove(Remove(Remove(s, MetaBak), BodyBak), MetaBak) == plain;
    assert Holds(plain, Body, Data(after.body)) && Holds(plain, Meta, Metadata(after.sidecar));
  }

  class EntryDirectory {
    var files: map<Key, Slots>
    /** Every directory that has been on disk, oldest first: one more after each file
        operation, also after one that failed. */
    var history: seq<map<Key, Slots>>
    /** The disk's choice: whether the file operation with this number fails. */
    const fails: nat -> bool

    constructor (fails: nat -> bool)
      ensures files == map[] && history == [map[]] && this.fails == fails
    {
      files, history := map[], [map[]];
      this.fails := fails;
    }

    ghost predicate NothingFails(first: nat, next: nat) { forall i :: first <= i < next ==> !fails(i) }

    function At(key: Key): Slots
      reads this
    {
      Lookup(files, key)
    }

    /** One file operation: publishes the entry's next state to disk. */
    method Publish(key: Key, next: Slots)
      modifies this
      ensures files == old(files)[key := next]
      ensures history == old(history) + [files]
    {
      files := files[key := next];
      history := history + [files];
    }

    /** A removal may fail; its error is ignored. */
    method RemoveFile(key: Key, slot: Slot) returns (gone: bool)
      modifies this
      ensures gone <==> slot !in old(At(key)) || !fails(|old(history)|)
      ensures files == old(files)[key := if gone then Remove(old(At(key)), slot) else old(At(key))]
      ensures history == old(history) + [files]
    {
      gone := !fails(|history|) || slot !in At(key);
      Publish(key, if gone then Remove(At(key), slot) else At(key));
    }

    /** A rename may fail; it then leaves the directory as it was. */
    method RenameFile(key: Key, from: Slot, to: Slot) returns (ok: bool)
      modifies this
      ensures ok <==> from in old(At(key)) && !fails(|old(history)|)
      ensures files == old(files)[key := if ok then Rename(old(At(key)), from, to) else old(At(key))]
      ensures history == old(history) + [files]
    {
      ok := !fails(|history|) && from in At(key);
      Publish(key, if ok then Rename(At(key), from, to) else At(key));
    }

    // File operations in the middle of a replacement: both of their outcomes are old, or
    // survive, so the history goes on doing so.

    method RemoveOld(key: Key, slot: Slot, ghost start: nat, ghost before: Option<Pair>, ghost left: Slots)
        returns (gone: bool)
      requires start <= |history| && AllOld(history[start..], key, before, left)
      requires Old(At(key), before, left) && Old(Remove(At(key), slot), before, left)
      modifies this
      ensures At(key) == if gone then Remove(old(At(key)), slot) else old(At(key))
      ensures forall other :: other != key ==> At(other) == old(At(other))
      ensures old(history) <= history && start < |history| && history[|history| - 1] == files
      ensures AllOld(history[start..], key, before, left) && AllSurvive(history[start..], key, before, left)
      ensures |history| == |old(history)| + 1 && (!fails(|old(history)|) ==> gone)
    {
      hide Old, Remove;
      gone := RemoveFile(key, slot);
      OldStep(history, start, key, before, left);
    }

    method RenameOld(key: Key, from: Slot, to: Slot, ghost start: nat, ghost before: Option<Pair>, ghost left: Slots)
        returns (ok: bool)
      requires start <= |history| && AllOld(history[start..], key, before, left)
      requires Old(At(key), before, left) && Old(Rename(At(key), from, to), before, left)
      modifies this
      ensures At(key) == if ok then Rename(old(At(key)), from, to) else old(At(key))
      ensures forall other :: other != key ==> At(other) == old(At(other))
      ensures old(history) <= history && start < |history| && history[|history| - 1] == files
      ensures AllOld(history[start..], key, before, left) && AllSurvive(history[start..], key, before, left)
      ensures |history| == |old(history)| + 1 && (!fails(|old(history)|) && from in old(At(key)) ==> ok)
    {
      hide Old, Rename;
      ok := RenameFile(key, from, to);
      OldStep(history, start, key, before, left);
    }

    method RemoveSurviving(key: Key, slot: Slot, ghost start: nat, ghost before: Option<Pair>, ghost left: Slots)
        returns (gone: bool)
      requires start <= |history| && AllSurvive(history[start..], key, before, left)
      requires Survives(At(key), before, left) && Survives(Remove(At(key), slot), before, left)
      modifies this
      ensures At(key) == if gone then Remove(old(At(key)), slot) else old(At(key))
      ensures forall other :: other != key ==> At(other) == old(At(other))
      ensures old(history) <= history && start < |history| && history[|history| - 1] == files
      ensures AllSurvive(history[start..], key, before, left)
      ensures |history| == |old(history)| + 1 && (!fails(|old(history)|) ==> gone)
    {
      hide Survives, Remove;
      gone := RemoveFile(key, slot);
      SurvivingStep(history, start, key, before, left);
    }

    method RenameSurviving(
      key: Key, from: Slot, to: Slot, ghost start: nat, ghost before: Option<Pair>, ghost left: Slots)
        returns (ok: bool)
      requires start <= |history| && AllSurvive(history[start..], key, before, left)
      requires Survives(At(key), before, left) && Survives(Rename(At(key), from, to), before, left)
      modifies this
      ensures At(key) == if ok then Rename(old(At(key)), from, to) else old(At(key))
      ensures forall other :: other != key ==> At(other) == old(At(other))
      ensures old(history) <= history && start < |history| && history[|history| - 1] == files
      ensures AllSurvive(history[start..], key, before, left)
      ensures |history| == |old(history)| + 1 && (!fails(|old(history)|) && from in old(At(key)) ==> ok)
    {
      hide Survives, Rename;
      ok := RenameFile(key, from, to);
      SurvivingStep(history, start, key, before, left);
    }

    method RemoveExposed(key: Key, slot: Slot, ghost original: Tree, ghost clean: bool) returns (gone: bool)
      requires Exposed(original, files, clean)
      requires Outlives(Lookup(original, key), At(key)) && Outlives(Lookup(original, key), Remove(At(key), slot))
      requires clean ==> RecoveryCut(Lookup(original, key), Remove(At(key), slot))
      modifies this
      ensures gone ==> At(key) == Remove(old(At(key)), slot)
      ensures !gone ==> At(key) == old(At(key))
      ensures forall other :: other != key ==> At(other) == old(At(other))
      ensures history == old(history) + [files] && Exposed(original, files, clean && gone)
      ensures !fails(|old(history)|) ==> gone
    {
      hide Outlives, RecoveryCut, Remove, Cuts, AllOutlive;
      ghost var before := files;
      gone := RemoveFile(key, slot);
      ExposedStep(original, before, files, key, clean, clean && gone);
    }

    /** A rename of a missing file is no failure here. */
    method RenameExposed(key: Key, from: Slot, to: Slot, ghost original: Tree, ghost clean: bool) returns (ok: bool)
      requires Exposed(original, files, clean)
      requires Outlives(Lookup(original, key), At(key)) && Outlives(Lookup(original, key), Rename(At(key), from, to))
      requires clean ==> RecoveryCut(Lookup(original, key), Rename(At(key), from, to))
      modifies this
      ensures ok ==> At(key) == Rename(old(At(key)), from, to)
      ensures !ok ==> At(key) == old(At(key))
      ensures forall other :: other != key ==> At(other) == old(At(other))
      ensures history == old(history) + [files] && Exposed(original, files, clean && ok)
      ensures !fails(|old(history)|) ==> ok
    {
      hide Outlives, RecoveryCut, Cuts, AllOutlive;
      ghost var before := files;
      var there := from in At(key);
      ok := RenameFile(key, from, to);
      ok := ok || !there;
      ExposedStep(original, before, files, key, clean, clean && ok);
    }

    /** The undo of a replacement whose second half could not be renamed. */
    method Rollback(key: Key, replacing: bool, ghost start: nat, ghost before: Option<Pair>, ghost left: Slots)
      requires before.Some? <==> replacing
      requires OnlyBackups(left) && BackedUp(At(key), before, left)
      requires start <= |history| && AllSurvive(history[start..], key, before, left)
      modifies this
      ensures forall other :: other != key ==> At(other) == old(At(other))
      ensures old(history) <= history && start < |history| && history[|history| - 1] == files
      ensures Survives(At(key), before, left)
      ensures AllSurvive(history[start..], key, before, left)
    {
      hide Survives, BackedUp, Remove, Rename, AllSurvive;
      RollbackSurvives(At(key), before, left);
      RollbackSurvives(Remove(At(key), Body), before, left);
      var gone := RemoveSurviving(key, Body, start, before, left);
      gone := RemoveSurviving(key, Meta, start, before, left);
      if replacing {
        var ok := RenameSurviving(key, BodyBak, Body, start, before, left);
        ok := RenameSurviving(key, MetaBak, Meta, start, before, left);
      }
    }

    /** The deferred removal of both temporary files on a failure path. */
    method DropTemps(key: Key, ghost start: nat, ghost before: Option<Pair>, ghost left: Slots)
      requires start < |history| && history[|history| - 1] == files
      requires AllSurvive(history[start..], key, before, left)
      modifies this
      ensures forall other :: other != key ==> At(other) == old(At(other))
      ensures old(history) <= history && history[|history| - 1] == files
      ensures AllSurvive(history[start..], key, before, left)
    {
      hide Survives;
      assert history[start..][|history| - 1 - start] == files;
      assert Survives(At(key), before, left);
      TempsDoNotSettle(At(key), MetaTmp, before, left);
      var gone := RemoveSurviving(key, MetaTmp, start, before, left);
      TempsDoNotSettle(At(key), BodyTmp, before, left);
      gone := RemoveSurviving(key, BodyTmp, start, before, left);
    }

    /** Replaces an entry's two files, beside whatever backups were `left` there. Cut after
        any file operation, one recovery and load give exactly the old entry up to the
        metadata rename, unless an older backup is stale. From there on they give exactly
        the new one, unless the old body's backup could not be removed while the old
        metadata's could. A first write changes nothing until its metadata rename. Failure
        is reported if and only if the new entry was not installed or one of the two final
        directory syncs failed. */
    method ReplacePair(
      key: Key, body: Bytes, sidecar: Sidecar, replacing: bool, synced: bool,
      ghost before: Option<Pair>, ghost left: Slots)
        returns (ok: bool, ghost installed: bool, ghost cut: nat)
      requires Sound(Pair(sidecar, body))
      requires before.Some? <==> replacing
      requires replacing ==> Sound(before.value)
      requires OnlyBackups(left) && At(key) == Installed(before) + left
      modifies this
      ensures forall other :: other != key ==> At(other) == old(At(other))
      ensures old(history) <= history
      ensures ok <==> installed && synced
      ensures installed ==> NewInPlace(At(key), before, left, Pair(sidecar, body))
      ensures installed ==> |old(history)| <= cut < |history|
      ensures installed ==> AllOld(history[|old(history)|..cut], key, before, left)
      ensures installed ==> NewFrom(history[cut..], key, before, left, Pair(sidecar, body))
      ensures !installed ==> AllSurvive(history[|old(history)|..], key, before, left)
      ensures installed && Clean(left, before) ==> AllSettle(history[|old(history)|..cut], key, before)
      ensures !installed && Clean(left, before) ==> FailureSettles(history[|old(history)|..], key, before)
      ensures NothingFails(|old(history)|, |history|) ==>
        installed && At(key) == Installed(Some(Pair(sidecar, body)))
    {
      hide AllOld, AllSurvive, AllSettle, FailureSettles, NewFrom, NewInPlace, Clean;
      ghost var start := |history|;
      var renamed;
      renamed, cut := InstallPair(key, body, sidecar, replacing, before, left);
      installed := renamed;
      if Clean(left, before) {
        CleanSettles(if installed then history[start..cut] else history[start..], key, before, left);
      }
      ok := renamed && synced;
    }

    /** All of it but the final directory syncs. */
    method InstallPair(
      key: Key, body: Bytes, sidecar: Sidecar, replacing: bool, ghost before: Option<Pair>, ghost left: Slots)
        returns (installed: bool, ghost cut: nat)
      requires Sound(Pair(sidecar, body))
      requires before.Some? <==> replacing
      requires replacing ==> Sound(before.value)
      requires OnlyBackups(left) && At(key) == Installed(before) + left
      modifies this
      ensures forall other :: other != key ==> At(other) == old(At(other))
      ensures old(history) <= history
      ensures installed ==> NewInPlace(At(key), before, left, Pair(sidecar, body))
      ensures installed ==> |old(history)| <= cut < |history|
      ensures installed ==> AllOld(history[|old(history)|..cut], key, before, left)
      ensures installed ==> NewFrom(history[cut..], key, before, left, Pair(sidecar, body))
      ensures !installed ==> AllSurvive(history[|old(history)|..], key, before, left)
      ensures NothingFails(|old(history)|, |history|) ==>
        installed && At(key) == Installed(Some(Pair(sidecar, body)))
    {
      hide Old, Survives, BackedUp, Replaced, Prepared, Installed, AllOld, AllSurvive;
      ghost var start := |history|;
      cut := start;
      installed := WriteTemps(key, body, sidecar, before, left);
      if !installed {
        DropTemps(key, start, before, left);
        return;
      }
      if replacing {
        installed := MoveAside(key, body, sidecar, start, before, left);
        if !installed {
          DropTemps(key, start, before, left);
          return;
        }
      }
      installed := MoveIn(key, body, sidecar, start, before, left);
      if !installed {
        Rollback(key, replacing, start, before, left);
        DropTemps(key, start, before, left);
        return;
      }
      cut := |history| - 1;
      ghost var settled := history[start..cut];
      DropBackups(key, Pair(sidecar, body), cut, before, left);
      assert history[start..cut] == settled;
    }

    /** Writes both temporary files; either write may fail. */
    method WriteTemps(key: Key, body: Bytes, sidecar: Sidecar, ghost before: Option<Pair>, ghost left: Slots)
        returns (ok: bool)
      requires before.Some? ==> Sound(before.value)
      requires OnlyBackups(left) && At(key) == Installed(before) + left
      modifies this
      ensures forall other :: other != key ==> At(other) == old(At(other))
      ensures old(history) <= history && |old(history)| < |history| && history[|history| - 1] == files
      ensures ok ==> At(key) == Prepared(before, body, sidecar) + left
      ensures ok && before.None? ==> At(key) == Moved(before, left, body, sidecar)
      ensures AllOld(history[|old(history)|..], key, before, left)
      ensures AllSurvive(history[|old(history)|..], key, before, left)
      ensures NothingFails(|old(history)|, |history|) ==> ok
    {
      hide Old, Survives, Prepared, Installed, Moved;
      ghost var start := |history|;
      PrepareSettles(before, left, body, sidecar);
      Publish(key, At(key));
      OldStep(history, start, key, before, left);
      var bodyWritten := !fails(|history|);
      Publish(key, if bodyWritten then At(key)[BodyTmp := Data(body)] else At(key));
      OldStep(history, start, key, before, left);
      if !bodyWritten {
        return false;
      }
      ok := !fails(|history|);
      Publish(key, if ok then At(key)[MetaTmp := Metadata(sidecar)] else At(key));
      OldStep(history, start, key, before, left);
    }

    /** The first half of a replacement: both old files move to their backups. */
    method MoveAside(
      key: Key, body: Bytes, sidecar: Sidecar, ghost start: nat, ghost before: Option<Pair>, ghost left: Slots)
        returns (ok: bool)
      requires before.Some? && Sound(before.value) && OnlyBackups(left)
      requires At(key) == Prepared(before, body, sidecar) + left
      requires start <= |history| && AllOld(history[start..], key, before, left)
      modifies this
      ensures forall other :: other != key ==> At(other) == old(At(other))
      ensures old(history) <= history && start < |history| && history[|history| - 1] == files
      ensures AllOld(history[start..], key, before, left)
      ensures AllSurvive(history[start..], key, before, left)
      ensures ok ==> At(key) == Moved(before, left, body, sidecar)
      ensures NothingFails(|old(history)|, |history|) ==> ok
    {
      hide Old, AllOld, AllSurvive, Prepared, Moved, Rename, Beside, Own, OnlyBackups, Sound;
      ghost var p := before.value;
      DropLeftovers(key, body, sidecar, start, p, left);
      BackupSettles(At(key), p, left, body, sidecar);
      LeftoversGo(At(key), p, left, body, sidecar, MetaBak);
      ok := RenameOld(key, Body, BodyBak, start, before, left);
      if !ok {
        return;
      }
      ok := RenameOld(key, Meta, MetaBak, start, before, left);
      if !ok {
        var undone := RenameOld(key, BodyBak, Body, start, before, left);
      }
    }

    /** Removes what an earlier replacement left, as far as that succeeds. */
    method DropLeftovers(key: Key, ghost body: Bytes, ghost sidecar: Sidecar, ghost start: nat, ghost p: Pair,
                         ghost left: Slots)
      requires Sound(p) && OnlyBackups(left) && At(key) == Prepared(Some(p), body, sidecar) + left
      requires start <= |history| && AllOld(history[start..], key, Some(p), left)
      modifies this
      ensures forall other :: other != key ==> At(other) == old(At(other))
      ensures old(history) <= history && |history| == |old(history)| + 2 && start < |history|
      ensures history[|history| - 1] == files && AllOld(history[start..], key, Some(p), left)
      ensures Beside(At(key), Prepared(Some(p), body, sidecar)) && (Own(left, p) ==> Own(At(key), p))
    {
      hide Old, AllOld, AllSurvive, Prepared, Remove, Beside, Own, OnlyBackups, Sound;
      PreparedBeside(p, left, body, sidecar);
      LeftoversGo(At(key), p, left, body, sidecar, BodyBak);
      var gone := RemoveOld(key, BodyBak, start, Some(p), left);
      LeftoversGo(At(key), p, left, body, sidecar, MetaBak);
      gone := RemoveOld(key, MetaBak, start, Some(p), left);
    }

    /** The second half: both new files move in. Only the last rename changes what a
        restart would find. */
    method MoveIn(
      key: Key, body: Bytes, sidecar: Sidecar, ghost start: nat, ghost before: Option<Pair>, ghost left: Slots)
        returns (ok: bool)
      requires Sound(Pair(sidecar, body)) && OnlyBackups(left)
      requires before.Some? ==> Sound(before.value)
      requires At(key) == Moved(before, left, body, sidecar)
      requires start < |history| && history[|history| - 1] == files
      requires AllOld(history[start..], key, before, left)
      modifies this
      ensures forall other :: other != key ==> At(other) == old(At(other))
      ensures old(history) <= history && start < |history| - 1
      ensures history[|history| - 1] == files
      ensures AllOld(history[start..|history| - 1], key, before, left)
      ensures ok ==> At(key) == Replaced(before, left, Pair(sidecar, body))
      ensures !ok ==> BackedUp(At(key), before, left) && AllSurvive(history[start..], key, before, left)
      ensures NothingFails(|old(history)|, |history|) ==> ok
    {
      hide Old, Survives, Moved, Replaced, BackedUp, Rename;
      InstallSettles(before, left, body, sidecar);
      ok := RenameFile(key, BodyTmp, Body);
      OldStep(history, start, key, before, left);
      if !ok {
        return;
      }
      ghost var settled := history;
      ok := RenameFile(key, MetaTmp, Meta);
      assert history[..|history| - 1] == settled;
      assert history[start..|history| - 1] == settled[start..];
      if !ok {
        OldStep(history, start, key, before, left);
      }
    }

    /** Past the metadata rename only the backups are left to remove, and may stay. */
    method DropBackups(key: Key, ghost after: Pair, ghost cut: nat, ghost before: Option<Pair>, ghost left: Slots)
      requires Sound(after) && OnlyBackups(left)
      requires cut + 1 == |history| && history[cut] == files
      requires At(key) == Replaced(before, left, after)
      modifies this
      ensures forall other :: other != key ==> At(other) == old(At(other))
      ensures old(history) <= history
      ensures NewInPlace(At(key), before, left, after)
      ensures NewFrom(history[cut..], key, before, left, after)
      ensures NothingFails(|old(history)|, |history|) ==> At(key) == Installed(Some(after))
    {
      hide NewInPlace, NewUnlessStuck, Replaced, OnlyBackups, Sound;
      ReplacedIsInPlace(before, left, after);
      InPlaceSettles(At(key), before, left, after);
      NewStep(history, cut, key, before, left, after);
      var gone := RemoveLeftover(key, BodyBak, after, cut, before, left);
      gone := RemoveLeftover(key, MetaBak, after, cut, before, left);
    }

    method RemoveLeftover(
      key: Key, slot: Slot, ghost after: Pair, ghost cut: nat, ghost before: Option<Pair>, ghost left: Slots)
        returns (gone: bool)
      requires Sound(after) && (slot == BodyBak || slot == MetaBak)
      requires NewInPlace(At(key), before, left, after)
      requires cut < |history| && NewFrom(history[cut..], key, before, left, after)
      modifies this
      ensures forall other :: other != key ==> At(other) == old(At(other))
      ensures old(history) <= history
      ensures NewInPlace(At(key), before, left, after)
      ensures NewFrom(history[cut..], key, before, left, after)
      ensures |history| == |old(history)| + 1 && (!fails(|old(history)|) ==> At(key) == Remove(old(At(key)), slot))
    {
      hide NewInPlace, NewUnlessStuck, Remove, Sound;
      InPlaceSettles(At(key), before, left, after);
      gone := RemoveFile(key, slot);
      InPlaceSettles(At(key), before, left, after);
      NewStep(history, cut, key, before, left, after);
    }

    /** The whole startup recovery: two walks over the entries in any order. While nothing
        fails, every directory exposed on the way cuts each entry's own recovery somewhere.
        Whatever fails, an entry that did not start half restored keeps its outcome in every
        directory with both of its backups or neither. */
    method RecoverBackups(keys: seq<Key>) returns (clean: bool)
      requires forall i, j :: 0 <= i < j < |keys| ==> keys[i] != keys[j]
      modifies this
      ensures forall key :: key !in keys ==> At(key) == old(At(key))
      ensures old(history) <= history
      ensures clean ==> forall key :: key in keys ==> At(key) == Recover(old(At(key)))
      ensures clean ==> forall i :: |old(history)| <= i < |history| ==> Cuts(old(files), history[i])
      ensures forall i :: |old(history)| <= i < |history| ==> AllOutlive(old(files), history[i])
      ensures NothingFails(|old(history)|, |history|) ==> clean
    {
      hide RecoverBody, RecoverMeta, Cuts, AllOutlive;
      WholeIsExposed(files);
      ghost var original := files;
      var first := WalkBodies(keys, original);
      var second := WalkMetas(keys, original, first);
      clean := first && second;
    }

    /** The whole first walk. */
    method WalkBodies(keys: seq<Key>, ghost original: Tree) returns (clean: bool)
      requires forall i, j :: 0 <= i < j < |keys| ==> keys[i] != keys[j]
      requires files == original && Exposed(original, files, true)
      modifies this
      ensures forall key :: key in keys ==> WalkedBody(Lookup(original, key), At(key), clean)
      ensures forall key :: key !in keys ==> At(key) == old(At(key))
      ensures old(history) <= history && Exposed(original, files, clean)
      ensures forall i :: |old(history)| <= i < |history| ==> Exposed(original, history[i], clean)
      ensures NothingFails(|old(history)|, |history|) ==> clean
    {
      hide RecoverBody, RecoverMeta, Cuts, AllOutlive, WalkedBody;
      clean := true;
      for n := 0 to |keys|
        invariant forall m :: 0 <= m < n ==> WalkedBody(Lookup(original, keys[m]), At(keys[m]), clean)
        invariant forall key :: key !in keys[..n] ==> At(key) == old(At(key))
        invariant old(history) <= history && Exposed(original, files, clean)
        invariant NothingFails(|old(history)|, |history|) ==> clean
        invariant forall i :: |old(history)| <= i < |history| ==> Exposed(original, history[i], clean)
      {
        ghost var before := clean;
        var ok := WalkBody(keys[n], original, clean);
        clean := clean && ok;
        forall m | 0 <= m <= n
          ensures WalkedBody(Lookup(original, keys[m]), At(keys[m]), clean)
        {
          LessClean(Lookup(original, keys[m]), At(keys[m]), if m < n then before else ok, clean);
        }
      }
    }

    lemma LessClean(s: Slots, t: Slots, was: bool, clean: bool)
      requires WalkedBody(s, t, was) && (clean ==> was)
      ensures WalkedBody(s, t, clean)
    {
    }

    /** The whole second walk. */
    method WalkMetas(keys: seq<Key>, ghost original: Tree, ghost wasClean: bool) returns (clean: bool)
      requires forall i, j :: 0 <= i < j < |keys| ==> keys[i] != keys[j]
      requires forall key :: key in keys ==> WalkedBody(Lookup(original, key), At(key), wasClean)
      requires Exposed(original, files, wasClean)
      modifies this
      ensures forall key :: key !in keys ==> At(key) == old(At(key))
      ensures old(history) <= history
      ensures wasClean && clean ==> forall key :: key in keys ==> At(key) == Recover(Lookup(original, key))
      ensures forall i :: |old(history)| <= i < |history| ==> Exposed(original, history[i], wasClean && clean)
      ensures NothingFails(|old(history)|, |history|) ==> clean
    {
      hide RecoverBody, RecoverMeta, Cuts, AllOutlive, WalkedBody, Recover;
      clean := true;
      for n := 0 to |keys|
        invariant wasClean && clean ==> forall m :: 0 <= m < n ==> At(keys[m]) == Recover(Lookup(original, keys[m]))
        invariant forall m :: n <= m < |keys| ==> At(keys[m]) == old(At(keys[m]))
        invariant forall key :: key !in keys ==> At(key) == old(At(key))
        invariant old(history) <= history && Exposed(original, files, wasClean && clean)
        invariant NothingFails(|old(history)|, |history|) ==> clean
        invariant forall i :: |old(history)| <= i < |history| ==> Exposed(original, history[i], wasClean && clean)
      {
        LessClean(Lookup(original, keys[n]), At(keys[n]), wasClean, wasClean && clean);
        var ok := WalkMeta(keys[n], original, wasClean && clean);
        clean := clean && ok;
      }
    }

    /** The first walk at one entry. */
    method WalkBody(key: Key, ghost original: Tree, ghost clean: bool) returns (ok: bool)
      requires At(key) == Lookup(original, key)
      requires Exposed(original, files, clean)
      modifies this
      ensures WalkedBody(Lookup(original, key), At(key), ok)
      ensures forall other :: other != key ==> At(other) == old(At(other))
      ensures old(history) <= history && Exposed(original, files, clean && ok)
      ensures forall i :: |old(history)| <= i < |history| ==> Exposed(original, history[i], clean && ok)
      ensures NothingFails(|old(history)|, |history|) ==> ok
    {
      hide Outlives, RecoveryCut, Cuts, AllOutlive;
      ok := true;
      if BodyBak in At(key) && MetaBak !in At(key) {
        ghost var s := Lookup(original, key);
        BodyWalkOutlives(s);
        var gone := RemoveExposed(key, Body, original, clean);
        var moved := RenameExposed(key, BodyBak, Body, original, clean && gone);
        ok := gone && moved;
      }
    }

    /** The second walk at one entry. */
    method WalkMeta(key: Key, ghost original: Tree, ghost clean: bool) returns (ok: bool)
      requires WalkedBody(Lookup(original, key), At(key), clean)
      requires Exposed(original, files, clean)
      modifies this
      ensures clean && ok ==> At(key) == Recover(Lookup(original, key))
      ensures forall other :: other != key ==> At(other) == old(At(other))
      ensures old(history) <= history && Exposed(original, files, clean && ok)
      ensures forall i :: |old(history)| <= i < |history| ==> Exposed(original, history[i], clean && ok)
      ensures NothingFails(|old(history)|, |history|) ==> ok
    {
      hide ValidPair, BodyWalk, RecoverBody, Cuts, AllOutlive;
      ok := true;
      if MetaBak !in At(key) {
        return;
      }
      if !At(key)[MetaBak].Metadata? {
        ok := DropPair(key, original, MetaBak, BodyBak, clean);
      } else if ValidPair(At(key)) {
        ok := DropPair(key, original, BodyBak, MetaBak, clean);
      } else {
        ok := RestoreBackups(key, original, clean);
      }
    }

    /** Removes both backups: they are unreadable, or the installed pair is whole. */
    method DropPair(key: Key, ghost original: Tree, first: Slot, second: Slot, ghost clean: bool) returns (ok: bool)
      requires At(key) == Lookup(original, key) && MetaBak in At(key)
      requires if At(key)[MetaBak].Metadata? then ValidPair(At(key)) && first == BodyBak && second == MetaBak
               else first == MetaBak && second == BodyBak
      requires Exposed(original, files, clean)
      modifies this
      ensures clean && ok ==> At(key) == Recover(Lookup(original, key))
      ensures forall other :: other != key ==> At(other) == old(At(other))
      ensures old(history) <= history && Exposed(original, files, clean && ok)
      ensures forall i :: |old(history)| <= i < |history| ==> Exposed(original, history[i], clean && ok)
      ensures NothingFails(|old(history)|, |history|) ==> ok
    {
      ghost var s := Lookup(original, key);
      DropCuts(s);
      DropOutlives(s);
      hide ValidPair, RecoveryCut, Recover, Outlives, Cuts, AllOutlive, Remove;
      var gone := RemoveExposed(key, first, original, clean);
      var last := RemoveExposed(key, second, original, clean && gone);
      ok := gone && last;
    }

    /** Clears whatever halves are there, then puts both backups back. */
    method RestoreBackups(key: Key, ghost original: Tree, ghost clean: bool) returns (ok: bool)
      requires At(key) == Lookup(original, key)
      requires MetaBak in At(key) && At(key)[MetaBak].Metadata? && !ValidPair(At(key))
      requires Exposed(original, files, clean)
      modifies this
      ensures clean && ok ==> At(key) == Recover(Lookup(original, key))
      ensures forall other :: other != key ==> At(other) == old(At(other))
      ensures old(history) <= history && Exposed(original, files, clean && ok)
      ensures forall i :: |old(history)| <= i < |history| ==> Exposed(original, history[i], clean && ok)
      ensures NothingFails(|old(history)|, |history|) ==> ok
    {
      RestoreCuts(Lookup(original, key));
      hide ValidPair, RecoveryCut, Recover, Cuts, AllOutlive, Cleared;
      var cleared := ClearHalves(key, original, clean);
      var restored := MoveBack(key, original, clean, cleared);
      ok := cleared && restored;
    }

    method ClearHalves(key: Key, ghost original: Tree, ghost clean: bool) returns (ok: bool)
      requires At(key) == Lookup(original, key)
      requires MetaBak in At(key) && At(key)[MetaBak].Metadata? && !ValidPair(At(key))
      requires Exposed(original, files, clean)
      modifies this
      ensures Cleared(Lookup(original, key), At(key))
      ensures ok ==> At(key) == Remove(Remove(Lookup(original, key), Body), Meta)
      ensures forall other :: other != key ==> At(other) == old(At(other))
      ensures old(history) <= history && Exposed(original, files, clean && ok)
      ensures forall i :: |old(history)| <= i < |history| ==> Exposed(original, history[i], clean && ok)
      ensures NothingFails(|old(history)|, |history|) ==> ok
    {
      ghost var s := Lookup(original, key);
      RestoreCuts(s);
      ClearedSteps(s);
      hide ValidPair, RecoveryCut, Recover, Outlives, Cuts, AllOutlive, Cleared, Remove, Rename;
      RestoreOutlives(s, s);
      RestoreOutlives(s, Remove(s, Body));
      RestoreOutlives(s, Remove(s, Meta));
      RestoreOutlives(s, Remove(Remove(s, Body), Meta));
      var bodyGone := RemoveExposed(key, Body, original, clean);
      var metaGone := RemoveExposed(key, Meta, original, clean && bodyGone);
      ok := bodyGone && metaGone;
    }

    method MoveBack(key: Key, ghost original: Tree, ghost clean: bool, ghost cleared: bool) returns (ok: bool)
      requires var s := Lookup(original, key); MetaBak in s && s[MetaBak].Metadata? && !ValidPair(s)
      requires Cleared(Lookup(original, key), At(key))
      requires cleared ==> At(key) == Remove(Remove(Lookup(original, key), Body), Meta)
      requires Exposed(original, files, clean && cleared)
      modifies this
      ensures clean && cleared && ok ==> At(key) == Recover(Lookup(original, key))
      ensures forall other :: other != key ==> At(other) == old(At(other))
      ensures old(history) <= history && Exposed(original, files, clean && cleared && ok)
      ensures forall i :: |old(history)| <= i < |history| ==> Exposed(original, history[i], clean && cleared && ok)
      ensures NothingFails(|old(history)|, |history|) ==> ok
    {
      ghost var s := Lookup(original, key);
      RestoreCuts(s);
      RestoreOutlives(s, At(key));
      hide ValidPair, RecoveryCut, Recover, Outlives, Cuts, AllOutlive, Cleared, Remove, Rename;
      var bodyMoved := RenameExposed(key, BodyBak, Body, original, clean && cleared);
      var metaMoved := RenameExposed(key, MetaBak, Meta, original, clean && cleared && bodyMoved);
      ok := bodyMoved && metaMoved;
    }
  }

  /** The directories of a restore, one after each file operation. */
  lemma RestoreCuts(s: Slots)
    requires MetaBak in s && s[MetaBak].Metadata? && !ValidPair(s)
    ensures var cleared := Remove(Remove(s, Body), Meta);
            var moved := Rename(cleared, BodyBak, Body);
            && Recover(s) == Rename(moved, MetaBak, Meta)
            && RecoveryCut(s, s) && RecoveryCut(s, Remove(s, Body)) && RecoveryCut(s, cleared)
            && RecoveryCut(s, moved) && RecoveryCut(s, Recover(s))
            && (BodyBak !in cleared ==> moved == cleared)
  {
    var walk := MetaWalk(RecoverBody(s));
    var cleared := Remove(Remove(s, Body), Meta);
    assert walk[0] == s && walk[1] == Remove(s, Body) && walk[2] == cleared;
    assert walk[3] == Rename(cleared, BodyBak, Body) && walk[4] == Recover(s);
  }

  /** The directories of dropping both backups, one after each file operation. */
  lemma DropCuts(s: Slots)
    requires MetaBak in s && (!s[MetaBak].Metadata? || ValidPair(s))
    ensures RecoveryCut(s, s) && RecoveryCut(s, Recover(s))
    ensures if s[MetaBak].Metadata?
            then RecoveryCut(s, Remove(s, BodyBak)) && Recover(s) == Remove(Remove(s, BodyBak), MetaBak)
            else RecoveryCut(s, Remove(s, MetaBak)) && Recover(s) == Remove(Remove(s, MetaBak), BodyBak)
  {
    var walk := MetaWalk(RecoverBody(s));
    assert walk[0] == s && walk[2] == Recover(s);
    assert walk[1] == if s[MetaBak].Metadata? then Remove(s, BodyBak) else Remove(s, MetaBak);
  }

  lemma ClearedSteps(s: Slots)
    ensures Cleared(s, s) && Cleared(s, Remove(s, Body)) && Cleared(s, Remove(s, Meta))
    ensures Cleared(s, Remove(Remove(s, Body), Meta))
  {
  }

  /** What the first walk leaves of an entry, and exactly so when nothing failed. */
  predicate WalkedBody(s: Slots, t: Slots, clean: bool) {
    && (MetaBak in s <==> MetaBak in t)
    && (MetaBak in s ==> t == s && t == RecoverBody(s))
    && (clean ==> t == RecoverBody(s))
  }

  ghost predicate AllOutlive(original: Tree, tree: Tree) {
    forall key :: Outlives(Lookup(original, key), Lookup(tree, key))
  }

  /** A directory exposed by the recovery of `original`, which was clean so far or not. */
  ghost predicate Exposed(original: Tree, tree: Tree, clean: bool) {
    AllOutlive(original, tree) && (clean ==> Cuts(original, tree))
  }

  lemma ExposedStep(original: Tree, before: Tree, after: Tree, key: Key, wasClean: bool, clean: bool)
    requires Exposed(original, before, wasClean) && (clean ==> wasClean)
    requires forall other :: other != key ==> Lookup(after, other) == Lookup(before, other)
    requires Outlives(Lookup(original, key), Lookup(after, key))
    requires clean ==> RecoveryCut(Lookup(original, key), Lookup(after, key))
    ensures Exposed(original, after, clean)
  {
    hide Outlives, RecoveryCut;
  }

  /** Every entry of `tree` is a cut of its own recovery from `original`. */
  ghost predicate Cuts(original: Tree, tree: Tree) {
    forall key :: RecoveryCut(Lookup(original, key), Lookup(tree, key))
  }

  lemma WholeIsExposed(tree: Tree)
    ensures Exposed(tree, tree, true)
  {
    forall key
      ensures RecoveryCut(Lookup(tree, key), Lookup(tree, key))
    {
      assert BodyWalk(Lookup(tree, key))[0] == Lookup(tree, key);
    }
  }

  lemma TempsDoNotSettle(s: Slots, slot: Slot, before: Option<Pair>, left: Slots)
    requires slot == BodyTmp || slot == MetaTmp
    ensures Survives(s, before, left) ==> Survives(Remove(s, slot), before, left)
  {
    TempsAreApart(s, slot);
  }

  lemma TempsAreApart(s: Slots, slot: Slot)
    requires slot == BodyTmp || slot == MetaTmp
    ensures Settle(Remove(s, slot)) == Settle(s)
    ensures HalfRestored(Remove(s, slot)) == HalfRestored(s)
  {
  }
}
