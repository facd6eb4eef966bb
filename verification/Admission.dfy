/**
  How fast new keys may enter the cache, and how many bytes one pack may add.
 */
module Admission {
  const WINDOW_SECONDS := 60

  /** A fixed window: when it opened (zero before the first use) and what it let in. */
  datatype Window = Window(start: int, count: nat)

  /** The window an attempt at `now` is charged to. */
  function Current(w: Window, now: int): Window {
    if w.start == 0 || now - w.start >= WINDOW_SECONDS then Window(now, 0) else w
  }

  /** No span shorter than a minute holds more than twice the limit of admissions. */
  ghost predicate Paced(admitted: seq<int>, limit: nat) {
    forall i, j :: 0 <= i && i + 2 * limit <= j < |admitted| ==> admitted[j] - admitted[i] >= WINDOW_SECONDS
  }

  /** The window's book-keeping against the times of every admission so far. The last
      `count` fell in the open window, those before `earlier` ended a minute before it. */
  ghost predicate Tracks(w: Window, limit: nat, admitted: seq<int>, earlier: nat) {
    var recent := |admitted| - w.count;
    && w.count <= limit
    && earlier <= recent <= earlier + limit
    && (w.start == 0 ==> admitted == [])
    && (forall i :: 0 <= i < recent ==> admitted[i] <= w.start)
    && (forall i :: recent <= i < |admitted| ==> w.start <= admitted[i])
    && (forall i :: 0 <= i < earlier ==> admitted[i] + WINDOW_SECONDS <= w.start)
    && Paced(admitted, limit)
  }

  /** The index before which everything was admitted a minute before the current window. */
  ghost function EarlierAt(w: Window, admitted: seq<int>, earlier: nat, now: int): nat {
    if Current(w, now) == w then earlier
    else if w.count <= |admitted| then |admitted| - w.count
    else 0
  }

  lemma CurrentTracks(w: Window, limit: nat, admitted: seq<int>, earlier: nat, now: int)
    requires Tracks(w, limit, admitted, earlier) && now != 0
    requires forall i :: 0 <= i < |admitted| ==> admitted[i] <= now
    ensures Tracks(Current(w, now), limit, admitted, EarlierAt(w, admitted, earlier, now))
  {
  }

  lemma AdmitTracks(w: Window, limit: nat, admitted: seq<int>, earlier: nat, now: int)
    requires Tracks(w, limit, admitted, earlier)
    requires w.count < limit && w.start != 0 && w.start <= now
    ensures Tracks(w.(count := w.count + 1), limit, admitted + [now], earlier)
  {
  }

  /** The bytes one pack download may add, shared by all of its workers. */
  class AdmissionBudget {
    const limit: int
    var used: int

    constructor (limit: int)
      requires 0 <= limit
      ensures this.limit == limit && used == 0
    {
      this.limit, used := limit, 0;
    }

    ghost predicate Valid()
      reads this
    {
      0 <= used <= limit
    }

    method Admit(bytes: int) returns (ok: bool)
      requires Valid()
      modifies this
      ensures Valid()
      ensures ok <==> 0 <= bytes <= limit - old(used)
      ensures used == old(used) + if ok then bytes else 0
    {
      if bytes < 0 || bytes > limit - used {
        return false;
      }
      used := used + bytes;
      return true;
    }
  }
}
