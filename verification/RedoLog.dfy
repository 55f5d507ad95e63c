/** The redo ring of one client: eight cache lines indexed by `era mod 8`. */
module RedoLog {

  const REDO_CACHELINE_CNT := 8

  type Slot = nat
  type Obj = nat

  datatype Func = NoFunc | LinkRef | UnlinkRef

  /** One redo record; offset 0 never names a slot or an object. */
  datatype Rec = Rec(func: Func, saved: nat, era: nat, ref: Slot, refed: Obj) {
    /** What the recorded operation leaves in its slot. */
    function Val(): Obj {
      if func.LinkRef? then refed else 0
    }
  }

  /** A zeroed cache line. */
  const EMPTY := Rec(NoFunc, 0, 0, 0, 0)

  type Ring = s: seq<Rec> | |s| == REDO_CACHELINE_CNT
    witness [EMPTY, EMPTY, EMPTY, EMPTY, EMPTY, EMPTY, EMPTY, EMPTY]

  const CLEARED: Ring := [EMPTY, EMPTY, EMPTY, EMPTY, EMPTY, EMPTY, EMPTY, EMPTY]

  function LastOf(history: seq<Rec>): Rec {
    if history == [] then EMPTY else history[|history| - 1]
  }

  /** A record some operation may write: not zeroed, and its era is at least 1
      because `thread_init` bumps the era before any operation. */
  predicate Loggable(r: Rec) {
    !r.func.NoFunc? && r.era > 0
  }

  /** The ring after the records since the last clear, of which `last` is the newest. */
  ghost predicate RingOk(ring: Ring, last: Rec) {
    && (forall i | 0 <= i < |ring| && ring[i] != EMPTY ::
          Loggable(ring[i]) && ring[i].era % REDO_CACHELINE_CNT == i && ring[i].era <= last.era)
    && (last == EMPTY || (Loggable(last) && ring[last.era % REDO_CACHELINE_CNT] == last))
  }

  /** The monitor's scan of the first `n` lines: a strictly larger era wins. */
  function NewestOf(ring: seq<Rec>, n: nat): Rec
    requires 1 <= n <= |ring|
  {
    if n == 1 then ring[0]
    else
      var r := NewestOf(ring, n - 1);
      if ring[n - 1].era > r.era then ring[n - 1] else r
  }

  function Newest(ring: Ring): Rec
  {
    NewestOf(ring, REDO_CACHELINE_CNT)
  }

  lemma {:induction false} NewestOfIsMax(ring: seq<Rec>, n: nat)
    requires 1 <= n <= |ring|
    ensures NewestOf(ring, n) in ring
    ensures forall i | 0 <= i < n :: ring[i].era <= NewestOf(ring, n).era
  {
    if n > 1 {
      NewestOfIsMax(ring, n - 1);
    }
  }

  /** The max-era scan returns the last record written since the last clear, or
      an empty record if there is none. */
  lemma NewestIsLast(ring: Ring, last: Rec)
    requires RingOk(ring, last)
    ensures Newest(ring) == last
  {
    NewestOfIsMax(ring, REDO_CACHELINE_CNT);
    var r := Newest(ring);
    var i :| 0 <= i < |ring| && ring[i] == r;
    if last != EMPTY {
      assert ring[last.era % REDO_CACHELINE_CNT].era <= r.era;
      assert r.era == last.era;
    }
  }

  /** No line of the ring names the slot. */
  predicate Unlogged(ring: seq<Rec>, s: Slot) {
    forall i | 0 <= i < |ring| :: ring[i].ref != s
  }

  function WriteRing(ring: Ring, r: Rec): Ring
  {
    ring[r.era % REDO_CACHELINE_CNT := r]
  }

  lemma WriteKeepsRingOk(ring: Ring, last: Rec, r: Rec)
    requires RingOk(ring, last) && Loggable(r) && last.era <= r.era
    ensures RingOk(WriteRing(ring, r), r)
  {
  }

  /** The ring as the client and the monitor handle it. `since` is the history of
      records since the last clear, which the ring itself does not store. */
  class RedoRing {
    const lines: array<Rec>
    ghost var since: seq<Rec>

    ghost predicate Valid()
      reads this, lines
    {
      lines.Length == REDO_CACHELINE_CNT && RingOk(lines[..], LastOf(since))
    }

    constructor ()
      ensures Valid() && since == [] && fresh(lines)
    {
      lines := new Rec[REDO_CACHELINE_CNT](i => EMPTY);
      since := [];
    }

    /** Eras of one client never go back, but a retry writes the same era again. */
    method Write(r: Rec)
      requires Valid() && Loggable(r) && LastOf(since).era <= r.era
      modifies this, lines
      ensures Valid() && since == old(since) + [r]
      ensures lines[..] == WriteRing(old(lines[..]), r)
    {
      WriteKeepsRingOk(lines[..], LastOf(since), r);
      lines[r.era % REDO_CACHELINE_CNT] := r;
      since := since + [r];
    }

    method Clear()
      requires Valid()
      modifies this, lines
      ensures Valid() && since == []
    {
      for i := 0 to lines.Length
        invariant forall k | 0 <= k < i :: lines[k] == EMPTY
      {
        lines[i] := EMPTY;
      }
      since := [];
    }

    /** The monitor's first loop. */
    method Scan() returns (redo: Rec)
      requires Valid()
      ensures redo == LastOf(since)
    {
      redo := lines[0];
      for i := 1 to REDO_CACHELINE_CNT
        invariant redo == NewestOf(lines[..], i)
      {
        if lines[i].era > redo.era {
          redo := lines[i];
        }
      }
      NewestIsLast(lines[..], LastOf(since));
    }
  }
}
