/** `redo_ref_cnt` as the monitor runs it, against the monitor's steps in the protocol. */
module Monitor {
  import opened Common
  import opened RefInfo
  import opened RedoLog
  import opened EraProtocol

  // ----- the replay without interference, as protocol steps

  /** The largest era of t in rows 0 .. n - 1, its own row left out. */
  function MaxSeen(st: State, t: ClientId, n: nat): nat
    decreases n
  {
    if n == 0 then 0
    else
      var max := MaxSeen(st, t, n - 1);
      if n - 1 != t && Row(st, n - 1, t) > max then Row(st, n - 1, t) else max
  }

  /** All remaining scan steps. */
  function ScanAll(st: State, t: ClientId): (r: State)
    requires t in st.client
    ensures t in r.client && r.slot == st.slot
    decreases var p := st.client[t].phase; if p.Scanning? then MAX_THREAD + 1 - p.row else 0
  {
    if st.client[t].phase.Scanning? && st.client[t].phase.row <= MAX_THREAD
    then ScanAll(DoRedoScan(st, t, st.client[t]), t)
    else st
  }

  /** RedoStart, every RedoScan there is, and RedoWrite. */
  function RedoAlone(st: State, t: ClientId): State
    requires t in st.client
  {
    var st1 := DoRedoStart(st, t, st.client[t]);
    var st2 := ScanAll(st1, t);
    if st2.client[t].phase.Decided? then DoRedoWrite(st2, t, st2.client[t]) else st2
  }

  lemma {:induction false} MaxSeenFrame(st: State, st': State, t: ClientId, n: nat)
    requires st'.era == st.era
    ensures MaxSeen(st', t, n) == MaxSeen(st, t, n)
    decreases n
  {
    if n > 0 {
      MaxSeenFrame(st, st', t, n - 1);
    }
  }

  lemma ScanStep(st: State, t: ClientId, j: nat)
    requires t in st.client && j < MAX_THREAD && st.client[t].phase == Scanning(j, MaxSeen(st, t, j))
    ensures var st1 := DoRedoScan(st, t, st.client[t]);
            st1.era == st.era && st1.client[t] == st.client[t].(phase := Scanning(j + 1, MaxSeen(st, t, j + 1)))
  {
  }

  /** The step past the last row. */
  lemma ScanEnds(st: State, t: ClientId)
    requires t in st.client && st.client[t].phase == Scanning(MAX_THREAD, MaxSeen(st, t, MAX_THREAD))
    ensures var c := st.client[t];
            ScanAll(st, t).client[t] == c.(phase := Decided(Newest(c.ring).era <= MaxSeen(st, t, MAX_THREAD)))
  {
    var st1 := DoRedoScan(st, t, st.client[t]);
    assert ScanAll(st1, t) == st1;
  }

  /** The scan compares the record with the largest era seen in any row. */
  lemma {:induction false} ScanAllDecides(st: State, t: ClientId, j: nat)
    requires t in st.client && j <= MAX_THREAD && st.client[t].phase == Scanning(j, MaxSeen(st, t, j))
    ensures var c := st.client[t];
            ScanAll(st, t).client[t] == c.(phase := Decided(Newest(c.ring).era <= MaxSeen(st, t, MAX_THREAD)))
    decreases MAX_THREAD - j
  {
    if j < MAX_THREAD {
      var st1 := DoRedoScan(st, t, st.client[t]);
      ScanStep(st, t, j);
      MaxSeenFrame(st, st1, t, j + 1);
      MaxSeenFrame(st, st1, t, MAX_THREAD);
      ScanAllDecides(st1, t, j + 1);
    } else {
      ScanEnds(st, t);
    }
  }

  /** Whether the record is replayed. */
  predicate NeedsRedo(st: State, t: ClientId, r: Rec) {
    var w := WordAt(st, r.refed);
    !r.func.NoFunc? && ((w.cid == t && w.era == r.era) || r.era <= MaxSeen(st, t, MAX_THREAD))
  }

  lemma RedoAloneWrites(st: State, t: ClientId)
    requires t in st.client
    ensures var r := Newest(st.client[t].ring);
            RedoAlone(st, t).slot == if NeedsRedo(st, t, r) then st.slot[r.ref := r.Val()] else st.slot
  {
    var st1 := DoRedoStart(st, t, st.client[t]);
    if st1.client[t].phase.Scanning? {
      MaxSeenFrame(st, st1, t, MAX_THREAD);
      ScanAllDecides(st1, t, 0);
    }
  }

  // ----- the replay as the code runs it

  class SharedMemory {
    var refInfo: map<Obj, Word>
    var slot: map<Slot, Obj>
    const era: array2<nat> // row x - 1, column y - 1

    constructor (size: nat)
      ensures era.Length0 == size && era.Length1 == size && fresh(era)
    {
      refInfo, slot := map[], map[];
      era := new nat[size, size]((_, _) => 0);
    }

    /** The memory holds what the protocol state says. */
    ghost predicate Mirrors(st: State)
      reads this, era
    {
      && refInfo == st.word && slot == st.slot
      && era.Length0 == era.Length1 == MAX_THREAD
      && forall j, t | 1 <= j < MAX_THREAD && 1 <= t < MAX_THREAD :: era[j - 1, t - 1] == Era(st, j, t)
    }

    /** The loop over the rows; row 0 lies before the matrix, in memory that is zero. */
    method LargestSeen(t: ClientId, ghost st: State) returns (max: nat)
      requires Mirrors(st) && IsId(t)
      ensures max == MaxSeen(st, t, MAX_THREAD)
    {
      max := 0;
      for j := 0 to MAX_THREAD
        invariant max == MaxSeen(st, t, j)
      {
        if j != t {
          var seen := if j == 0 then 0 else era[j - 1, t - 1];
          if seen > max {
            max := seen;
          }
        }
      }
    }

    /** `redo_ref_cnt`: the slot ends up as the protocol's monitor steps leave it. */
    method RedoRefCnt(t: ClientId, redo: RedoRing, ghost st: State)
      requires Mirrors(st) && IsId(t) && t in st.client && redo.Valid() && redo.lines[..] == st.client[t].ring
      modifies this`slot
      ensures slot == RedoAlone(st, t).slot
    {
      var r := redo.Scan();
      NewestIsLast(redo.lines[..], LastOf(redo.since));
      RedoAloneWrites(st, t);
      if r.func.NoFunc? {
        return;
      }
      var w := if r.refed in refInfo then refInfo[r.refed] else ZERO;
      var needRedo := false;
      if w.cid == t && w.era == r.era {
        needRedo := true;
      } else {
        var maxEra := LargestSeen(t, st);
        if r.era <= maxEra {
          needRedo := true;
        }
      }
      if needRedo {
        slot := slot[r.ref := if r.func.LinkRef? then r.refed else 0];
      }
    }
  }
}
