/** What holds in every state of every run of the era protocol. */
module EraTheorems {
  import opened Common
  import opened RefInfo
  import opened RedoLog
  import opened EraProtocol
  import opened EraInvariant
  import opened EraSteps

  /** Zeroed shared memory; every client has just done `thread_init`. */
  ghost predicate Init(st: State) {
    && Shape(st)
    && st.home.Keys == st.word.Keys && 0 !in st.word && 0 !in st.slot
    && st.heads <= st.pool <= st.word.Keys
    && (forall o | o in st.word :: st.word[o] == ZERO)
    && (forall s | s in st.slot :: st.slot[s] == 0)
    && (forall j: nat, t: nat | IsId(j) && IsId(t) :: Era(st, j, t) == if j == t then 1 else 0)
    && (forall t: nat | IsId(t) :: Fresh(st.client[t]))
  }

  predicate Fresh(c: Client) {
    c.phase.Up? && c.pc.Idle? && c.torn == 0 && c.ring == CLEARED && c.last == EMPTY && !c.given && c.saw == ZERO
  }

  lemma InitInv(st: State)
    requires Init(st)
    ensures Inv(st)
  {
    forall o | o in st.word ensures CountOf(Credits(st), o) == 0 {
      assert Holders(Credits(st), o) == {};
    }
    forall t: nat | IsId(t) ensures ClientOk(st, t) {
    }
  }

  datatype Move = Move(t: ClientId, a: Act)

  /** One step of the system. */
  ghost predicate AnyNext(st: State, m: Move, st': State) {
    IsId(m.t) && m.t in st.client && m.t in st.era && Enabled(st, m.t, m.a) && st' == Apply(st, m.t, m.a)
  }

  /** One step; harmful replays are left out. */
  ghost predicate Next(st: State, m: Move, st': State) {
    AnyNext(st, m, st') && Clean(st, m.t, m.a)
  }

  ghost predicate Run(states: seq<State>, moves: seq<Move>) {
    && |states| == |moves| + 1
    && Init(states[0])
    && forall i {:trigger Next(states[i], moves[i], states[i + 1])} | 0 <= i < |moves| ::
        Next(states[i], moves[i], states[i + 1])
  }

  lemma RunStep(states: seq<State>, moves: seq<Move>, i: nat)
    requires Run(states, moves) && i < |moves|
    ensures Next(states[i], moves[i], states[i + 1])
  {
    assert Next(states[i], moves[i], states[i + 1]);
  }

  lemma RunExtends(states: seq<State>, moves: seq<Move>, m: Move, st': State)
    requires Run(states, moves) && Next(states[|moves|], m, st')
    ensures Run(states + [st'], moves + [m])
  {
    var states', moves' := states + [st'], moves + [m];
    forall i | 0 <= i < |moves'| ensures Next(states'[i], moves'[i], states'[i + 1]) {
      if i < |moves| {
        RunStep(states, moves, i);
      }
    }
  }

  /** The invariant holds in every state of every run. */
  lemma {:induction false} RunInv(states: seq<State>, moves: seq<Move>, i: nat)
    requires Run(states, moves) && i < |states|
    ensures Inv(states[i])
  {
    if i == 0 {
      InitInv(states[0]);
    } else {
      RunInv(states, moves, i - 1);
      RunStep(states, moves, i - 1);
      StepKeepsInv(states[i - 1], moves[i - 1].t, moves[i - 1].a);
    }
  }

  // ----- crash-consistent counting

  function Holding(st: State, o: Obj): set<Slot> {
    set s | s in st.slot && st.slot[s] == o
  }

  /** Links to o committed but not yet stored, including those of crashed clients. */
  function LinksPending(st: State, o: Obj): set<Slot>
    requires Shape(st)
  {
    set s | s in st.slot && var c := st.client[st.owner[s]];
            c.pc.Swapped? && c.ref == s && c.link && c.refed == o
  }

  /** Slots holding o that a committed operation is about to write: the slots of committed
      unlinks, and any slot that a replay has overwritten under a committed operation. */
  function Outdated(st: State, o: Obj): set<Slot>
    requires Shape(st)
  {
    set s | s in st.slot && st.slot[s] == o && var c := st.client[st.owner[s]]; c.pc.Swapped? && c.ref == s
  }

  /** Roots that name o in an allocation whose count is not written yet. */
  function RootsTorn(st: State, o: Obj): set<Slot>
    requires Shape(st)
  {
    set s | s in st.slot && st.client[st.owner[s]].torn == s && st.slot[s] == o
  }

  lemma SlotSplits(st: State, s: Slot, o: Obj)
    requires Shape(st) && s in st.slot && o != 0 && OpOk(st, st.owner[s])
    ensures s in Outdated(st, o) ==> s !in RootsTorn(st, o)
    ensures s in LinksPending(st, o) ==> s !in Holding(st, o) - Outdated(st, o) - RootsTorn(st, o)
    ensures Credit(st, s) == o <==> s in Holding(st, o) - Outdated(st, o) - RootsTorn(st, o) + LinksPending(st, o)
  {
  }

  lemma HoldersSplit(st: State, o: Obj)
    requires Shape(st) && o != 0 && forall s | s in st.slot :: OpOk(st, st.owner[s])
    ensures Holders(Credits(st), o) == Holding(st, o) - Outdated(st, o) - RootsTorn(st, o) + LinksPending(st, o)
    ensures Outdated(st, o) !! RootsTorn(st, o)
    ensures LinksPending(st, o) !! Holding(st, o) - Outdated(st, o) - RootsTorn(st, o)
  {
    forall s | s in st.slot
      ensures s in Outdated(st, o) ==> s !in RootsTorn(st, o)
      ensures s in LinksPending(st, o) ==> s !in Holding(st, o) - Outdated(st, o) - RootsTorn(st, o)
      ensures s in Holders(Credits(st), o)
              <==> s in Holding(st, o) - Outdated(st, o) - RootsTorn(st, o) + LinksPending(st, o)
    {
      SlotSplits(st, s, o);
    }
  }

  lemma CountSplits(st: State, o: Obj)
    requires Shape(st) && o != 0 && forall s | s in st.slot :: OpOk(st, st.owner[s])
    ensures CountOf(Credits(st), o)
         == |Holding(st, o)| + |LinksPending(st, o)| - |Outdated(st, o)| - |RootsTorn(st, o)|
  {
    HoldersSplit(st, o);
    SplitSizes(Holders(Credits(st), o), Holding(st, o), LinksPending(st, o), Outdated(st, o), RootsTorn(st, o));
  }

  lemma SplitSizes(all: set<Slot>, h: set<Slot>, l: set<Slot>, u: set<Slot>, r: set<Slot>)
    requires all == h - u - r + l && l !! h - u - r && u <= h && r <= h && u !! r
    ensures |all| == |h| + |l| - |u| - |r|
  {
    assert |h - u| == |h| - |u|;
    assert |h - u - r| == |h - u| - |r|;
    assert |h - u - r + l| == |h - u - r| + |l|;
  }

  /** Main theorem: in every reachable state of any number of clients linking,
      unlinking, allocating, crashing and being recovered, the count of every object is
      the number of slots holding it, plus the links committed but not stored, minus the
      slots still holding it under a committed operation, minus the roots of unfinished
      allocations. */
  lemma CrashConsistentCounting(states: seq<State>, moves: seq<Move>, i: nat, o: Obj)
    requires Run(states, moves) && i < |states| && o in states[i].word
    ensures Shape(states[i])
    ensures states[i].word[o].cnt
         == |Holding(states[i], o)| + |LinksPending(states[i], o)|
            - |Outdated(states[i], o)| - |RootsTorn(states[i], o)|
  {
    RunInv(states, moves, i);
    forall s | s in states[i].slot ensures OpOk(states[i], states[i].owner[s]) {
      assert ClientOk(states[i], states[i].owner[s]);
    }
    CountSplits(states[i], o);
  }

  // ----- the redo decision

  /** The decision is exact, with the survivors running all along: once the monitor has
      decided, it replays the newest record if and only if the CAS of that record took
      effect. Only for a completed unlink after which the client freed the object it may
      go either way. In particular a pending operation is always replayed. */
  lemma RedoDecisionExact(states: seq<State>, moves: seq<Move>, i: nat, t: ClientId)
    requires Run(states, moves) && i < |states| && IsId(t)
    requires t in states[i].client && states[i].client[t].phase.Decided?
    ensures var st := states[i];
            var c := st.client[t];
            && (c.phase.need ==> Committed(st, t))
            && (Committed(st, t) && !Freed(st, t) ==> c.phase.need)
            && (c.pc.Swapped? ==> c.phase.need && Announces(Newest(c.ring), c))
  {
    RunInv(states, moves, i);
    assert ClientOk(states[i], t);
    NewestIsLast(states[i].client[t].ring, states[i].client[t].last);
  }

  /** Replaying a completed operation writes what its slot already holds, unless the slot was
      handed over in between. */
  lemma ReplayRepeats(states: seq<State>, moves: seq<Move>, i: nat, t: ClientId)
    requires Run(states, moves) && i < |states| && IsId(t)
    requires t in states[i].client && states[i].client[t].phase.Decided?
    ensures var st := states[i];
            var c := st.client[t];
            var r := Newest(c.ring);
            !c.pc.Swapped? && !c.given && c.phase.need ==> r.ref in st.slot && st.slot[r.ref] == r.Val()
  {
    RunInv(states, moves, i);
    assert ClientOk(states[i], t);
    NewestIsLast(states[i].client[t].ring, states[i].client[t].last);
  }

  /** After the replay nothing of the client is pending: each of its slots is counted
      for exactly what it holds, but for the root of an unfinished allocation. */
  lemma RedoSettles(st: State, t: ClientId, s: Slot)
    requires Inv(st) && IsId(t) && Enabled(st, t, Mon(RedoWrite)) && Clean(st, t, Mon(RedoWrite))
    requires Owns(st, t, s)
    ensures var st' := Apply(st, t, Mon(RedoWrite));
            && Inv(st') && Owns(st', t, s)
            && Credit(st', s) == if st.client[t].torn == s then 0 else st'.slot[s]
  {
    StepKeepsInv(st, t, Mon(RedoWrite));
    RedoEnds(st, t, s);
  }

  lemma RedoEnds(st: State, t: ClientId, s: Slot)
    requires Shape(st) && IsId(t) && EnabledMon(st, t, RedoWrite) && Owns(st, t, s)
    ensures var st' := ApplyMon(st, t, RedoWrite);
            && t in st'.client && st'.client[t].pc.Idle? && st'.client[t].torn == st.client[t].torn
            && st'.owner == st.owner && s in st'.slot
  {
  }

  /** The root scan tells the two kinds of roots apart: it skips exactly the root of the
      unfinished allocation, whose object has no count, and it releases exactly the
      roots that are counted. */
  lemma ScanRule(st: State, t: ClientId, s: Slot)
    requires Inv(st) && IsId(t) && Scannable(st, t, s)
    ensures Enabled(st, t, Mon(Skip(s))) <==> st.client[t].torn == s
    ensures Enabled(st, t, Mon(Release(s))) <==> Credit(st, s) == st.slot[s]
    ensures Credit(st, s) == st.slot[s] ==> WordAt(st, st.slot[s]).cnt >= 1
  {
    assert ClientOk(st, t);
    ScanTells(st, t, s);
  }

  lemma ScanTells(st: State, t: ClientId, s: Slot)
    requires Tables(st, t) && Counted(st) && Scannable(st, t, s) && TornOk(st, t)
    ensures Enabled(st, t, Mon(Skip(s))) <==> st.client[t].torn == s
    ensures Enabled(st, t, Mon(Release(s))) <==> Credit(st, s) == st.slot[s]
    ensures Credit(st, s) == st.slot[s] ==> WordAt(st, st.slot[s]).cnt >= 1
  {
    if st.client[t].torn != s {
      CountPositive(Credits(st), s);
    }
  }

  function CreditedTo(st: State, o: Obj, t: ClientId): set<Slot>
    requires Shape(st)
  {
    set s | s in st.slot && st.owner[s] != t && Credit(st, s) == o
  }

  /** When the monitor has gone through all slots of a client, no count has a share of it left. */
  lemma RecoveredLeavesNothing(st: State, t: ClientId, o: Obj)
    requires Inv(st) && IsId(t) && o in st.word
    requires st.client[t].phase.Recovered? && st.client[t].pc.Idle?
    requires forall s | Owns(st, t, s) :: st.slot[s] == 0
    ensures st.word[o].cnt == |CreditedTo(st, o, t)|
  {
    assert Holders(Credits(st), o) == CreditedTo(st, o, t);
  }

  // ----- the era matrix

  lemma StepFrames(st: State, m: Move, st': State)
    requires Inv(st) && Next(st, m, st')
    ensures Frames(st, st', m.t) && Hi(st', m.t) >= Hi(st, m.t)
  {
    InvBounds(st, m.t);
    match m.a
    case Ref(r) =>
      if r.Read? {
        OpObjectCounted(st, m.t);
      }
      RefAllFrames(st, m.t, r);
      RefKeepsSelfOk(st, m.t, r);
    case Own(w) =>
      OwnFrames(st, m.t, w);
      OwnKeepsSelfOk(st, m.t, w);
    case Mon(a) =>
      MonFrames(st, m.t, a);
      MonKeepsSelfOk(st, m.t, a);
  }

  /** An entry of the matrix grows, and so does the largest committed era of the column. */
  ghost predicate Grows(st: State, st': State, j: ClientId, t: ClientId) {
    t in st.client && t in st'.client && Era(st, j, t) <= Era(st', j, t) && Hi(st, t) <= Hi(st', t)
  }

  lemma FramesGrow(st: State, st': State, u: ClientId, j: ClientId, t: ClientId)
    requires IsId(u) && Framed(st, st', u) && RowFramed(st, st', u) && Hi(st', u) >= Hi(st, u)
    requires IsId(j) && IsId(t)
    ensures Grows(st, st', j, t)
  {
  }

  lemma StepGrows(st: State, m: Move, st': State, j: ClientId, t: ClientId)
    requires Inv(st) && Next(st, m, st') && IsId(j) && IsId(t)
    ensures Grows(st, st', j, t)
  {
    StepFrames(st, m, st');
    FramesGrow(st, st', m.t, j, t);
  }

  lemma RunStepGrows(states: seq<State>, moves: seq<Move>, k: nat, j: ClientId, t: ClientId)
    requires Run(states, moves) && k < |states| && IsId(j) && IsId(t)
    ensures Grows(states[k], if k < |moves| then states[k + 1] else states[k], j, t)
  {
    RunInv(states, moves, k);
    if k < |moves| {
      RunStep(states, moves, k);
      StepGrows(states[k], moves[k], states[k + 1], j, t);
    }
  }

  lemma {:induction false} RunGrows(states: seq<State>, moves: seq<Move>, i: nat, k: nat, j: ClientId, t: ClientId)
    requires Run(states, moves) && i <= k < |states| && IsId(j) && IsId(t)
    ensures Grows(states[i], states[k], j, t)
  {
    if i < k {
      RunGrows(states, moves, i, k - 1, j, t);
      RunStepGrows(states, moves, k - 1, j, t);
    } else {
      RunStepGrows(states, moves, i, j, t);
    }
  }

  /** The matrix over a run: no entry ever goes back, and none is ahead of the largest
      era the named client has committed. */
  lemma MatrixBetween(states: seq<State>, moves: seq<Move>, i: nat, k: nat, j: ClientId, t: ClientId)
    requires Run(states, moves) && i <= k < |states| && IsId(j) && IsId(t)
    ensures t in states[k].client && Era(states[i], j, t) <= Era(states[k], j, t)
    ensures j != t ==> Era(states[k], j, t) <= Hi(states[k], t) <= Era(states[k], t, t)
  {
    RunGrows(states, moves, i, k, j, t);
    RunInv(states, moves, k);
    assert ClientOk(states[k], t);
  }

  /** Before a client overwrites the stamp of another, its row covers that stamp. */
  lemma OverwriteIsSeen(st: State, t: ClientId)
    requires Inv(st) && IsId(t) && Enabled(st, t, Ref(CasOk))
    ensures var w := WordAt(st, st.client[t].refed);
            IsId(w.cid) && (w.cid != t ==> Era(st, t, w.cid) >= w.era)
  {
    MarkedAtCas(st, t);
    CasIsSeen(st, t);
  }

  lemma MarkedAtCas(st: State, t: ClientId)
    requires Inv(st) && IsId(t)
    ensures RefsOk(st, t) && MarkOk(st, t)
  {
    assert ClientOk(st, t);
  }

  lemma CasIsSeen(st: State, t: ClientId)
    requires t in st.client && EnabledRef(st, t, CasOk) && RefsOk(st, t) && MarkOk(st, t)
    ensures var w := WordAt(st, st.client[t].refed);
            IsId(w.cid) && (w.cid != t ==> Era(st, t, w.cid) >= w.era)
  {
  }
}
