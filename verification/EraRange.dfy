/** The bounds under which the model's unbounded words are the program's packed ones,
    and the runs in which every replay is clean. */
module EraRange {
  import opened Common
  import opened RefInfo
  import opened RedoLog
  import opened EraProtocol
  import opened EraInvariant
  import opened EraSteps
  import opened EraTheorems
  import opened EraHistory

  // ----- nothing overflows

  lemma OwnEra(st: State, t: ClientId, a: OwnAct)
    requires Shape(st) && IsId(t) && EnabledOwn(st, t, a)
    ensures Era(ApplyOwn(st, t, a), t, t) <= Era(st, t, t) + 1
  {
  }

  lemma MonEra(st: State, t: ClientId, a: MonAct)
    requires Shape(st) && IsId(t) && EnabledMon(st, t, a)
    ensures Era(ApplyMon(st, t, a), t, t) == Era(st, t, t)
  {
  }

  lemma StepEra(st: State, m: Move, st': State, t: ClientId)
    requires Inv(st) && Next(st, m, st') && IsId(t)
    ensures Era(st', t, t) <= Era(st, t, t) + 1
  {
    assert ClientOk(st, m.t);
    if t == m.t {
      match m.a
      case Ref(r) => RefOwnEra(st, t, r);
      case Own(w) => OwnEra(st, t, w);
      case Mon(a) => MonEra(st, t, a);
    } else {
      StepFrames(st, m, st');
    }
  }

  lemma RunStepEra(states: seq<State>, moves: seq<Move>, k: nat, t: ClientId)
    requires Run(states, moves) && k < |moves| && IsId(t)
    ensures Era(states[k + 1], t, t) <= Era(states[k], t, t) + 1
  {
    RunInv(states, moves, k);
    RunStep(states, moves, k);
    StepEra(states[k], moves[k], states[k + 1], t);
  }

  /** A client's era counts its operations: it is at most one more than the number of steps. */
  lemma {:induction false} EraBound(states: seq<State>, moves: seq<Move>, i: nat, t: ClientId)
    requires Run(states, moves) && i < |states| && IsId(t)
    ensures Era(states[i], t, t) <= 1 + i
  {
    if i > 0 {
      EraBound(states, moves, i - 1, t);
      RunStepEra(states, moves, i - 1, t);
    } else {
      assert Init(states[0]);
    }
  }

  lemma CountBound(m: map<Slot, Obj>, o: Obj)
    ensures CountOf(m, o) <= |m.Keys|
  {
    assert m.Keys == Holders(m, o) + (m.Keys - Holders(m, o));
  }

  lemma WordInRange(st: State, o: Obj)
    requires Inv(st) && o in st.word && |st.slot.Keys| < CNT_LIMIT
    requires IsId(st.word[o].cid) ==> Era(st, st.word[o].cid, st.word[o].cid) < ERA_LIMIT
    ensures InRange(st.word[o])
  {
    CountBound(Credits(st), o);
    assert Credits(st).Keys == st.slot.Keys;
    if st.word[o] != ZERO {
      assert ClientOk(st, st.word[o].cid);
    }
  }

  /** With fewer than 2^16 slots, no run of fewer than 2^32 - 1 steps ever has a word that
      does not fit: counts and eras never wrap. */
  lemma NothingOverflows(states: seq<State>, moves: seq<Move>, i: nat, o: Obj)
    requires Run(states, moves) && i < |states| < ERA_LIMIT && |states[0].slot.Keys| < CNT_LIMIT
    ensures InRange(WordAt(states[i], o))
  {
    if o in states[i].word {
      RunInv(states, moves, i);
      RunKeepsTables(states, moves, 0, i);
      if IsId(states[i].word[o].cid) {
        EraBound(states, moves, i, states[i].word[o].cid);
      }
      WordInRange(states[i], o);
    }
  }

  lemma SawStep(st: State, m: Move, st': State, t: ClientId)
    requires Next(st, m, st') && t in st.client && InRange(WordAt(st, st.client[m.t].refed))
    requires st.client[t].pc.Sees() ==> InRange(st.client[t].saw)
    ensures t in st'.client && (st'.client[t].pc.Sees() ==> InRange(st'.client[t].saw))
  {
    if m.a != Ref(Read) {
      StepEffect(st, m, st', 0);
    }
  }

  lemma {:induction false} SawInRange(states: seq<State>, moves: seq<Move>, i: nat, t: ClientId)
    requires Run(states, moves) && i < |states| < ERA_LIMIT && |states[0].slot.Keys| < CNT_LIMIT && IsId(t)
    ensures t in states[i].client
    ensures states[i].client[t].pc.Sees() ==> InRange(states[i].client[t].saw)
  {
    if i > 0 {
      SawInRange(states, moves, i - 1, t);
      var m := moves[i - 1];
      RunStep(states, moves, i - 1);
      NothingOverflows(states, moves, i - 1, states[i - 1].client[m.t].refed);
      SawStep(states[i - 1], m, states[i], t);
    }
  }

  /** The program compares packed words; this decides the same as comparing the fields. */
  lemma PackedCasIsExact(states: seq<State>, moves: seq<Move>, i: nat, t: ClientId)
    requires Run(states, moves) && i < |states| < ERA_LIMIT && |states[0].slot.Keys| < CNT_LIMIT && IsId(t)
    requires t in states[i].client && states[i].client[t].pc.Sees()
    ensures var c := states[i].client[t];
            PackWord(WordAt(states[i], c.refed)) == PackWord(c.saw) <==> WordAt(states[i], c.refed) == c.saw
  {
    var c := states[i].client[t];
    SawInRange(states, moves, i, t);
    NothingOverflows(states, moves, i, c.refed);
    CasComparesFields(WordAt(states[i], c.refed), c.saw);
  }

  // ----- runs in which every replay is clean

  /** A run with nothing left out. */
  ghost predicate AnyRun(states: seq<State>, moves: seq<Move>) {
    && |states| == |moves| + 1
    && Init(states[0])
    && forall i {:trigger AnyNext(states[i], moves[i], states[i + 1])} | 0 <= i < |moves| ::
        AnyNext(states[i], moves[i], states[i + 1])
  }

  lemma {:induction false} NothingGiven(states: seq<State>, moves: seq<Move>, i: nat, t: ClientId)
    requires Run(states, moves) && i < |states| && IsId(t)
    requires forall p | 0 <= p < i :: !HandsOver(moves[p].a)
    ensures t in states[i].client && !states[i].client[t].given
  {
    if i > 0 {
      NothingGiven(states, moves, i - 1, t);
      RunStep(states, moves, i - 1);
      StepEffect(states[i - 1], moves[i - 1], states[i], 0);
    }
  }

  // ----- counting without hand-overs

  /** A slot under a committed operation still holds what the operation found there. */
  ghost predicate Untouched(st: State, t: ClientId)
    requires t in st.client
  {
    var c := st.client[t];
    c.pc.Swapped? ==> c.ref in st.slot && st.slot[c.ref] == if c.link then 0 else c.refed
  }

  lemma RefWritesOwn(st: State, t: ClientId, a: RefAct, s: Slot)
    requires t in st.client && t in st.era && EnabledRef(st, t, a) && OpOk(st, t) && s in st.slot && !Owns(st, t, s)
    ensures s in ApplyRef(st, t, a).slot && ApplyRef(st, t, a).slot[s] == st.slot[s]
  {
  }

  lemma OwnWritesOwn(st: State, t: ClientId, a: OwnAct, s: Slot)
    requires t in st.client && t in st.era && EnabledOwn(st, t, a) && s in st.slot && !Owns(st, t, s)
    ensures s in ApplyOwn(st, t, a).slot && ApplyOwn(st, t, a).slot[s] == st.slot[s]
  {
  }

  lemma MonWritesOwn(st: State, t: ClientId, a: MonAct, s: Slot)
    requires t in st.client && t in st.era && EnabledMon(st, t, a) && s in st.slot && !Owns(st, t, s)
    requires LinesOk(st, t) && ReplayOk(st, t) && RedoOk(st, t) && !st.client[t].given
    ensures s in ApplyMon(st, t, a).slot && ApplyMon(st, t, a).slot[s] == st.slot[s]
  {
    NewestIsLast(st.client[t].ring, st.client[t].last);
  }

  lemma RefKeepsUntouched(st: State, t: ClientId, a: RefAct)
    requires t in st.client && t in st.era && EnabledRef(st, t, a) && OpOk(st, t) && RefsOk(st, t) && Untouched(st, t)
    ensures Untouched(ApplyRef(st, t, a), t)
  {
  }

  lemma OwnKeepsUntouched(st: State, t: ClientId, a: OwnAct)
    requires t in st.client && t in st.era && EnabledOwn(st, t, a)
    ensures Untouched(ApplyOwn(st, t, a), t)
  {
  }

  lemma MonKeepsUntouched(st: State, t: ClientId, a: MonAct)
    requires t in st.client && t in st.era && EnabledMon(st, t, a) && Untouched(st, t)
    ensures Untouched(ApplyMon(st, t, a), t)
  {
  }

  lemma OtherKeepsUntouched(st: State, m: Move, st': State, t: ClientId)
    requires Inv(st) && Next(st, m, st') && IsId(t) && m.t != t && !st.client[m.t].given && Untouched(st, t)
    ensures t in st'.client && Untouched(st', t)
  {
    StepEffect(st, m, st', 0);
    if st.client[t].pc.Swapped? {
      assert OpOk(st, t) by {
        assert ClientOk(st, t);
      }
      OthersSlotsStay(st, m, st', st.client[t].ref);
    }
  }

  lemma OthersSlotsStay(st: State, m: Move, st': State, s: Slot)
    requires Inv(st) && Next(st, m, st') && !st.client[m.t].given && s in st.slot && !Owns(st, m.t, s)
    ensures s in st'.slot && st'.slot[s] == st.slot[s]
  {
    assert ClientOk(st, m.t);
    match m.a
    case Ref(a) => RefWritesOwn(st, m.t, a, s);
    case Own(a) => OwnWritesOwn(st, m.t, a, s);
    case Mon(a) => MonWritesOwn(st, m.t, a, s);
  }

  lemma SelfKeepsUntouched(st: State, t: ClientId, a: Act)
    requires t in st.client && t in st.era && Enabled(st, t, a) && OpOk(st, t) && RefsOk(st, t) && Untouched(st, t)
    ensures t in Apply(st, t, a).client && Untouched(Apply(st, t, a), t)
  {
    match a
    case Ref(r) => RefKeepsUntouched(st, t, r);
    case Own(o) => OwnKeepsUntouched(st, t, o);
    case Mon(m) => MonKeepsUntouched(st, t, m);
  }

  lemma NextKeepsUntouched(st: State, m: Move, st': State, t: ClientId)
    requires Inv(st) && Next(st, m, st') && IsId(t) && t in st.client && !st.client[m.t].given && Untouched(st, t)
    ensures t in st'.client && Untouched(st', t)
  {
    if m.t != t {
      OtherKeepsUntouched(st, m, st', t);
    } else {
      assert ClientOk(st, t);
      SelfKeepsUntouched(st, t, m.a);
    }
  }

  lemma StepKeepsUntouched(states: seq<State>, moves: seq<Move>, k: nat, t: ClientId)
    requires Run(states, moves) && k < |moves| && IsId(t) && t in states[k].client && Untouched(states[k], t)
    requires forall p | 0 <= p < k :: !HandsOver(moves[p].a)
    ensures t in states[k + 1].client && Untouched(states[k + 1], t)
  {
    RunInv(states, moves, k);
    RunStep(states, moves, k);
    NothingGiven(states, moves, k, moves[k].t);
    NextKeepsUntouched(states[k], moves[k], states[k + 1], t);
  }

  lemma {:induction false} AllUntouched(states: seq<State>, moves: seq<Move>, i: nat, t: ClientId)
    requires Run(states, moves) && i < |states| && IsId(t) && forall p | 0 <= p < i :: !HandsOver(moves[p].a)
    ensures t in states[i].client && Untouched(states[i], t)
  {
    if i > 0 {
      AllUntouched(states, moves, i - 1, t);
      StepKeepsUntouched(states, moves, i - 1, t);
    }
  }

  /** Unlinks of o committed but not yet cleared, including those of crashed clients. */
  function UnlinksPending(st: State, o: Obj): set<Slot>
    requires Shape(st)
  {
    set s | s in st.slot && var c := st.client[st.owner[s]];
            c.pc.Swapped? && c.ref == s && !c.link && c.refed == o
  }

  /** While no slot has changed hands, the count of an object is the number of slots holding
      it, plus links committed but not stored, minus unlinks committed but not cleared, minus
      roots of unfinished allocations. */
  lemma CountingWithoutHandOvers(states: seq<State>, moves: seq<Move>, i: nat, o: Obj)
    requires Run(states, moves) && i < |states| && o in states[i].word
    requires forall p | 0 <= p < i :: !HandsOver(moves[p].a)
    ensures Shape(states[i])
    ensures states[i].word[o].cnt == |Holding(states[i], o)| + |LinksPending(states[i], o)|
                                    - |UnlinksPending(states[i], o)| - |RootsTorn(states[i], o)|
  {
    CrashConsistentCounting(states, moves, i, o);
    RunInv(states, moves, i);
    var st := states[i];
    forall s | s in st.slot ensures s in UnlinksPending(st, o) <==> s in Outdated(st, o) {
      AllUntouched(states, moves, i, st.owner[s]);
    }
    assert UnlinksPending(st, o) == Outdated(st, o);
  }

  /** When every slot stays with its client, as roots do, no replay needs to be excluded:
      the theorems about runs hold of every run. */
  lemma {:induction false} RootRunsAreClean(states: seq<State>, moves: seq<Move>)
    requires AnyRun(states, moves)
    requires forall p | 0 <= p < |moves| :: !HandsOver(moves[p].a)
    ensures Run(states, moves)
  {
    if |moves| > 0 {
      var n := |moves| - 1;
      AnyRunPrefix(states, moves);
      RootRunsAreClean(states[..n + 1], moves[..n]);
      NothingGiven(states[..n + 1], moves[..n], n, moves[n].t);
      RunExtends(states[..n + 1], moves[..n], moves[n], states[n + 1]);
      assert states == states[..n + 1] + [states[n + 1]] && moves == moves[..n] + [moves[n]];
    }
  }

  lemma AnyRunPrefix(states: seq<State>, moves: seq<Move>)
    requires AnyRun(states, moves) && |moves| > 0
    ensures AnyRun(states[..|moves|], moves[..|moves| - 1])
    ensures AnyNext(states[|moves| - 1], moves[|moves| - 1], states[|moves|])
  {
    var n := |moves| - 1;
    assert AnyNext(states[n], moves[n], states[n + 1]);
    var states', moves' := states[..n + 1], moves[..n];
    forall i | 0 <= i < n ensures AnyNext(states'[i], moves'[i], states'[i + 1]) {
      assert AnyNext(states[i], moves[i], states[i + 1]);
    }
  }
}
