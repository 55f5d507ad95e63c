/** Properties of whole runs of the era protocol that relate several states: stamps are
    unique, a successful CAS saw no write in between, an object dies once per life, and
    nothing overflows the packed word. */
module EraHistory {
  import opened Common
  import opened RefInfo
  import opened RedoLog
  import opened EraProtocol
  import opened EraInvariant
  import opened EraSteps
  import opened EraTheorems

  predicate HandsOver(a: Act) {
    a.Own? && a.own.Give?
  }

  // ----- what one step does to a client and to a word

  lemma RefEffect(st: State, t: ClientId, a: RefAct, o: Obj)
    requires t in st.client && t in st.era && EnabledRef(st, t, a)
    ensures var c, c' := st.client[t], ApplyRef(st, t, a).client[t];
            && ApplyRef(st, t, a).client == st.client[t := c'] && c'.phase == c.phase
            && (c'.pc.Sees() && !a.Read? ==> c.pc.Sees() && c'.saw == c.saw && c'.refed == c.refed)
            && (c'.given ==> c.given)
    ensures WordAt(ApplyRef(st, t, a), o) ==
            if st.client[t].refed == o && a.CasOk? then Word(t, SwappedCnt(st.client[t]), Era(st, t, t))
            else if st.client[t].refed == o && a.Zero? then ZERO
            else WordAt(st, o)
  {
  }

  lemma OwnEffect(st: State, t: ClientId, a: OwnAct, o: Obj)
    requires t in st.client && t in st.era && EnabledOwn(st, t, a)
    ensures var c, c' := st.client[t], ApplyOwn(st, t, a).client[t];
            && ApplyOwn(st, t, a).client == st.client[t := c'] && c'.phase == c.phase && !c'.pc.Sees()
            && (c'.given && !a.Give? ==> c.given)
    ensures WordAt(ApplyOwn(st, t, a), o)
         == if st.client[t].refed == o && a.Stamp? then st.client[t].saw else WordAt(st, o)
  {
  }

  lemma MonEffect(st: State, t: ClientId, a: MonAct, o: Obj)
    requires t in st.client && t in st.era && EnabledMon(st, t, a)
    ensures var c, c' := st.client[t], ApplyMon(st, t, a).client[t];
            && ApplyMon(st, t, a).client == st.client[t := c']
            && (c.phase.Recovered? ==> c'.phase.Recovered?) && (!c.phase.Up? ==> !c'.phase.Up?)
            && (c'.pc.Sees() ==> c.pc.Sees() && c'.saw == c.saw && c'.refed == c.refed)
            && (c'.given ==> c.given)
    ensures WordAt(ApplyMon(st, t, a), o) == WordAt(st, o)
  {
  }

  lemma StepEffect(st: State, m: Move, st': State, o: Obj)
    requires Next(st, m, st')
    ensures m.t in st'.client && st'.client == st.client[m.t := st'.client[m.t]]
    ensures st.client[m.t].phase.Recovered? ==> st'.client[m.t].phase.Recovered?
    ensures !st.client[m.t].phase.Up? ==> !st'.client[m.t].phase.Up?
    ensures var c, c' := st.client[m.t], st'.client[m.t];
            && (c'.pc.Sees() && m.a != Ref(Read) ==> c.pc.Sees() && c'.saw == c.saw && c'.refed == c.refed)
            && (c'.given && !HandsOver(m.a) ==> c.given)
    ensures WordAt(st', o) != WordAt(st, o) ==>
              || (m.a == Ref(CasOk) && st.client[m.t].refed == o && WordAt(st, o).cnt == st.client[m.t].saw.cnt)
              || (Births(st, m, o) && WordAt(st', o) == st.client[m.t].saw)
              || (Frees(st, m, o) && WordAt(st', o) == ZERO)
  {
    match m.a
    case Ref(r) => RefEffect(st, m.t, r, o);
    case Own(w) => OwnEffect(st, m.t, w, o);
    case Mon(a) => MonEffect(st, m.t, a, o);
  }

  // ----- monotonicity along a run

  lemma {:induction false} RecoveredForGood(states: seq<State>, moves: seq<Move>, i: nat, k: nat, t: ClientId)
    requires Run(states, moves) && i <= k < |states| && t in states[i].client && states[i].client[t].phase.Recovered?
    ensures t in states[k].client && states[k].client[t].phase.Recovered?
  {
    if i < k {
      RecoveredForGood(states, moves, i, k - 1, t);
      RunStep(states, moves, k - 1);
      StepEffect(states[k - 1], moves[k - 1], states[k], 0);
    }
  }

  /** A crashed client never comes back. */
  lemma {:induction false} DownForGood(states: seq<State>, moves: seq<Move>, i: nat, k: nat, t: ClientId)
    requires Run(states, moves) && i <= k < |states| && t in states[i].client && !states[i].client[t].phase.Up?
    ensures t in states[k].client && !states[k].client[t].phase.Up?
  {
    if i < k {
      DownForGood(states, moves, i, k - 1, t);
      RunStep(states, moves, k - 1);
      StepEffect(states[k - 1], moves[k - 1], states[k], 0);
    }
  }

  ghost predicate SameTables(st: State, st': State) {
    st'.word.Keys == st.word.Keys && st'.slot.Keys == st.slot.Keys
  }

  lemma RunStepKeepsTables(states: seq<State>, moves: seq<Move>, k: nat)
    requires Run(states, moves) && k < |moves|
    ensures SameTables(states[k], states[k + 1])
  {
    RunInv(states, moves, k);
    RunStep(states, moves, k);
    StepFrames(states[k], moves[k], states[k + 1]);
  }

  lemma {:induction false} RunKeepsTables(states: seq<State>, moves: seq<Move>, i: nat, k: nat)
    requires Run(states, moves) && i <= k < |states|
    ensures states[k].word.Keys == states[i].word.Keys && states[k].slot.Keys == states[i].slot.Keys
  {
    if i < k {
      RunKeepsTables(states, moves, i, k - 1);
      RunStepKeepsTables(states, moves, k - 1);
    }
  }

  // ----- stamps

  /** The step writes the word of o with a stamp. */
  ghost predicate Installs(st: State, m: Move, o: Obj) {
    && m.t in st.client && st.client[m.t].refed == o
    && (m.a == Ref(CasOk) || m.a == Own(Stamp))
  }

  /** What a fresh stamp is: the next era of t, above every stamp of t there is. */
  ghost predicate FreshStamp(st: State, st': State, t: ClientId, o: Obj)
    requires t in st.client && t in st'.client
  {
    && o in st'.word && st'.word[o].cid == t && st'.word[o].era == Hi(st, t) + 1 == Hi(st', t)
    && (forall p | p in st.word && st.word[p].cid == t :: st.word[p].era < st'.word[o].era)
  }

  lemma CasStamp(st: State, t: ClientId)
    requires Shape(st) && IsId(t) && EnabledRef(st, t, CasOk) && RefsOk(st, t) && StampsOk(st, t) && SelfOk(st, t)
    requires !st.client[t].phase.Recovered?
    ensures FreshStamp(st, ApplyRef(st, t, CasOk), t, st.client[t].refed)
  {
  }

  lemma AllocStamp(st: State, t: ClientId)
    requires Shape(st) && IsId(t) && EnabledOwn(st, t, Stamp) && RefsOk(st, t) && StampsOk(st, t) && TornOk(st, t)
    ensures FreshStamp(st, ApplyOwn(st, t, Stamp), t, st.client[t].refed)
  {
  }

  /** A client that is not being recovered stamps with an era nobody has committed under
      its name before, on any object. */
  lemma StampIsFresh(st: State, m: Move, st': State, o: Obj)
    requires Inv(st) && Next(st, m, st') && Installs(st, m, o) && !st.client[m.t].phase.Recovered?
    ensures m.t in st'.client && FreshStamp(st, st', m.t, o)
  {
    assert ClientOk(st, m.t);
    if m.a == Ref(CasOk) {
      CasStamp(st, m.t);
    } else {
      AllocStamp(st, m.t);
    }
  }

  lemma RunStampIsFresh(states: seq<State>, moves: seq<Move>, n: nat, o: Obj)
    requires Run(states, moves) && n < |moves| && Installs(states[n], moves[n], o)
    requires !states[n].client[moves[n].t].phase.Recovered?
    ensures moves[n].t in states[n + 1].client && FreshStamp(states[n], states[n + 1], moves[n].t, o)
  {
    RunInv(states, moves, n);
    RunStep(states, moves, n);
    StampIsFresh(states[n], moves[n], states[n + 1], o);
  }

  /** A client installs each stamp at most once in a run. */
  lemma StampInstalledOnce(states: seq<State>, moves: seq<Move>, i: nat, k: nat, o: Obj, p: Obj)
    requires Run(states, moves) && i < k < |moves| && moves[i].t == moves[k].t
    requires Installs(states[i], moves[i], o) && Installs(states[k], moves[k], p)
    requires !states[k].client[moves[k].t].phase.Recovered?
    ensures WordAt(states[i + 1], o).era < WordAt(states[k + 1], p).era
  {
    RunStep(states, moves, i);
    RunStep(states, moves, k);
    if states[i].client[moves[i].t].phase.Recovered? {
      RecoveredForGood(states, moves, i, k, moves[i].t);
    }
    RunStampIsFresh(states, moves, i, o);
    RunStampIsFresh(states, moves, k, p);
    RunGrows(states, moves, i + 1, k, moves[i].t, moves[i].t);
  }

  lemma WordWasThere(states: seq<State>, moves: seq<Move>, i: nat, n: nat, o: Obj, w: Word)
    requires Run(states, moves) && i <= n < |moves| && IsId(w.cid)
    requires WordAt(states[i], o) == WordAt(states[n + 1], o) == w
    requires w.cid in states[n].client && !states[n].client[w.cid].phase.Recovered?
    ensures WordAt(states[n], o) == w
  {
    StampCommitted(states, moves, i, n, o, w);
    RunStep(states, moves, n);
    StepEffect(states[n], moves[n], states[n + 1], o);
    if WordAt(states[n], o) != w && !states[n].client[moves[n].t].phase.Recovered? {
      RunStampIsFresh(states, moves, n, o);
    }
  }

  /** A stamped word that is there now, with an era committed before, was there before. */
  lemma {:induction false} WordStaysBack(states: seq<State>, moves: seq<Move>, i: nat, n: nat, k: nat, o: Obj, w: Word)
    requires Run(states, moves) && i <= n <= k < |states| && IsId(w.cid)
    requires WordAt(states[i], o) == WordAt(states[k], o) == w
    requires w.cid in states[k].client && !states[k].client[w.cid].phase.Recovered?
    ensures WordAt(states[n], o) == w
    decreases k - n
  {
    if n < k {
      WordStaysBack(states, moves, i, n + 1, k, o, w);
      StampCommitted(states, moves, i, n, o, w);
      if states[n].client[w.cid].phase.Recovered? {
        RecoveredForGood(states, moves, n, k, w.cid);
      }
      WordWasThere(states, moves, i, n, o, w);
    }
  }

  lemma StampCommitted(states: seq<State>, moves: seq<Move>, i: nat, n: nat, o: Obj, w: Word)
    requires Run(states, moves) && i <= n < |states| && IsId(w.cid) && WordAt(states[i], o) == w
    ensures w.cid in states[n].client && w.era <= Hi(states[n], w.cid)
  {
    RunInv(states, moves, i);
    assert ClientOk(states[i], w.cid);
    RunGrows(states, moves, i, n, w.cid, w.cid);
  }

  /** Between reading a word and the CAS, a client keeps what it has read. */
  lemma {:induction false} KeepsWhatItSaw(states: seq<State>, moves: seq<Move>, i: nat, k: nat, t: ClientId)
    requires Run(states, moves) && i < k < |states| && moves[i] == Move(t, Ref(Read))
    requires forall p | i < p < k :: moves[p] != Move(t, Ref(Read))
    ensures t in states[i].client && t in states[k].client
    ensures var c, c' := states[i].client[t], states[k].client[t];
            c'.pc.Sees() ==> c'.saw == WordAt(states[i], c.refed) && c'.refed == c.refed
  {
    RunStep(states, moves, k - 1);
    if i < k - 1 {
      KeepsWhatItSaw(states, moves, i, k - 1, t);
      StepEffect(states[k - 1], moves[k - 1], states[k], 0);
    }
  }

  /** A successful CAS means that no write intervened since the word was read: the compare
      cannot be fooled by a word that went away and came back, as long as the client
      that stamped it is not being recovered. */
  lemma NoWriteIntervened(states: seq<State>, moves: seq<Move>, i: nat, n: nat, k: nat, t: ClientId)
    requires Run(states, moves) && i <= n <= k < |moves|
    requires moves[i] == Move(t, Ref(Read)) && moves[k] == Move(t, Ref(CasOk))
    requires forall p | i < p < k :: moves[p] != Move(t, Ref(Read))
    requires t in states[k].client
    requires var other := states[k].client[t].saw.cid;
             other in states[k].client && !states[k].client[other].phase.Recovered?
    ensures WordAt(states[n], states[k].client[t].refed) == states[k].client[t].saw
  {
    if i < k {
      KeepsWhatItSaw(states, moves, i, k, t);
      CasSees(states, moves, k, t);
      WordStaysBack(states, moves, i, n, k, states[k].client[t].refed, states[k].client[t].saw);
    }
  }

  lemma CasSees(states: seq<State>, moves: seq<Move>, k: nat, t: ClientId)
    requires Run(states, moves) && k < |moves| && moves[k] == Move(t, Ref(CasOk))
    ensures t in states[k].client
    ensures CasOnCounted(states[k], states[k].client[t])
  {
    RunInv(states, moves, k);
    RunStep(states, moves, k);
    assert ClientOk(states[k], t);
    CasSeesCounted(states[k], t);
  }

  lemma CasSeesCounted(st: State, t: ClientId)
    requires t in st.client && EnabledRef(st, t, CasOk) && RefsOk(st, t) && WordsOk(st)
    ensures CasOnCounted(st, st.client[t])
  {
  }

  ghost predicate CasOnCounted(st: State, c: Client) {
    c.pc.Sees() && IsId(c.saw.cid) && c.saw.cnt >= 1 && WordAt(st, c.refed) == c.saw && c.refed !in st.pool
  }

  // ----- one life, one death

  /** The CAS that takes the last count. */
  ghost predicate Kills(st: State, m: Move, o: Obj) {
    && m.a == Ref(CasOk) && m.t in st.client
    && st.client[m.t].refed == o && !st.client[m.t].link && st.client[m.t].saw.cnt == 1
  }

  /** The store that gives a new object its first count. */
  ghost predicate Births(st: State, m: Move, o: Obj) {
    m.a == Own(Stamp) && m.t in st.client && st.client[m.t].refed == o
  }

  /** The freeing of the block. */
  ghost predicate Frees(st: State, m: Move, o: Obj) {
    m.a == Ref(Zero) && m.t in st.client && st.client[m.t].refed == o
  }

  /** Link and unlink act on live objects only, so no count passes below zero and no
      freed object comes back to life through a link. */
  lemma CasOnlyOnLive(states: seq<State>, moves: seq<Move>, k: nat, t: ClientId)
    requires Run(states, moves) && k < |moves| && moves[k] == Move(t, Ref(CasOk))
    ensures t in states[k].client
    ensures var c := states[k].client[t];
            && WordAt(states[k], c.refed).cnt >= 1 && c.refed !in states[k].pool
            && WordAt(states[k + 1], c.refed).cnt
            == if c.link then WordAt(states[k], c.refed).cnt + 1 else WordAt(states[k], c.refed).cnt - 1
  {
    CasSees(states, moves, k, t);
    RunStep(states, moves, k);
    RefEffect(states[k], t, CasOk, states[k].client[t].refed);
  }

  /** Without a birth, a dead object stays dead and a free block stays free. */
  lemma {:induction false} DeadUntilBirth(states: seq<State>, moves: seq<Move>, i: nat, k: nat, o: Obj)
    requires Run(states, moves) && i <= k < |states|
    requires forall p | i <= p < k :: !Births(states[p], moves[p], o)
    ensures WordAt(states[i], o).cnt == 0 ==> WordAt(states[k], o).cnt == 0
    ensures WordAt(states[i], o) == ZERO ==> WordAt(states[k], o) == ZERO
  {
    if i < k {
      DeadUntilBirth(states, moves, i, k - 1, o);
      var m := moves[k - 1];
      RunStep(states, moves, k - 1);
      StepEffect(states[k - 1], m, states[k], o);
      if m.a == Ref(CasOk) {
        CasSees(states, moves, k - 1, m.t);
      }
    }
  }

  /** Exactly one unlink per life of an object sees the 1-to-0 CAS. */
  lemma DiesOncePerLife(states: seq<State>, moves: seq<Move>, i: nat, k: nat, o: Obj)
    requires Run(states, moves) && i < k < |moves|
    requires Kills(states[i], moves[i], o) && Kills(states[k], moves[k], o)
    ensures exists p :: i < p < k && Births(states[p], moves[p], o)
  {
    CasOnlyOnLive(states, moves, i, moves[i].t);
    CasSees(states, moves, i, moves[i].t);
    CasOnlyOnLive(states, moves, k, moves[k].t);
    if forall p | i + 1 <= p < k :: !Births(states[p], moves[p], o) {
      DeadUntilBirth(states, moves, i + 1, k, o);
      assert false;
    }
  }

  /** The block freed carries the stamp of the client that counted it down. */
  lemma FreesOwnStamp(states: seq<State>, moves: seq<Move>, k: nat, o: Obj)
    requires Run(states, moves) && k < |moves| && Frees(states[k], moves[k], o)
    ensures WordAt(states[k], o) != ZERO && WordAt(states[k + 1], o) == ZERO
  {
    RunInv(states, moves, k);
    RunStep(states, moves, k);
    assert ClientOk(states[k], moves[k].t);
    RefEffect(states[k], moves[k].t, Zero, o);
  }

  /** Nor is a block freed twice without having been handed out in between. */
  lemma FreedOncePerLife(states: seq<State>, moves: seq<Move>, i: nat, k: nat, o: Obj)
    requires Run(states, moves) && i < k < |moves|
    requires Frees(states[i], moves[i], o) && Frees(states[k], moves[k], o)
    ensures exists p :: i < p < k && Births(states[p], moves[p], o)
  {
    FreesOwnStamp(states, moves, i, o);
    FreesOwnStamp(states, moves, k, o);
    if forall p | i + 1 <= p < k :: !Births(states[p], moves[p], o) {
      DeadUntilBirth(states, moves, i + 1, k, o);
      assert false;
    }
  }

  /** At any moment at most one client is on its way to free an object. */
  lemma OneUndertaker(st: State, t: ClientId, k: ClientId, o: Obj)
    requires Inv(st) && IsId(t) && IsId(k)
    requires st.client[t].pc.Freeing? && st.client[k].pc.Freeing?
    requires st.client[t].refed == o && st.client[k].refed == o
    ensures t == k && o !in st.pool && WordAt(st, o).cnt == 0 && forall s | s in st.slot :: Credit(st, s) != o
  {
    assert ClientOk(st, t) && ClientOk(st, k);
    forall s | s in st.slot ensures Credit(st, s) != o {
      if Credit(st, s) == o {
        CountPositive(Credits(st), s);
      }
    }
  }
}
