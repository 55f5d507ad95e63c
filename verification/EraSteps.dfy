/** Every clean step keeps the invariant. */
module EraSteps {
  import opened Common
  import opened RefInfo
  import opened RedoLog
  import opened EraProtocol
  import opened EraInvariant

  // ----- what a step of t may do to the shared state, as the other clients see it

  /** t writes only its own client record and its own row, and moves no table. */
  ghost predicate Framed(st: State, st': State, t: ClientId) {
    && Shape(st) && Shape(st')
    && st'.word.Keys == st.word.Keys && st'.slot.Keys == st.slot.Keys && st'.home == st.home
    && (forall k: nat | IsId(k) && k != t :: st'.client[k] == st.client[k] && st'.era[k] == st.era[k])
  }

  /** t writes only slots it owns, and hands over only those; as the exception, the replay of
      its record may write a slot whose content does not matter. */
  ghost predicate SlotsFramed(st: State, st': State, t: ClientId)
    requires Shape(st) && Shape(st') && st'.slot.Keys == st.slot.Keys
  {
    forall s | s in st.slot && st.owner[s] != t ::
      (st'.slot[s] == st.slot[s] || Spared(st, s, st'.slot[s])) && st'.owner[s] == st.owner[s]
  }

  /** How t may replace the word of an object: by CAS on a word whose stamp it has
      recorded, by freeing an object it counted down to zero, or by stamping a block
      it has just taken off its own free list. */
  ghost predicate WordChange(st: State, st': State, t: ClientId, o: Obj) {
    var w, w' := WordAt(st, o), WordAt(st', o);
    || (w.cnt >= 1 && IsId(w.cid) && w'.cid == t && (w.cid == t || Era(st', t, w.cid) >= w.era))
    || (w.cid == t && w' == ZERO)
    || (w == ZERO && Homed(st, o, t) && o !in st.pool && w'.cid == t)
  }

  ghost predicate WordsFramed(st: State, st': State, t: ClientId) {
    forall o :: WordAt(st', o) == WordAt(st, o) || WordChange(st, st', t, o)
  }

  ghost predicate PoolFramed(st: State, st': State, t: ClientId) {
    && (forall o | o in st.heads && !Homed(st, o, t) :: o in st'.heads)
    && (forall o | o in st'.pool && o !in st.pool :: WordAt(st, o).cid == t)
  }

  /** Row t only grows, and never beyond what the other clients have committed. */
  ghost predicate RowFramed(st: State, st': State, t: ClientId)
    requires Shape(st) && Shape(st') && IsId(t)
  {
    var c' := st'.client[t];
    && (forall k: nat | IsId(k) :: Era(st', t, k) >= Era(st, t, k))
    && (forall k: nat | IsId(k) && k != t :: Era(st', t, k) <= Hi(st, k))
    && (c'.pc.Sees() && IsId(c'.saw.cid) && c'.saw.cid != t ==> c'.saw.era <= Hi(st, c'.saw.cid))
  }

  lemma OtherStampsOk(st: State, st': State, t: ClientId, k: ClientId)
    requires IsId(t) && IsId(k) && k != t && Framed(st, st', t) && WordsFramed(st, st', t)
    requires StampsOk(st, k)
    ensures StampsOk(st', k)
  {
    forall o | o in st'.word && st'.word[o].cid == k ensures st'.word[o].era <= Hi(st', k) {
      assert WordAt(st', o) == st'.word[o];
    }
  }

  lemma OtherColumnOk(st: State, st': State, t: ClientId, k: ClientId)
    requires IsId(t) && IsId(k) && k != t && Framed(st, st', t) && RowFramed(st, st', t)
    requires ColumnOk(st, k) && SelfOk(st, k)
    ensures ColumnOk(st', k) && SelfOk(st', k)
  {
  }

  lemma OtherOpOk(st: State, st': State, t: ClientId, k: ClientId)
    requires IsId(t) && IsId(k) && k != t && Framed(st, st', t) && SlotsFramed(st, st', t)
    requires RefsOk(st, k) && OpOk(st, k) && MarkOk(st, k)
    ensures RefsOk(st', k) && OpOk(st', k) && MarkOk(st', k)
  {
  }

  lemma OtherDyingOk(st: State, st': State, t: ClientId, k: ClientId)
    requires IsId(t) && IsId(k) && k != t && Framed(st, st', t) && WordsFramed(st, st', t)
    requires DyingOk(st, k)
    ensures DyingOk(st', k)
  {
  }

  lemma StaysWorthless(st: State, st': State, t: ClientId, k: ClientId, o: Obj)
    requires IsId(k) && k != t && Framed(st, st', t) && WordsFramed(st, st', t) && Worthless(st, o, k)
    ensures Worthless(st', o, k)
    ensures o != 0 && WordAt(st, o) == ZERO ==> WordAt(st', o) == ZERO
  {
    assert WordAt(st', o) == WordAt(st, o) || WordChange(st, st', t, o);
  }

  lemma OtherTornOk(st: State, st': State, t: ClientId, k: ClientId)
    requires IsId(t) && IsId(k) && k != t && Framed(st, st', t)
    requires WordsFramed(st, st', t) && SlotsFramed(st, st', t) && PoolFramed(st, st', t)
    requires TornOk(st, k) && OpOk(st, k) && 0 !in st.word
    ensures TornOk(st', k)
  {
    var c := st.client[k];
    if c.torn != 0 {
      StaysWorthless(st, st', t, k, st.slot[c.torn]);
      StaysWorthless(st, st', t, k, st'.slot[c.torn]);
    }
  }

  lemma OtherLogOk(st: State, st': State, t: ClientId, k: ClientId)
    requires IsId(t) && IsId(k) && k != t && Framed(st, st', t) && SlotsFramed(st, st', t)
    requires LinesOk(st, k) && RecOk(st, k) && ReplayOk(st, k)
    ensures LinesOk(st', k) && RecOk(st', k) && ReplayOk(st', k)
  {
  }

  lemma OtherWitnessOk(st: State, st': State, t: ClientId, k: ClientId)
    requires IsId(t) && IsId(k) && k != t && Framed(st, st', t) && WordsFramed(st, st', t) && RowFramed(st, st', t)
    requires WitnessOk(st, k)
    ensures WitnessOk(st', k)
  {
  }

  lemma OtherRedoOk(st: State, st': State, t: ClientId, k: ClientId)
    requires IsId(t) && IsId(k) && k != t && Framed(st, st', t) && RowFramed(st, st', t)
    requires RedoOk(st, k)
    ensures RedoOk(st', k)
  {
  }

  // ----- the steps themselves

  ghost predicate Good(st: State, st': State, t: ClientId) {
    && IsId(t) && Framed(st, st', t)
    && SlotsFramed(st, st', t) && WordsFramed(st, st', t) && PoolFramed(st, st', t) && RowFramed(st, st', t)
    && WordsOk(st') && SlotsOk(st') && ClientOk(st', t) && Counted(st')
  }

  lemma GoodKeepsInv(st: State, st': State, t: ClientId)
    requires Inv(st) && Good(st, st', t)
    ensures Inv(st')
  {
    forall k: nat | IsId(k) ensures ClientOk(st', k) {
      if k != t {
        assert ClientOk(st, k);
        OtherStampsOk(st, st', t, k);
        OtherColumnOk(st, st', t, k);
        OtherOpOk(st, st', t, k);
        OtherDyingOk(st, st', t, k);
        OtherTornOk(st, st', t, k);
        OtherLogOk(st, st', t, k);
        OtherWitnessOk(st, st', t, k);
        OtherRedoOk(st, st', t, k);
      }
    }
  }

  /** Only the credit of slot s changes, and the counts follow. */
  lemma CreditMoves(st: State, st': State, t: ClientId, s: Slot)
    requires IsId(t) && Framed(st, st', t) && SlotsFramed(st, st', t) && Counted(st) && s in st.slot
    requires forall x | Owns(st, t, x) && x != s :: Credit(st', x) == Credit(st, x)
    requires Owns(st, t, s) || Credit(st', s) == Credit(st, s)
    requires forall o | o in st.word ::
               st'.word[o].cnt
               == st.word[o].cnt - (if Credit(st, s) == o then 1 else 0) + (if Credit(st', s) == o then 1 else 0)
    ensures Counted(st')
  {
    assert Credits(st') == Credits(st)[s := Credit(st', s)];
    forall o | o in st'.word ensures st'.word[o].cnt == CountOf(Credits(st'), o) {
      CountUpdate(Credits(st), s, Credit(st', s), o);
    }
  }

  lemma CreditsStay(st: State, st': State, t: ClientId)
    requires IsId(t) && Framed(st, st', t) && SlotsFramed(st, st', t) && Counted(st)
    requires forall x | Owns(st, t, x) :: Credit(st', x) == Credit(st, x)
    requires forall o | o in st.word :: st'.word[o].cnt == st.word[o].cnt
    ensures Counted(st')
  {
    assert Credits(st') == Credits(st);
  }

  /** All a step of t needs to know about the other clients: the eras t may have seen. */
  ghost predicate Bounded(st: State, t: ClientId)
    requires Shape(st) && IsId(t)
  {
    var c := st.client[t];
    && (forall k: nat | IsId(k) && k != t :: Era(st, t, k) <= Hi(st, k))
    && (c.pc.Sees() && IsId(c.saw.cid) && c.saw.cid != t ==> c.saw.era <= Hi(st, c.saw.cid))
  }

  ghost predicate Tables(st: State, t: ClientId) {
    Shape(st) && IsId(t) && WordsOk(st) && SlotsOk(st)
  }

  ghost predicate Frames(st: State, st': State, t: ClientId) {
    && IsId(t) && Framed(st, st', t)
    && SlotsFramed(st, st', t) && WordsFramed(st, st', t) && PoolFramed(st, st', t) && RowFramed(st, st', t)
    && WordsOk(st') && SlotsOk(st')
  }

  /** t changes its own record; the word it works with is one it may have seen. */
  ghost predicate OwnRecord(st: State, st': State, t: ClientId)
    requires Shape(st) && IsId(t)
  {
    && t in st'.client && st'.client == st.client[t := st'.client[t]]
    && (st'.client[t].pc.Sees() && IsId(st'.client[t].saw.cid) && st'.client[t].saw.cid != t ==>
          st'.client[t].saw.era <= Hi(st, st'.client[t].saw.cid))
  }

  lemma FramesRecord(st: State, st': State, t: ClientId)
    requires Tables(st, t) && Bounded(st, t) && OwnRecord(st, st', t)
    requires st' == st.(client := st'.client)
    ensures Frames(st, st', t)
  {
  }

  lemma FramesWord(st: State, st': State, t: ClientId, o: Obj, w: Word)
    requires Tables(st, t) && Bounded(st, t) && OwnRecord(st, st', t)
    requires st' == st.(client := st'.client, word := st.word[o := w])
    requires o in st.word && o !in st.pool && IsId(w.cid) && WordChange(st, st', t, o)
    ensures Frames(st, st', t)
  {
  }

  lemma FramesSlot(st: State, st': State, t: ClientId, s: Slot, o: Obj)
    requires Tables(st, t) && Bounded(st, t) && OwnRecord(st, st', t)
    requires st' == st.(client := st'.client, slot := st.slot[s := o])
    requires Owns(st, t, s) && (o == 0 || o in st.word)
    ensures Frames(st, st', t)
  {
  }

  /** The replay writes a slot of another client without harm. */
  lemma SparedFramesTables(st: State, st': State, t: ClientId, s: Slot, v: Obj)
    requires Tables(st, t) && Bounded(st, t) && OwnRecord(st, st', t)
    requires st' == st.(client := st'.client, slot := st.slot[s := v])
    requires s in st.slot && (st.slot[s] == v || Spared(st, s, v)) && (v == 0 || v in st.word)
    ensures IsId(t) && Framed(st, st', t) && WordsFramed(st, st', t) && PoolFramed(st, st', t) && RowFramed(st, st', t)
  {
  }

  lemma SparedFramesSlots(st: State, st': State, t: ClientId, s: Slot, v: Obj)
    requires Tables(st, t) && Bounded(st, t) && OwnRecord(st, st', t)
    requires st' == st.(client := st'.client, slot := st.slot[s := v])
    requires s in st.slot && (st.slot[s] == v || Spared(st, s, v)) && (v == 0 || v in st.word)
    requires Framed(st, st', t)
    ensures SlotsFramed(st, st', t)
  {
  }

  lemma FramesSpared(st: State, st': State, t: ClientId, s: Slot, v: Obj)
    requires Tables(st, t) && Bounded(st, t) && OwnRecord(st, st', t)
    requires st' == st.(client := st'.client, slot := st.slot[s := v])
    requires s in st.slot && (st.slot[s] == v || Spared(st, s, v)) && (v == 0 || v in st.word)
    ensures Frames(st, st', t)
  {
    SparedFramesTables(st, st', t, s, v);
    SparedFramesSlots(st, st', t, s, v);
  }

  lemma FramesRow(st: State, st': State, t: ClientId, k: ClientId, e: nat)
    requires Tables(st, t) && Bounded(st, t) && OwnRecord(st, st', t)
    requires st' == st.(client := st'.client, era := SetEra(st, t, k, e))
    requires Era(st, t, k) <= e && IsId(k) && (k != t ==> e <= Hi(st, k))
    ensures Frames(st, st', t)
  {
  }

  lemma FramesFree(st: State, st': State, t: ClientId, o: Obj)
    requires Tables(st, t) && Bounded(st, t) && OwnRecord(st, st', t)
    requires st' == st.(client := st'.client, word := st.word[o := ZERO], pool := st.pool + {o})
    requires o in st.word && st.word[o].cid == t
    ensures Frames(st, st', t)
  {
  }

  lemma FramesPop(st: State, st': State, t: ClientId, o: Obj, heads: set<Obj>)
    requires Tables(st, t) && Bounded(st, t) && OwnRecord(st, st', t)
    requires st' == st.(client := st'.client, pool := st.pool - {o}, heads := heads)
    requires Homed(st, o, t) && heads <= st.pool - {o} && st.heads - {o} <= heads
    ensures Frames(st, st', t)
  {
  }

  lemma FramesGive(st: State, st': State, t: ClientId, s: Slot, to: ClientId)
    requires Tables(st, t) && Bounded(st, t) && OwnRecord(st, st', t)
    requires st' == st.(client := st'.client, owner := st.owner[s := to])
    requires Owns(st, t, s) && IsId(to)
    ensures Frames(st, st', t)
  {
  }

  // ----- the client's own part of the invariant, one group of steps at a time

  lemma OwnColumnOk(st: State, st': State, t: ClientId)
    requires IsId(t) && Framed(st, st', t) && ColumnOk(st, t) && Hi(st', t) >= Hi(st, t)
    ensures ColumnOk(st', t)
  {
  }

  /** What the client's own part of the invariant takes from the tables. */
  ghost predicate Here(st: State, t: ClientId) {
    IsId(t) && t in st.client && t in st.era && st.owner.Keys == st.slot.Keys
  }

  /** Only the bump moves the client's own era. */
  lemma RefOwnEra(st: State, t: ClientId, a: RefAct)
    requires Here(st, t) && EnabledRef(st, t, a) && SelfOk(st, t)
    ensures Era(ApplyRef(st, t, a), t, t) == Era(st, t, t) + if a.Bump? then 1 else 0
  {
  }

  lemma PreparingRefsOk(st: State, t: ClientId, a: RefAct)
    requires Here(st, t) && SlotsOk(st) && EnabledRef(st, t, a)
    requires RefsOk(st, t)
    requires a.Read? ==> IsId(WordAt(st, st.client[t].refed).cid) && WordAt(st, st.client[t].refed).cnt >= 1
    requires Prepares(a)
    ensures RefsOk(ApplyRef(st, t, a), t)
  {
  }

  lemma CommittingRefsOk(st: State, t: ClientId, a: RefAct)
    requires Here(st, t) && SlotsOk(st) && EnabledRef(st, t, a)
    requires RefsOk(st, t)
    requires a.Read? ==> IsId(WordAt(st, st.client[t].refed).cid) && WordAt(st, st.client[t].refed).cnt >= 1
    requires !Prepares(a)
    ensures RefsOk(ApplyRef(st, t, a), t)
  {
  }

  lemma RefKeepsRefsOk(st: State, t: ClientId, a: RefAct)
    requires Here(st, t) && SlotsOk(st) && EnabledRef(st, t, a)
    requires RefsOk(st, t)
    requires a.Read? ==> IsId(WordAt(st, st.client[t].refed).cid) && WordAt(st, st.client[t].refed).cnt >= 1
    ensures RefsOk(ApplyRef(st, t, a), t)
  {
    if Prepares(a) {
      PreparingRefsOk(st, t, a);
    } else {
      CommittingRefsOk(st, t, a);
    }
  }

  /** The steps before the CAS. */
  predicate Prepares(a: RefAct) {
    a.BeginLink? || a.BeginUnlink? || a.Read? || a.Mark? || a.Log?
  }

  lemma PreparingOpOk(st: State, t: ClientId, a: RefAct)
    requires Here(st, t) && 0 !in st.slot && 0 !in st.word && EnabledRef(st, t, a)
    requires RefsOk(st, t) && OpOk(st, t) && TornOk(st, t)
    requires Prepares(a)
    ensures OpOk(ApplyRef(st, t, a), t)
  {
  }

  lemma CommittingOpOk(st: State, t: ClientId, a: RefAct)
    requires Here(st, t) && 0 !in st.slot && 0 !in st.word && EnabledRef(st, t, a)
    requires RefsOk(st, t) && OpOk(st, t) && TornOk(st, t)
    requires !Prepares(a)
    ensures OpOk(ApplyRef(st, t, a), t)
  {
  }

  lemma RefKeepsOpOk(st: State, t: ClientId, a: RefAct)
    requires Here(st, t) && 0 !in st.slot && 0 !in st.word && EnabledRef(st, t, a)
    requires RefsOk(st, t) && OpOk(st, t) && TornOk(st, t)
    ensures OpOk(ApplyRef(st, t, a), t)
  {
    if Prepares(a) {
      PreparingOpOk(st, t, a);
    } else {
      CommittingOpOk(st, t, a);
    }
  }

  lemma RefKeepsDyingOk(st: State, t: ClientId, a: RefAct)
    requires Here(st, t) && EnabledRef(st, t, a)
    requires RefsOk(st, t) && DyingOk(st, t) && MarkOk(st, t)
    ensures DyingOk(ApplyRef(st, t, a), t) && MarkOk(ApplyRef(st, t, a), t)
  {
  }

  /** The steps that write a word or a slot. */
  predicate Writes(a: RefAct) {
    a.CasOk? || a.Store? || a.Zero?
  }

  lemma WriteKeepsTornOk(st: State, t: ClientId, a: RefAct)
    requires Here(st, t) && EnabledRef(st, t, a) && Writes(a)
    requires RefsOk(st, t) && OpOk(st, t) && DyingOk(st, t) && TornOk(st, t)
    ensures TornOk(ApplyRef(st, t, a), t)
  {
  }

  lemma RefKeepsTornOk(st: State, t: ClientId, a: RefAct)
    requires Here(st, t) && EnabledRef(st, t, a) && !Writes(a) && TornOk(st, t)
    ensures TornOk(ApplyRef(st, t, a), t)
  {
    assert ApplyRef(st, t, a).word == st.word && ApplyRef(st, t, a).slot == st.slot;
  }

  lemma RefKeepsStampsOk(st: State, t: ClientId, a: RefAct)
    requires Here(st, t) && EnabledRef(st, t, a)
    requires StampsOk(st, t) && TornOk(st, t) && SelfOk(st, t)
    ensures StampsOk(ApplyRef(st, t, a), t)
  {
  }

  lemma RefKeepsSelfOk(st: State, t: ClientId, a: RefAct)
    requires Here(st, t) && EnabledRef(st, t, a)
    requires SelfOk(st, t)
    requires a.Read? && WordAt(st, st.client[t].refed).cid == t ==> WordAt(st, st.client[t].refed).era <= Hi(st, t)
    ensures SelfOk(ApplyRef(st, t, a), t)
    ensures Hi(ApplyRef(st, t, a), t) >= Hi(st, t)
  {
  }

  lemma RefKeepsLinesOk(st: State, t: ClientId, a: RefAct)
    requires Here(st, t) && EnabledRef(st, t, a)
    requires LinesOk(st, t) && RecOk(st, t) && SelfOk(st, t)
    ensures LinesOk(ApplyRef(st, t, a), t)
  {
    if a.Log? {
      WriteKeepsRingOk(st.client[t].ring, st.client[t].last, OpRec(st.client[t], Era(st, t, t)));
    }
  }

  lemma RefKeepsRecOk(st: State, t: ClientId, a: RefAct)
    requires Here(st, t) && EnabledRef(st, t, a)
    requires RecOk(st, t) && SelfOk(st, t)
    ensures RecOk(ApplyRef(st, t, a), t)
  {
    RefOwnEra(st, t, a);
  }

  lemma PreparingReplayOk(st: State, t: ClientId, a: RefAct)
    requires Here(st, t) && EnabledRef(st, t, a)
    requires OpOk(st, t) && TornOk(st, t) && LinesOk(st, t) && RecOk(st, t) && ReplayOk(st, t) && SelfOk(st, t)
    requires Prepares(a)
    ensures ReplayOk(ApplyRef(st, t, a), t)
  {
  }

  lemma CommittingReplayOk(st: State, t: ClientId, a: RefAct)
    requires Here(st, t) && EnabledRef(st, t, a)
    requires OpOk(st, t) && TornOk(st, t) && LinesOk(st, t) && RecOk(st, t) && ReplayOk(st, t) && SelfOk(st, t)
    requires !Prepares(a)
    ensures ReplayOk(ApplyRef(st, t, a), t)
  {
  }

  lemma RefKeepsReplayOk(st: State, t: ClientId, a: RefAct)
    requires Here(st, t) && EnabledRef(st, t, a)
    requires OpOk(st, t) && TornOk(st, t) && LinesOk(st, t) && RecOk(st, t) && ReplayOk(st, t) && SelfOk(st, t)
    ensures ReplayOk(ApplyRef(st, t, a), t)
  {
    if Prepares(a) {
      PreparingReplayOk(st, t, a);
    } else {
      CommittingReplayOk(st, t, a);
    }
  }

  lemma PreparingWitnessOk(st: State, t: ClientId, a: RefAct)
    requires Here(st, t) && EnabledRef(st, t, a)
    requires RefsOk(st, t) && WitnessOk(st, t) && SelfOk(st, t) && RecOk(st, t)
    requires Prepares(a)
    ensures WitnessOk(ApplyRef(st, t, a), t)
  {
  }

  lemma CommittingWitnessOk(st: State, t: ClientId, a: RefAct)
    requires Here(st, t) && EnabledRef(st, t, a)
    requires RefsOk(st, t) && WitnessOk(st, t) && SelfOk(st, t) && RecOk(st, t)
    requires !Prepares(a)
    ensures WitnessOk(ApplyRef(st, t, a), t)
  {
  }

  lemma RefKeepsWitnessOk(st: State, t: ClientId, a: RefAct)
    requires Here(st, t) && EnabledRef(st, t, a)
    requires RefsOk(st, t) && WitnessOk(st, t) && SelfOk(st, t) && RecOk(st, t)
    ensures WitnessOk(ApplyRef(st, t, a), t)
  {
    if Prepares(a) {
      PreparingWitnessOk(st, t, a);
    } else {
      CommittingWitnessOk(st, t, a);
    }
  }

  lemma RefKeepsRedoOk(st: State, t: ClientId, a: RefAct)
    requires Here(st, t) && EnabledRef(st, t, a)
    requires RecOk(st, t) && LinesOk(st, t) && WitnessOk(st, t) && RedoOk(st, t)
    ensures RedoOk(ApplyRef(st, t, a), t)
  {
  }

  lemma OwnKeepsRefsOk(st: State, t: ClientId, a: OwnAct)
    requires Here(st, t) && WordsOk(st) && SlotsOk(st) && EnabledOwn(st, t, a)
    requires RefsOk(st, t)
    ensures RefsOk(ApplyOwn(st, t, a), t)
  {
  }

  lemma OwnKeepsOpOk(st: State, t: ClientId, a: OwnAct)
    requires Here(st, t) && 0 !in st.slot && 0 !in st.word && EnabledOwn(st, t, a)
    requires RefsOk(st, t) && OpOk(st, t) && TornOk(st, t)
    ensures OpOk(ApplyOwn(st, t, a), t)
  {
  }

  lemma OwnKeepsDyingOk(st: State, t: ClientId, a: OwnAct)
    requires Here(st, t) && EnabledOwn(st, t, a)
    requires RefsOk(st, t) && DyingOk(st, t) && MarkOk(st, t)
    ensures DyingOk(ApplyOwn(st, t, a), t) && MarkOk(ApplyOwn(st, t, a), t)
  {
  }

  lemma OwnKeepsTornOk(st: State, t: ClientId, a: OwnAct)
    requires Here(st, t) && WordsOk(st) && SlotsOk(st) && EnabledOwn(st, t, a)
    requires RefsOk(st, t) && OpOk(st, t) && DyingOk(st, t) && TornOk(st, t) && SelfOk(st, t)
    ensures TornOk(ApplyOwn(st, t, a), t)
  {
  }

  lemma OwnKeepsStampsOk(st: State, t: ClientId, a: OwnAct)
    requires Here(st, t) && EnabledOwn(st, t, a)
    requires StampsOk(st, t) && TornOk(st, t)
    ensures StampsOk(ApplyOwn(st, t, a), t)
  {
  }

  lemma OwnKeepsSelfOk(st: State, t: ClientId, a: OwnAct)
    requires Here(st, t) && EnabledOwn(st, t, a)
    requires SelfOk(st, t)
    ensures SelfOk(ApplyOwn(st, t, a), t)
    ensures Hi(ApplyOwn(st, t, a), t) >= Hi(st, t)
  {
  }

  lemma OwnKeepsLinesOk(st: State, t: ClientId, a: OwnAct)
    requires Here(st, t) && EnabledOwn(st, t, a)
    requires LinesOk(st, t) && RecOk(st, t) && SelfOk(st, t)
    ensures LinesOk(ApplyOwn(st, t, a), t)
  {
  }

  lemma OwnKeepsRecOk(st: State, t: ClientId, a: OwnAct)
    requires Here(st, t) && EnabledOwn(st, t, a)
    requires RecOk(st, t) && SelfOk(st, t)
    ensures RecOk(ApplyOwn(st, t, a), t)
  {
  }

  lemma OwnKeepsReplayOk(st: State, t: ClientId, a: OwnAct)
    requires Here(st, t) && 0 !in st.slot && 0 !in st.word && EnabledOwn(st, t, a)
    requires RefsOk(st, t) && OpOk(st, t) && TornOk(st, t) && LinesOk(st, t) && RecOk(st, t) && ReplayOk(st, t)
    requires SelfOk(st, t)
    ensures ReplayOk(ApplyOwn(st, t, a), t)
  {
    var c := st.client[t];
    assert c.last != EMPTY ==> c.ring[c.last.era % REDO_CACHELINE_CNT] == c.last;
  }

  lemma OwnKeepsWitnessOk(st: State, t: ClientId, a: OwnAct)
    requires Here(st, t) && EnabledOwn(st, t, a)
    requires RefsOk(st, t) && WitnessOk(st, t) && TornOk(st, t) && RecOk(st, t)
    ensures WitnessOk(ApplyOwn(st, t, a), t)
  {
  }

  lemma OwnKeepsRedoOk(st: State, t: ClientId, a: OwnAct)
    requires Here(st, t) && EnabledOwn(st, t, a)
    requires RecOk(st, t) && LinesOk(st, t) && WitnessOk(st, t) && RedoOk(st, t)
    ensures RedoOk(ApplyOwn(st, t, a), t)
  {
  }

  lemma MonKeepsRefsOk(st: State, t: ClientId, a: MonAct)
    requires Here(st, t) && 0 !in st.slot && 0 !in st.word && EnabledMon(st, t, a)
    requires RefsOk(st, t)
    ensures RefsOk(ApplyMon(st, t, a), t)
  {
  }

  lemma ScanKeepsOpOk(st: State, t: ClientId, a: MonAct)
    requires Here(st, t) && 0 !in st.slot && 0 !in st.word && EnabledMon(st, t, a)
    requires RefsOk(st, t) && OpOk(st, t) && TornOk(st, t)
    requires a.Skip? || a.Release?
    ensures OpOk(ApplyMon(st, t, a), t)
  {
  }

  lemma WriteKeepsOpOk(st: State, t: ClientId, a: MonAct)
    requires Here(st, t) && 0 !in st.slot && 0 !in st.word && EnabledMon(st, t, a)
    requires RefsOk(st, t) && OpOk(st, t) && TornOk(st, t)
    requires !(a.Skip? || a.Release?)
    requires a.RedoWrite?
    ensures OpOk(ApplyMon(st, t, a), t)
  {
  }

  lemma PhaseKeepsOpOk(st: State, t: ClientId, a: MonAct)
    requires Here(st, t) && 0 !in st.slot && 0 !in st.word && EnabledMon(st, t, a)
    requires RefsOk(st, t) && OpOk(st, t) && TornOk(st, t)
    requires !(a.Skip? || a.Release?)
    requires !a.RedoWrite?
    ensures OpOk(ApplyMon(st, t, a), t)
  {
  }

  lemma RedoKeepsOpOk(st: State, t: ClientId, a: MonAct)
    requires Here(st, t) && 0 !in st.slot && 0 !in st.word && EnabledMon(st, t, a)
    requires RefsOk(st, t) && OpOk(st, t) && TornOk(st, t)
    requires !(a.Skip? || a.Release?)
    ensures OpOk(ApplyMon(st, t, a), t)
  {
    if a.RedoWrite? {
      WriteKeepsOpOk(st, t, a);
    } else {
      PhaseKeepsOpOk(st, t, a);
    }
  }

  lemma MonKeepsOpOk(st: State, t: ClientId, a: MonAct)
    requires Here(st, t) && 0 !in st.slot && 0 !in st.word && EnabledMon(st, t, a)
    requires RefsOk(st, t) && OpOk(st, t) && TornOk(st, t)
    ensures OpOk(ApplyMon(st, t, a), t)
  {
    if a.Skip? || a.Release? {
      ScanKeepsOpOk(st, t, a);
    } else {
      RedoKeepsOpOk(st, t, a);
    }
  }

  lemma MonKeepsDyingOk(st: State, t: ClientId, a: MonAct)
    requires Here(st, t) && EnabledMon(st, t, a)
    requires RefsOk(st, t) && DyingOk(st, t) && MarkOk(st, t)
    ensures DyingOk(ApplyMon(st, t, a), t) && MarkOk(ApplyMon(st, t, a), t)
  {
  }

  lemma MonKeepsTornOk(st: State, t: ClientId, a: MonAct)
    requires Here(st, t) && 0 !in st.slot && 0 !in st.word && EnabledMon(st, t, a)
    requires RefsOk(st, t) && OpOk(st, t) && DyingOk(st, t) && TornOk(st, t) && LinesOk(st, t) && ReplayOk(st, t)
    requires RedoOk(st, t) && Clean(st, t, Mon(a))
    ensures TornOk(ApplyMon(st, t, a), t)
  {
    NewestIsLast(st.client[t].ring, st.client[t].last);
  }

  lemma MonKeepsStampsOk(st: State, t: ClientId, a: MonAct)
    requires Here(st, t) && EnabledMon(st, t, a)
    requires StampsOk(st, t) && TornOk(st, t)
    ensures StampsOk(ApplyMon(st, t, a), t)
  {
  }

  lemma MonKeepsSelfOk(st: State, t: ClientId, a: MonAct)
    requires Here(st, t) && EnabledMon(st, t, a)
    requires SelfOk(st, t)
    ensures SelfOk(ApplyMon(st, t, a), t)
    ensures Hi(ApplyMon(st, t, a), t) >= Hi(st, t)
  {
  }

  lemma MonKeepsLinesOk(st: State, t: ClientId, a: MonAct)
    requires Here(st, t) && EnabledMon(st, t, a)
    requires LinesOk(st, t) && RecOk(st, t) && SelfOk(st, t)
    ensures LinesOk(ApplyMon(st, t, a), t)
  {
  }

  lemma MonKeepsRecOk(st: State, t: ClientId, a: MonAct)
    requires Here(st, t) && EnabledMon(st, t, a)
    requires LinesOk(st, t) && RecOk(st, t) && SelfOk(st, t)
    ensures RecOk(ApplyMon(st, t, a), t)
  {
  }

  lemma MonKeepsReplayOk(st: State, t: ClientId, a: MonAct)
    requires Here(st, t) && EnabledMon(st, t, a)
    requires OpOk(st, t) && TornOk(st, t) && LinesOk(st, t) && RecOk(st, t) && ReplayOk(st, t) && SelfOk(st, t)
    ensures ReplayOk(ApplyMon(st, t, a), t)
  {
  }

  lemma MonKeepsWitnessOk(st: State, t: ClientId, a: MonAct)
    requires Here(st, t) && EnabledMon(st, t, a)
    requires RefsOk(st, t) && WitnessOk(st, t)
    ensures WitnessOk(ApplyMon(st, t, a), t)
  {
  }

  lemma MonKeepsRedoOk(st: State, t: ClientId, a: MonAct)
    requires Here(st, t) && 0 !in st.slot && 0 !in st.word && EnabledMon(st, t, a)
    requires RecOk(st, t) && LinesOk(st, t) && WitnessOk(st, t) && RedoOk(st, t) && StampsOk(st, t)
    requires ColumnOk(st, t) && SelfOk(st, t) && RefsOk(st, t)
    ensures RedoOk(ApplyMon(st, t, a), t)
  {
    NewestIsLast(st.client[t].ring, st.client[t].last);
  }

  // ----- frames and counts, one group of steps at a time

  lemma MarkFrames(st: State, t: ClientId)
    requires Tables(st, t) && Bounded(st, t) && EnabledRef(st, t, Mark) && RefsOk(st, t) && SelfOk(st, t)
    ensures Frames(st, ApplyRef(st, t, Mark), t)
  {
    var c := st.client[t];
    if c.saw.era > Era(st, t, c.saw.cid) {
      FramesRow(st, ApplyRef(st, t, Mark), t, c.saw.cid, c.saw.era);
    } else {
      FramesRecord(st, ApplyRef(st, t, Mark), t);
    }
  }

  /** The steps that change the client's record and nothing else. */
  lemma RecordFrames(st: State, t: ClientId, a: RefAct)
    requires Tables(st, t) && Bounded(st, t) && EnabledRef(st, t, a) && !Writes(a) && !a.Mark? && !a.Bump?
    requires var w := WordAt(st, st.client[t].refed);
             a.Read? && w.cid != t ==> IsId(w.cid) && w.era <= Hi(st, w.cid)
    ensures Frames(st, ApplyRef(st, t, a), t)
  {
    FramesRecord(st, ApplyRef(st, t, a), t);
  }

  lemma CasFrames(st: State, t: ClientId)
    requires Tables(st, t) && Bounded(st, t) && EnabledRef(st, t, CasOk)
    requires RefsOk(st, t) && MarkOk(st, t)
    ensures Frames(st, ApplyRef(st, t, CasOk), t)
  {
    var c := st.client[t];
    FramesWord(st, DoCas(st, t, c), t, c.refed, Word(t, SwappedCnt(c), Era(st, t, t)));
  }

  lemma StoreFrames(st: State, t: ClientId)
    requires Tables(st, t) && Bounded(st, t) && EnabledRef(st, t, Store)
    requires RefsOk(st, t) && OpOk(st, t)
    ensures Frames(st, ApplyRef(st, t, Store), t)
  {
    var c := st.client[t];
    FramesSlot(st, DoStore(st, t, c), t, c.ref, if c.link then c.refed else 0);
  }

  lemma BumpFrames(st: State, t: ClientId)
    requires Tables(st, t) && Bounded(st, t) && EnabledRef(st, t, Bump)
    ensures Frames(st, ApplyRef(st, t, Bump), t)
  {
    FramesRow(st, DoBump(st, t, st.client[t]), t, t, Era(st, t, t) + 1);
  }

  lemma ZeroFrames(st: State, t: ClientId)
    requires Tables(st, t) && Bounded(st, t) && EnabledRef(st, t, Zero)
    requires RefsOk(st, t) && DyingOk(st, t)
    ensures Frames(st, ApplyRef(st, t, Zero), t)
  {
    FramesFree(st, DoZero(st, t, st.client[t]), t, st.client[t].refed);
  }

  lemma PopFrames(st: State, t: ClientId, nxt: Obj)
    requires Tables(st, t) && Bounded(st, t) && EnabledOwn(st, t, Pop(nxt))
    requires TornOk(st, t)
    ensures Frames(st, ApplyOwn(st, t, Pop(nxt)), t)
  {
    var st' := DoPop(st, t, st.client[t], nxt);
    FramesPop(st, st', t, st.client[t].refed, st'.heads);
  }

  lemma StampFrames(st: State, t: ClientId)
    requires Tables(st, t) && Bounded(st, t) && EnabledOwn(st, t, Stamp)
    requires RefsOk(st, t) && TornOk(st, t)
    ensures Frames(st, ApplyOwn(st, t, Stamp), t)
  {
    FramesWord(st, DoStamp(st, t, st.client[t]), t, st.client[t].refed, st.client[t].saw);
  }

  lemma RefFrames(st: State, t: ClientId, a: RefAct)
    requires Tables(st, t) && Bounded(st, t) && EnabledRef(st, t, a)
    requires RefsOk(st, t) && SelfOk(st, t) && OpOk(st, t) && MarkOk(st, t) && DyingOk(st, t)
    requires var w := WordAt(st, st.client[t].refed);
             a.Read? && w.cid != t ==> IsId(w.cid) && w.era <= Hi(st, w.cid)
    ensures Frames(st, ApplyRef(st, t, a), t)
  {
    match a
    case Mark => MarkFrames(st, t);
    case CasOk => CasFrames(st, t);
    case Store => StoreFrames(st, t);
    case Bump => BumpFrames(st, t);
    case Zero => ZeroFrames(st, t);
    case _ => RecordFrames(st, t, a);
  }

  lemma RefillFrames(st: State, t: ClientId, o: Obj)
    requires Tables(st, t) && Bounded(st, t) && EnabledOwn(st, t, Refill(o))
    ensures Frames(st, ApplyOwn(st, t, Refill(o)), t)
  {
  }

  lemma GiveFrames(st: State, t: ClientId, s: Slot, to: ClientId)
    requires Tables(st, t) && Bounded(st, t) && EnabledOwn(st, t, Give(s, to))
    ensures Frames(st, ApplyOwn(st, t, Give(s, to)), t)
  {
    FramesGive(st, DoGive(st, t, st.client[t], s, to), t, s, to);
  }

  lemma RootFrames(st: State, t: ClientId, s: Slot, o: Obj)
    requires Tables(st, t) && Bounded(st, t) && EnabledOwn(st, t, Root(s, o))
    ensures Frames(st, ApplyOwn(st, t, Root(s, o)), t)
  {
    FramesSlot(st, DoRoot(st, t, st.client[t], s, o), t, s, o);
  }

  lemma DrawFrames(st: State, t: ClientId)
    requires Tables(st, t) && Bounded(st, t) && EnabledOwn(st, t, Draw)
    ensures Frames(st, ApplyOwn(st, t, Draw), t)
  {
    FramesRow(st, DoDraw(st, t, st.client[t]), t, t, Era(st, t, t) + 1);
  }

  lemma ClearFrames(st: State, t: ClientId)
    requires Tables(st, t) && Bounded(st, t) && EnabledOwn(st, t, ClearRing)
    ensures Frames(st, ApplyOwn(st, t, ClearRing), t)
  {
    FramesRecord(st, ApplyOwn(st, t, ClearRing), t);
  }

  lemma OwnFrames(st: State, t: ClientId, a: OwnAct)
    requires Tables(st, t) && Bounded(st, t) && EnabledOwn(st, t, a)
    requires RefsOk(st, t) && TornOk(st, t)
    ensures Frames(st, ApplyOwn(st, t, a), t)
  {
    match a
    case Root(s, o) => RootFrames(st, t, s, o);
    case Pop(nxt) => PopFrames(st, t, nxt);
    case Draw => DrawFrames(st, t);
    case Stamp => StampFrames(st, t);
    case Refill(o) => RefillFrames(st, t, o);
    case ClearRing => ClearFrames(st, t);
    case Give(s, to) => GiveFrames(st, t, s, to);
  }

  lemma MonFrames(st: State, t: ClientId, a: MonAct)
    requires Tables(st, t) && Bounded(st, t) && EnabledMon(st, t, a) && Clean(st, t, Mon(a))
    requires RefsOk(st, t) && LinesOk(st, t) && ReplayOk(st, t) && RedoOk(st, t)
    ensures Frames(st, ApplyMon(st, t, a), t)
  {
    var c := st.client[t];
    var st' := ApplyMon(st, t, a);
    NewestIsLast(c.ring, c.last);
    match a
    case RedoWrite =>
      if c.phase.need && Owns(st, t, c.last.ref) {
        FramesSlot(st, st', t, c.last.ref, c.last.Val());
      } else if c.phase.need {
        FramesSpared(st, st', t, c.last.ref, c.last.Val());
      } else {
        FramesRecord(st, st', t);
      }
    case Skip(s) => FramesSlot(st, st', t, s, 0);
    case _ => FramesRecord(st, st', t);
  }

  lemma CasCounts(st: State, t: ClientId, a: RefAct)
    requires Shape(st) && IsId(t) && EnabledRef(st, t, a) && a.CasOk? && Counted(st) && 0 !in st.word
    requires Framed(st, ApplyRef(st, t, a), t) && SlotsFramed(st, ApplyRef(st, t, a), t)
    requires RefsOk(st, t) && OpOk(st, t)
    ensures Counted(ApplyRef(st, t, a))
  {
    CreditMoves(st, ApplyRef(st, t, a), t, st.client[t].ref);
  }

  lemma StoreCounts(st: State, t: ClientId, a: RefAct)
    requires Shape(st) && IsId(t) && EnabledRef(st, t, a) && a.Store? && Counted(st)
    requires Framed(st, ApplyRef(st, t, a), t) && SlotsFramed(st, ApplyRef(st, t, a), t)
    requires RefsOk(st, t) && OpOk(st, t)
    ensures Counted(ApplyRef(st, t, a))
  {
    CreditsStay(st, ApplyRef(st, t, a), t);
  }

  /** A step that commits nothing, writes no slot and leaves the allocation alone. */
  lemma QuietStep(st: State, st': State, t: ClientId)
    requires IsId(t) && Framed(st, st', t) && Counted(st)
    requires st'.slot == st.slot && st'.owner == st.owner && st'.client[t].torn == st.client[t].torn
    requires !st.client[t].pc.Swapped? && !st'.client[t].pc.Swapped?
    requires forall o | o in st.word :: st'.word[o].cnt == st.word[o].cnt
    ensures Counted(st')
  {
    assert Credits(st') == Credits(st);
  }

  lemma ZeroCounts(st: State, t: ClientId, a: RefAct)
    requires Shape(st) && IsId(t) && EnabledRef(st, t, a) && a.Zero? && Counted(st)
    requires Framed(st, ApplyRef(st, t, a), t)
    requires RefsOk(st, t) && DyingOk(st, t)
    ensures Counted(ApplyRef(st, t, a))
  {
    QuietStep(st, ApplyRef(st, t, a), t);
  }

  lemma RefCounts(st: State, t: ClientId, a: RefAct)
    requires Shape(st) && IsId(t) && EnabledRef(st, t, a) && !Writes(a) && Counted(st)
    requires Framed(st, ApplyRef(st, t, a), t)
    ensures Counted(ApplyRef(st, t, a))
  {
    RefQuiet(st, t, a);
    QuietStep(st, ApplyRef(st, t, a), t);
  }

  lemma RefQuiet(st: State, t: ClientId, a: RefAct)
    requires Here(st, t) && EnabledRef(st, t, a) && !Writes(a)
    ensures var st' := ApplyRef(st, t, a);
            && st'.word == st.word && st'.slot == st.slot && st'.owner == st.owner
            && t in st'.client && st'.client[t].torn == st.client[t].torn
            && !st.client[t].pc.Swapped? && !st'.client[t].pc.Swapped?
  {
  }

  lemma StampCounts(st: State, t: ClientId)
    requires Shape(st) && IsId(t) && EnabledOwn(st, t, Stamp) && Counted(st) && 0 !in st.word && 0 !in st.slot
    requires Framed(st, ApplyOwn(st, t, Stamp), t) && SlotsFramed(st, ApplyOwn(st, t, Stamp), t)
    requires RefsOk(st, t) && TornOk(st, t)
    ensures Counted(ApplyOwn(st, t, Stamp))
  {
    CreditMoves(st, ApplyOwn(st, t, Stamp), t, st.client[t].ref);
  }

  lemma OwnCounts(st: State, t: ClientId, a: OwnAct)
    requires Shape(st) && IsId(t) && EnabledOwn(st, t, a) && !a.Stamp? && Counted(st) && 0 !in st.slot
    requires Framed(st, ApplyOwn(st, t, a), t) && SlotsFramed(st, ApplyOwn(st, t, a), t)
    requires TornOk(st, t) && (a.Give? ==> TornOk(st, a.to) && OpOk(st, a.to))
    ensures Counted(ApplyOwn(st, t, a))
  {
    var st' := ApplyOwn(st, t, a);
    forall x | Owns(st, t, x) ensures Credit(st', x) == Credit(st, x) {
    }
    CreditsStay(st, st', t);
  }

  /** The replay leaves every credit of the client where it was. */
  lemma RedoKeepsCredit(st: State, t: ClientId, s: Slot)
    requires Shape(st) && IsId(t) && EnabledMon(st, t, RedoWrite) && Clean(st, t, Mon(RedoWrite)) && Owns(st, t, s)
    requires Shape(ApplyMon(st, t, RedoWrite)) && s in ApplyMon(st, t, RedoWrite).slot
    requires OpOk(st, t) && LinesOk(st, t) && RecOk(st, t) && ReplayOk(st, t) && RedoOk(st, t)
    ensures Credit(ApplyMon(st, t, RedoWrite), s) == Credit(st, s)
  {
    NewestIsLast(st.client[t].ring, st.client[t].last);
  }

  lemma RedoCounts(st: State, t: ClientId)
    requires Shape(st) && IsId(t) && EnabledMon(st, t, RedoWrite) && Clean(st, t, Mon(RedoWrite)) && Counted(st)
    requires Framed(st, ApplyMon(st, t, RedoWrite), t) && SlotsFramed(st, ApplyMon(st, t, RedoWrite), t)
    requires OpOk(st, t) && LinesOk(st, t) && RecOk(st, t) && ReplayOk(st, t) && RedoOk(st, t)
    ensures Counted(ApplyMon(st, t, RedoWrite))
  {
    var st' := ApplyMon(st, t, RedoWrite);
    forall x | Owns(st, t, x) ensures Credit(st', x) == Credit(st, x) {
      RedoKeepsCredit(st, t, x);
    }
    CreditsStay(st, st', t);
  }

  lemma SkipCounts(st: State, t: ClientId, s: Slot)
    requires Tables(st, t) && EnabledMon(st, t, Skip(s)) && Counted(st)
    requires Framed(st, ApplyMon(st, t, Skip(s)), t) && SlotsFramed(st, ApplyMon(st, t, Skip(s)), t)
    ensures st.client[t].torn == s
    ensures Counted(ApplyMon(st, t, Skip(s)))
  {
    if st.client[t].torn != s {
      CountPositive(Credits(st), s);
      assert false;
    }
    CreditsStay(st, ApplyMon(st, t, Skip(s)), t);
  }

  lemma MonCounts(st: State, t: ClientId, a: MonAct)
    requires Shape(st) && IsId(t) && EnabledMon(st, t, a) && !a.RedoWrite? && !a.Skip? && Counted(st)
    requires Framed(st, ApplyMon(st, t, a), t) && SlotsFramed(st, ApplyMon(st, t, a), t)
    ensures Counted(ApplyMon(st, t, a))
  {
    var st' := ApplyMon(st, t, a);
    forall x | Owns(st, t, x) ensures Credit(st', x) == Credit(st, x) {
    }
    CreditsStay(st, st', t);
  }

  // ----- every step keeps the invariant

  lemma InvBounds(st: State, t: ClientId)
    requires Inv(st) && IsId(t)
    ensures Tables(st, t) && ClientOk(st, t) && Bounded(st, t)
    ensures forall o | o in st.word && st.word[o].cid != t && IsId(st.word[o].cid) ::
            st.word[o].era <= Hi(st, st.word[o].cid)
  {
    forall k: nat | IsId(k) && k != t
      ensures Era(st, t, k) <= Hi(st, k)
      ensures forall o | o in st.word && st.word[o].cid == k :: st.word[o].era <= Hi(st, k)
      ensures st.client[t].pc.Sees() && st.client[t].saw.cid == k ==> st.client[t].saw.era <= Hi(st, k)
    {
      assert ClientOk(st, k);
    }
  }

  lemma RefKeepsClientOk(st: State, t: ClientId, a: RefAct)
    requires Tables(st, t) && EnabledRef(st, t, a) && ClientOk(st, t) && Framed(st, ApplyRef(st, t, a), t)
    requires a.Read? ==> var w := WordAt(st, st.client[t].refed);
                         w.cnt >= 1 && IsId(w.cid) && (w.cid == t ==> w.era <= Hi(st, t))
    ensures ClientOk(ApplyRef(st, t, a), t)
  {
    RefKeepsRefsOk(st, t, a);
    RefKeepsOpOk(st, t, a);
    RefKeepsDyingOk(st, t, a);
    if Writes(a) {
      WriteKeepsTornOk(st, t, a);
    } else {
      RefKeepsTornOk(st, t, a);
    }
    RefKeepsStampsOk(st, t, a);
    RefKeepsSelfOk(st, t, a);
    OwnColumnOk(st, ApplyRef(st, t, a), t);
    RefKeepsLinesOk(st, t, a);
    RefKeepsRecOk(st, t, a);
    RefKeepsReplayOk(st, t, a);
    RefKeepsWitnessOk(st, t, a);
    RefKeepsRedoOk(st, t, a);
  }

  lemma OwnKeepsClientOk(st: State, t: ClientId, a: OwnAct)
    requires Tables(st, t) && EnabledOwn(st, t, a) && ClientOk(st, t) && Framed(st, ApplyOwn(st, t, a), t)
    ensures ClientOk(ApplyOwn(st, t, a), t)
  {
    OwnKeepsRefsOk(st, t, a);
    OwnKeepsOpOk(st, t, a);
    OwnKeepsDyingOk(st, t, a);
    OwnKeepsTornOk(st, t, a);
    OwnKeepsStampsOk(st, t, a);
    OwnKeepsSelfOk(st, t, a);
    OwnColumnOk(st, ApplyOwn(st, t, a), t);
    OwnKeepsLinesOk(st, t, a);
    OwnKeepsRecOk(st, t, a);
    OwnKeepsReplayOk(st, t, a);
    OwnKeepsWitnessOk(st, t, a);
    OwnKeepsRedoOk(st, t, a);
  }

  lemma MonKeepsClientOk(st: State, t: ClientId, a: MonAct)
    requires Tables(st, t) && EnabledMon(st, t, a) && ClientOk(st, t) && Framed(st, ApplyMon(st, t, a), t)
    requires Clean(st, t, Mon(a))
    ensures ClientOk(ApplyMon(st, t, a), t)
  {
    MonKeepsRefsOk(st, t, a);
    MonKeepsOpOk(st, t, a);
    MonKeepsDyingOk(st, t, a);
    MonKeepsTornOk(st, t, a);
    MonKeepsStampsOk(st, t, a);
    MonKeepsSelfOk(st, t, a);
    OwnColumnOk(st, ApplyMon(st, t, a), t);
    MonKeepsLinesOk(st, t, a);
    MonKeepsRecOk(st, t, a);
    MonKeepsReplayOk(st, t, a);
    MonKeepsWitnessOk(st, t, a);
    MonKeepsRedoOk(st, t, a);
  }

  lemma RefAllFrames(st: State, t: ClientId, a: RefAct)
    requires Inv(st) && IsId(t) && EnabledRef(st, t, a)
    ensures Frames(st, ApplyRef(st, t, a), t)
  {
    InvBounds(st, t);
    if a.Read? {
      OpObjectCounted(st, t);
    }
    RefFrames(st, t, a);
  }

  lemma RefAllCounts(st: State, t: ClientId, a: RefAct)
    requires Shape(st) && IsId(t) && EnabledRef(st, t, a) && Counted(st) && 0 !in st.word
    requires Framed(st, ApplyRef(st, t, a), t) && SlotsFramed(st, ApplyRef(st, t, a), t)
    requires RefsOk(st, t) && OpOk(st, t) && DyingOk(st, t)
    ensures Counted(ApplyRef(st, t, a))
  {
    if a.CasOk? {
      CasCounts(st, t, a);
    } else if a.Store? {
      StoreCounts(st, t, a);
    } else if a.Zero? {
      ZeroCounts(st, t, a);
    } else {
      RefCounts(st, t, a);
    }
  }

  lemma RefStep(st: State, t: ClientId, a: RefAct)
    requires Inv(st) && IsId(t) && EnabledRef(st, t, a)
    ensures Inv(ApplyRef(st, t, a))
  {
    InvBounds(st, t);
    if a.Read? {
      OpObjectCounted(st, t);
    }
    RefAllFrames(st, t, a);
    RefKeepsClientOk(st, t, a);
    RefAllCounts(st, t, a);
    GoodKeepsInv(st, ApplyRef(st, t, a), t);
  }

  lemma OwnStep(st: State, t: ClientId, a: OwnAct)
    requires Inv(st) && IsId(t) && EnabledOwn(st, t, a)
    ensures Inv(ApplyOwn(st, t, a))
  {
    InvBounds(st, t);
    OwnFrames(st, t, a);
    OwnKeepsClientOk(st, t, a);
    if a.Stamp? {
      StampCounts(st, t);
    } else {
      assert a.Give? ==> ClientOk(st, a.to);
      OwnCounts(st, t, a);
    }
    GoodKeepsInv(st, ApplyOwn(st, t, a), t);
  }

  lemma MonStep(st: State, t: ClientId, a: MonAct)
    requires Inv(st) && IsId(t) && EnabledMon(st, t, a) && Clean(st, t, Mon(a))
    ensures Inv(ApplyMon(st, t, a))
  {
    InvBounds(st, t);
    MonFrames(st, t, a);
    MonKeepsClientOk(st, t, a);
    match a {
      case RedoWrite => RedoCounts(st, t);
      case Skip(s) => SkipCounts(st, t, s);
      case _ => MonCounts(st, t, a);
    }
    GoodKeepsInv(st, ApplyMon(st, t, a), t);
  }

  lemma StepKeepsInv(st: State, t: ClientId, a: Act)
    requires Inv(st) && IsId(t) && Enabled(st, t, a) && Clean(st, t, a)
    ensures Inv(Apply(st, t, a))
  {
    match a
    case Ref(r) => RefStep(st, t, r);
    case Own(w) => OwnStep(st, t, w);
    case Mon(m) => MonStep(st, t, m);
  }
}
