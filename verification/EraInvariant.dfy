/** The inductive invariant of the era protocol. */
module EraInvariant {
  import opened Common
  import opened RefInfo
  import opened RedoLog
  import opened EraProtocol

  /** The largest era under which t has committed a word, or may have. A recovering
      client can reuse the era of the operation it was interrupted in. */
  function Hi(st: State, t: ClientId): int
    requires t in st.client
  {
    var own := Era(st, t, t);
    var c := st.client[t];
    if c.phase.Recovered? || c.pc.Swapped? || c.pc.Stored? then own
    else if c.pc.Stamping? then own as int - 2
    else own as int - 1
  }

  ghost predicate WordsOk(st: State) {
    && st.home.Keys == st.word.Keys
    && 0 !in st.word
    && (forall o | o in st.word :: st.word[o] == ZERO || IsId(st.word[o].cid))
    && (forall o | o in st.pool :: o in st.word && st.word[o] == ZERO)
    && st.heads <= st.pool
  }

  ghost predicate SlotsOk(st: State) {
    && 0 !in st.slot
    && (forall s | s in st.slot :: st.slot[s] == 0 || st.slot[s] in st.word)
  }

  /** The addresses a client works on exist. */
  ghost predicate RefsOk(st: State, t: ClientId)
    requires t in st.client
  {
    var c := st.client[t];
    && (!c.pc.Idle? ==> c.ref in st.slot && c.refed in st.word)
    && (c.last != EMPTY ==> c.last.ref in st.slot && c.last.refed in st.word)
    && (c.pc.Sees() ==> IsId(c.saw.cid) && c.saw.cnt >= 1)
    && (c.pc.Swapped? || c.pc.Stored? ==> c.saw.cnt >= 1)
    && (c.pc.Freeing? ==> !c.link && c.saw.cnt == 1)
  }

  /** No word carries an era of t that t has not committed. */
  ghost predicate StampsOk(st: State, t: ClientId)
    requires t in st.client
  {
    forall o | o in st.word && st.word[o].cid == t :: st.word[o].era <= Hi(st, t)
  }

  /** No other client has seen an era of t that t has not committed. */
  ghost predicate ColumnOk(st: State, t: ClientId)
    requires t in st.client
  {
    && (forall j: nat | IsId(j) && j != t :: Era(st, j, t) <= Hi(st, t))
    && (forall j: nat | IsId(j) && j != t && j in st.client && st.client[j].pc.Sees() && st.client[j].saw.cid == t ::
          st.client[j].saw.era <= Hi(st, t))
  }

  /** Nor has t itself. */
  ghost predicate SelfOk(st: State, t: ClientId)
    requires t in st.client
  {
    var c := st.client[t];
    Era(st, t, t) >= 1 && (c.pc.Sees() && c.saw.cid == t ==> c.saw.era <= Hi(st, t))
  }

  /** The operation in progress owns its slot, and reaches its object through a counted slot. */
  ghost predicate OpOk(st: State, t: ClientId)
    requires t in st.client
  {
    var c := st.client[t];
    && (c.pc.Trying() || c.pc.Swapped? || c.pc.Stored? ==> Owns(st, t, c.ref) && c.ref != c.torn)
    && (c.pc.Trying() ==>
          && (c.link ==>
                && st.slot[c.ref] == 0 && c.via != c.ref && c.via != c.torn
                && Owns(st, t, c.via) && st.slot[c.via] == c.refed)
          && (!c.link ==> st.slot[c.ref] == c.refed))
    && (c.pc.Stored? ==> st.slot[c.ref] == if c.link then c.refed else 0)
  }

  /** t's row covers the stamp it is about to overwrite. */
  ghost predicate MarkOk(st: State, t: ClientId)
    requires t in st.client
  {
    var c := st.client[t];
    (c.pc.Marked? || c.pc.Logged?) && c.saw.cid != t ==> Era(st, t, c.saw.cid) >= c.saw.era
  }

  /** An object counted down to zero stays as its last holder left it until it is freed. */
  ghost predicate DyingOk(st: State, t: ClientId)
    requires t in st.client
  {
    var c := st.client[t];
    (c.pc.Swapped? || c.pc.Stored? || c.pc.Freeing?) && !c.link && c.saw.cnt == 1 ==>
      WordAt(st, c.refed).cid == t && WordAt(st, c.refed).cnt == 0
  }

  /** What the root of an unfinished allocation may name once its client is under recovery:
      a block without a count that only the dead client could allocate. */
  predicate Worthless(st: State, o: Obj, t: ClientId) {
    o == 0 || (o in st.word && st.word[o].cnt == 0 && Homed(st, o, t))
  }

  /** An unfinished allocation: the root names a block nobody else knows. */
  ghost predicate TornOk(st: State, t: ClientId)
    requires t in st.client
  {
    var c := st.client[t];
    && (c.torn != 0 ==>
          && Owns(st, t, c.torn) && Worthless(st, st.slot[c.torn], t)
          && (!c.phase.Recovered? ==> st.slot[c.torn] in st.word && st.word[st.slot[c.torn]] == ZERO))
    && (c.pc.Allocating() ==> c.torn == c.ref != 0 && c.ref in st.slot && st.slot[c.ref] == c.refed)
    && (c.torn != 0 && !c.phase.Recovered? ==> c.pc.Allocating())
    && (c.pc.Rooted? ==> c.refed in st.heads)
    && (c.pc.Popped? || c.pc.Stamping? ==> c.refed !in st.pool)
    && (c.pc.Stamping? ==> c.saw.cid == t && c.saw.cnt == 1 && c.saw.era + 1 == Era(st, t, t))
    && (c.phase.Recovered? ==> !c.pc.Allocating())
  }

  /** The record names the operation, slot and object of the operation in progress. */
  ghost predicate Announces(r: Rec, c: Client) {
    r.func == (if c.link then LinkRef else UnlinkRef) && r.ref == c.ref && r.refed == c.refed
  }

  ghost predicate LinesOk(st: State, t: ClientId)
    requires t in st.client
  {
    RingOk(st.client[t].ring, st.client[t].last)
  }

  /** The newest record announces the CAS of the operation in progress, or belongs to
      an operation already completed. */
  ghost predicate RecOk(st: State, t: ClientId)
    requires t in st.client
  {
    var c := st.client[t];
    var own := Era(st, t, t);
    !c.phase.Recovered? ==>
      && c.last.era <= own
      && (c.pc.Logged? || c.pc.Swapped? || c.pc.Stored? ==> c.last.era == own && c.last.saved == c.saw.cnt)
      && (c.pc.Freeing? ==> c.last.func.UnlinkRef? && c.last.saved == 1)
      && (c.pc.Idle? || c.pc.Freeing? || c.pc.Allocating() ==> c.last.era < own)
      && (c.last.era == own ==> !c.given && Announces(c.last, c))
  }

  /** Replaying a completed record writes what is there already, unless the slot was given away.
      It never writes the root of the client's own unfinished allocation. */
  ghost predicate ReplayOk(st: State, t: ClientId)
    requires t in st.client
  {
    var c := st.client[t];
    && (!c.phase.Recovered? && c.last != EMPTY ==> c.last.ref != c.torn)
    && (!c.phase.Recovered? && c.last != EMPTY && !c.given ==>
          && Owns(st, t, c.last.ref)
          && (c.last.era < Era(st, t, t) || c.pc.Stored? ==> st.slot[c.last.ref] == c.last.Val()))
  }

  /** The CAS that the newest record announces has taken effect. */
  predicate Committed(st: State, t: ClientId)
    requires t in st.client
  {
    var c := st.client[t];
    c.last != EMPTY && (c.last.era < Era(st, t, t) || c.pc.Swapped? || c.pc.Stored?)
  }

  /** The newest record is a completed unlink that counted its object down to zero; the
      client has freed the object since, or is about to. */
  predicate Freed(st: State, t: ClientId)
    requires t in st.client
  {
    var c := st.client[t];
    c.last.func.UnlinkRef? && c.last.saved == 1 && c.last.era < Era(st, t, t)
  }

  /** Someone other than t, in a row from n on, has seen era e of t. */
  ghost predicate SeenFrom(st: State, t: ClientId, e: nat, n: nat) {
    exists j: nat :: IsId(j) && n <= j && j != t && Era(st, j, t) >= e
  }

  /** A committed era stays visible: on the object, or in the matrix. */
  ghost predicate WitnessOk(st: State, t: ClientId)
    requires t in st.client
  {
    var c := st.client[t];
    var w := WordAt(st, c.last.refed);
    !c.phase.Recovered? && Committed(st, t) && !Freed(st, t) ==>
      (w.cid == t && w.era == c.last.era) || SeenFrom(st, t, c.last.era, 0)
  }

  /** The monitor's decision so far. */
  ghost predicate RedoOk(st: State, t: ClientId)
    requires t in st.client
  {
    var c := st.client[t];
    match c.phase
    case Scanning(row, max) =>
      && c.last != EMPTY && max <= Hi(st, t)
      && (Committed(st, t) && !Freed(st, t) ==> max >= c.last.era || SeenFrom(st, t, c.last.era, row))
    case Decided(need) =>
      && (need ==> Committed(st, t))
      && (Committed(st, t) && !Freed(st, t) ==> need)
    case _ => true
  }

  ghost predicate ClientOk(st: State, t: ClientId)
    requires t in st.client
  {
    && RefsOk(st, t) && StampsOk(st, t) && ColumnOk(st, t) && SelfOk(st, t)
    && OpOk(st, t) && MarkOk(st, t) && DyingOk(st, t)
    && TornOk(st, t) && LinesOk(st, t) && RecOk(st, t) && ReplayOk(st, t)
    && WitnessOk(st, t) && RedoOk(st, t)
  }

  /** Every count equals the number of slots credited to the object. */
  ghost predicate Counted(st: State)
    requires Shape(st)
  {
    forall o | o in st.word :: st.word[o].cnt == CountOf(Credits(st), o)
  }

  ghost predicate Inv(st: State) {
    && Shape(st)
    && WordsOk(st)
    && SlotsOk(st)
    && (forall t: nat | IsId(t) :: ClientOk(st, t))
    && Counted(st)
  }

  /** Overwriting slot s with v does no harm: the slot is about to be written anyway by an
      operation past its CAS, or it is the uncounted root of a client under recovery. */
  ghost predicate Spared(st: State, s: Slot, v: Obj) {
    && s in st.owner && st.owner[s] in st.client
    && var u := st.owner[s];
       var c := st.client[u];
       (c.pc.Swapped? && c.ref == s) || (c.torn == s && c.phase.Recovered? && Worthless(st, v, u))
  }

  /** The monitor is about to overwrite a slot that was handed over since the record was
      written and no longer holds what the record says. */
  ghost predicate Harmful(st: State, t: ClientId)
    requires t in st.client && st.client[t].phase.Decided?
  {
    var c := st.client[t];
    var r := Newest(c.ring);
    c.phase.need && c.given && r.ref in st.slot && st.slot[r.ref] != r.Val() && !Spared(st, r.ref, r.Val())
  }

  /** The step is not a harmful replay. */
  ghost predicate Clean(st: State, t: ClientId, a: Act)
    requires t in st.client
  {
    a == Mon(RedoWrite) && st.client[t].phase.Decided? ==> !Harmful(st, t)
  }

  // ----- counting lemmas

  lemma CountUpdate(m: map<Slot, Obj>, s: Slot, v: Obj, o: Obj)
    requires s in m
    ensures CountOf(m[s := v], o)
         == CountOf(m, o) - (if m[s] == o then 1 else 0) + (if v == o then 1 else 0)
  {
    assert Holders(m[s := v], o) == Holders(m, o) - {s} + (if v == o then {s} else {});
  }

  lemma CountPositive(m: map<Slot, Obj>, s: Slot)
    requires s in m
    ensures CountOf(m, m[s]) >= 1
  {
    assert s in Holders(m, m[s]);
  }

  /** The object an operation works on is counted while the CAS is outstanding. */
  lemma OpObjectCounted(st: State, t: ClientId)
    requires Shape(st) && WordsOk(st) && Counted(st) && IsId(t)
    requires RefsOk(st, t) && OpOk(st, t) && st.client[t].pc.Trying()
    ensures WordAt(st, st.client[t].refed).cnt >= 1 && IsId(WordAt(st, st.client[t].refed).cid)
  {
    var c := st.client[t];
    var s := if c.link then c.via else c.ref;
    assert Credits(st)[s] == c.refed;
    CountPositive(Credits(st), s);
  }
}
