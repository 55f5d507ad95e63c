/** Where the replay goes wrong: the record of a completed operation is replayed although
    its slot now belongs to another client, which has changed it. */
module EraHazard {
  import opened Common
  import opened RefInfo
  import opened RedoLog
  import opened EraProtocol
  import opened EraInvariant
  import opened EraSteps
  import opened EraTheorems

  /** The effect of a replay that writes: one slot. */
  lemma ReplayWrites(st: State, t: ClientId)
    requires t in st.client && t in st.era && EnabledMon(st, t, RedoWrite) && st.client[t].phase.need
    ensures var r := Newest(st.client[t].ring);
            var st' := ApplyMon(st, t, RedoWrite);
            && st' == st.(client := st.client[t := st'.client[t]], slot := st.slot[r.ref := r.Val()])
            && st'.client[t] == st.client[t].(phase := Recovered, pc := Idle)
  {
  }

  /** The root of an unfinished allocation of a live client, or of a crashed one not yet
      replayed, must not be overwritten; nor must that of a client under recovery, by the
      address of a block that may have a count. */
  lemma TornIsHarmed(st: State, st': State, u: ClientId, v: Obj)
    requires u in st.client && u in st'.client && st'.client[u] == st.client[u] && TornOk(st, u)
    requires st.client[u].torn != 0 && st.client[u].torn in st.slot && st'.slot == st.slot[st.client[u].torn := v]
    requires st'.word == st.word && st'.home == st.home
    requires st.slot[st.client[u].torn] != v && !Spared(st, st.client[u].torn, v)
    requires Owns(st, u, st.client[u].torn)
    ensures !TornOk(st', u)
  {
  }

  lemma CreditChanges(st: State, t: ClientId, s: Slot)
    requires Shape(st) && IsId(t) && EnabledMon(st, t, RedoWrite) && Harmful(st, t) && RecOk(st, t) && LinesOk(st, t)
    requires Shape(ApplyMon(st, t, RedoWrite)) && s in st.slot && s in ApplyMon(st, t, RedoWrite).slot
    requires st.client[st.owner[Newest(st.client[t].ring).ref]].torn != Newest(st.client[t].ring).ref
    ensures var r := Newest(st.client[t].ring);
            Credit(ApplyMon(st, t, RedoWrite), s) == if s == r.ref then r.Val() else Credit(st, s)
    ensures Credit(st, Newest(st.client[t].ring).ref) == st.slot[Newest(st.client[t].ring).ref]
  {
    NewestIsLast(st.client[t].ring, st.client[t].last);
  }

  /** Overwriting a slot that counts breaks the counts at once. */
  lemma HarmfulBreaksCounts(st: State, t: ClientId)
    requires Shape(st) && IsId(t) && EnabledMon(st, t, RedoWrite) && Harmful(st, t) && Counted(st) && SlotsOk(st)
    requires RefsOk(st, t) && LinesOk(st, t) && RecOk(st, t) && RedoOk(st, t)
    requires st.client[st.owner[Newest(st.client[t].ring).ref]].torn != Newest(st.client[t].ring).ref
    requires Shape(ApplyMon(st, t, RedoWrite)) && ApplyMon(st, t, RedoWrite).slot.Keys == st.slot.Keys
    ensures !Counted(ApplyMon(st, t, RedoWrite))
  {
    var st' := ApplyMon(st, t, RedoWrite);
    var r := Newest(st.client[t].ring);
    NewestIsLast(st.client[t].ring, st.client[t].last);
    ReplayWrites(st, t);
    forall s | s in st.slot ensures Credits(st')[s] == Credits(st)[r.ref := r.Val()][s] {
      CreditChanges(st, t, s);
    }
    CreditChanges(st, t, r.ref);
    assert Credits(st') == Credits(st)[r.ref := r.Val()];
    var o := if st.slot[r.ref] != 0 then st.slot[r.ref] else r.Val();
    CountUpdate(Credits(st), r.ref, r.Val(), o);
    assert st'.word[o].cnt != CountOf(Credits(st'), o);
  }

  lemma ReplayShape(st: State, t: ClientId)
    requires Tables(st, t) && EnabledMon(st, t, RedoWrite) && st.client[t].phase.need && RefsOk(st, t) && LinesOk(st, t)
    requires RedoOk(st, t)
    ensures Newest(st.client[t].ring) == st.client[t].last && st.client[t].last.ref in st.slot
    ensures Shape(ApplyMon(st, t, RedoWrite)) && ApplyMon(st, t, RedoWrite).slot.Keys == st.slot.Keys
  {
    NewestIsLast(st.client[t].ring, st.client[t].last);
  }

  lemma HarmfulBreaksInv(st: State, t: ClientId)
    requires Inv(st) && IsId(t) && EnabledMon(st, t, RedoWrite) && Harmful(st, t)
    ensures !Inv(ApplyMon(st, t, RedoWrite))
  {
    assert ClientOk(st, t);
    ReplayShape(st, t);
    var r := Newest(st.client[t].ring);
    var u := st.owner[r.ref];
    assert ClientOk(st, u);
    ReplayWrites(st, t);
    if st.client[u].torn == r.ref {
      TornIsHarmed(st, ApplyMon(st, t, RedoWrite), u, r.Val());
      assert !ClientOk(ApplyMon(st, t, RedoWrite), u);
    } else {
      HarmfulBreaksCounts(st, t);
    }
  }

  /** Exactly when a replay is right: it keeps the invariant of all runs, and with it every
      count from then on, if and only if it is not harmful. */
  lemma RedoExact(st: State, t: ClientId)
    requires Inv(st) && IsId(t) && EnabledMon(st, t, RedoWrite)
    ensures Inv(ApplyMon(st, t, RedoWrite)) <==> !Harmful(st, t)
  {
    if Harmful(st, t) {
      HarmfulBreaksInv(st, t);
    } else {
      StepKeepsInv(st, t, Mon(RedoWrite));
    }
  }

  /** A harmful replay miscounts at once, unless it hits the root of an unfinished allocation. */
  lemma MiscountsAtOnce(st: State, t: ClientId)
    requires Inv(st) && IsId(t) && EnabledMon(st, t, RedoWrite) && Harmful(st, t)
    requires st.client[st.owner[Newest(st.client[t].ring).ref]].torn != Newest(st.client[t].ring).ref
    ensures Shape(ApplyMon(st, t, RedoWrite)) && !Counted(ApplyMon(st, t, RedoWrite))
  {
    assert ClientOk(st, t);
    ReplayShape(st, t);
    HarmfulBreaksCounts(st, t);
  }

  /** What is left of an allocation: the block comes off its free list, the era is drawn, and
      the stamp sets the count. */
  ghost predicate CanFinish(st: State, u: ClientId, nxt: Obj) {
    && u in st.client && u in st.era && st.client[u].phase.Up? && st.client[u].pc.Allocating()
    && (st.client[u].pc.Rooted? ==> EnabledOwn(st, u, Pop(nxt)))
  }

  ghost function Finish(st: State, u: ClientId, nxt: Obj): State
    requires CanFinish(st, u, nxt)
    decreases if st.client[u].pc.Rooted? then 2 else if st.client[u].pc.Popped? then 1 else 0
  {
    if st.client[u].pc.Rooted? then Finish(ApplyOwn(st, u, Pop(nxt)), u, nxt)
    else if st.client[u].pc.Popped? then Finish(ApplyOwn(st, u, Draw), u, nxt)
    else ApplyOwn(st, u, Stamp)
  }

  /** The root of the unfinished allocation no longer names its block, and nothing counts it. */
  ghost predicate Astray(st: State, u: ClientId) {
    && Shape(st) && IsId(u)
    && var c := st.client[u];
       && c.torn in st.slot && st.slot[c.torn] != c.refed && c.refed in st.word && c.refed != 0
       && CountOf(Credits(st), c.refed) == 0 && (c.pc.Stamping? ==> c.saw.cnt == 1)
  }

  lemma StaysAstray(st: State, u: ClientId, a: OwnAct)
    requires Astray(st, u) && u in st.client && u in st.era && EnabledOwn(st, u, a) && (a.Pop? || a.Draw?)
    ensures Astray(ApplyOwn(st, u, a), u)
  {
    SameCredits(st, ApplyOwn(st, u, a), u);
  }

  lemma SameCredits(st: State, st': State, u: ClientId)
    requires Shape(st) && IsId(u) && u in st'.client && st'.era.Keys == st.era.Keys
    requires st'.slot == st.slot && st'.owner == st.owner
    requires st'.client == st.client[u := st'.client[u]] && st'.client[u].torn == st.client[u].torn
    requires !st.client[u].pc.Swapped? && !st'.client[u].pc.Swapped?
    ensures Shape(st') && Credits(st') == Credits(st)
  {
  }

  lemma StampMiscounts(st: State, u: ClientId)
    requires Astray(st, u) && u in st.client && u in st.era && EnabledOwn(st, u, Stamp)
    ensures Shape(ApplyOwn(st, u, Stamp)) && !Counted(ApplyOwn(st, u, Stamp))
  {
    var o := st.client[u].refed;
    var st' := ApplyOwn(st, u, Stamp);
    assert Holders(Credits(st'), o) == Holders(Credits(st), o);
    assert st'.word[o].cnt == 1;
  }

  lemma {:induction false} FinishMiscounts(st: State, u: ClientId, nxt: Obj)
    requires Astray(st, u) && CanFinish(st, u, nxt)
    ensures Shape(Finish(st, u, nxt)) && !Counted(Finish(st, u, nxt))
    decreases if st.client[u].pc.Rooted? then 2 else if st.client[u].pc.Popped? then 1 else 0
  {
    if st.client[u].pc.Stamping? {
      StampMiscounts(st, u);
    } else {
      var a := if st.client[u].pc.Rooted? then Pop(nxt) else Draw;
      StaysAstray(st, u, a);
      FinishMiscounts(ApplyOwn(st, u, a), u, nxt);
    }
  }

  /** On such a root the miscount comes later: when its owner, still running, goes on with its
      allocation, however far it has come, the stamp that ends it leaves the counts wrong. */
  lemma MiscountsLater(st: State, t: ClientId, u: ClientId, nxt: Obj)
    requires Inv(st) && IsId(t) && EnabledMon(st, t, RedoWrite) && Harmful(st, t)
    requires u == st.owner[Newest(st.client[t].ring).ref] && st.client[u].torn == Newest(st.client[t].ring).ref
    requires CanFinish(st, u, nxt)
    ensures var st1 := ApplyMon(st, t, RedoWrite);
            CanFinish(st1, u, nxt) && Shape(Finish(st1, u, nxt)) && !Counted(Finish(st1, u, nxt))
  {
    HarmedFacts(st, t, u);
    ReplayAstray(st, t, u);
    FinishAfter(st, ApplyMon(st, t, RedoWrite), u, nxt);
  }

  lemma HarmedFacts(st: State, t: ClientId, u: ClientId)
    requires Inv(st) && IsId(t) && EnabledMon(st, t, RedoWrite) && Harmful(st, t)
    requires u == st.owner[Newest(st.client[t].ring).ref]
    ensures IsId(u) && RefsOk(st, t) && LinesOk(st, t) && RedoOk(st, t) && RecOk(st, t) && ReplayOk(st, t)
    ensures RefsOk(st, u) && TornOk(st, u)
  {
    assert ClientOk(st, t) && ClientOk(st, u);
  }

  lemma FinishAfter(st: State, st1: State, u: ClientId, nxt: Obj)
    requires CanFinish(st, u, nxt) && Astray(st1, u) && st1.client[u] == st.client[u]
    requires st1.pool == st.pool && st1.home == st.home
    ensures CanFinish(st1, u, nxt) && Shape(Finish(st1, u, nxt)) && !Counted(Finish(st1, u, nxt))
  {
    FinishMiscounts(st1, u, nxt);
  }

  lemma ReplayAstray(st: State, t: ClientId, u: ClientId)
    requires Tables(st, t) && IsId(u) && Counted(st) && EnabledMon(st, t, RedoWrite) && Harmful(st, t)
    requires RefsOk(st, t) && LinesOk(st, t) && RedoOk(st, t) && RecOk(st, t) && ReplayOk(st, t)
    requires RefsOk(st, u) && TornOk(st, u)
    requires u == st.owner[Newest(st.client[t].ring).ref] && st.client[u].torn == Newest(st.client[t].ring).ref
    requires st.client[u].phase.Up? && st.client[u].pc.Allocating()
    ensures Astray(ApplyMon(st, t, RedoWrite), u) && ApplyMon(st, t, RedoWrite).client[u] == st.client[u]
  {
    ReplayShape(st, t);
    ReplayWrites(st, t);
    GoesAstray(st, ApplyMon(st, t, RedoWrite), t, u, Newest(st.client[t].ring).Val());
  }

  lemma GoesAstray(st: State, st1: State, t: ClientId, u: ClientId, v: Obj)
    requires Tables(st, u) && Counted(st) && RefsOk(st, u) && TornOk(st, u) && t != u && t in st.client
    requires st.client[u].phase.Up? && st.client[u].pc.Allocating() && v != st.slot[st.client[u].torn]
    requires st1 == st.(client := st1.client, slot := st.slot[st.client[u].torn := v]) && Shape(st1)
    requires st1.client == st.client[t := st.client[t].(phase := Recovered, pc := Idle)]
    requires forall s | s in st.slot && st.owner[s] == t :: Credit(st1, s) == Credit(st, s)
    ensures Astray(st1, u)
  {
    var o := st.client[u].refed;
    assert Holders(Credits(st1), o) == Holders(Credits(st), o);
  }

  // ----- a run that gets there

  ghost predicate Reachable(st: State) {
    exists states: seq<State>, moves: seq<Move> :: Run(states, moves) && states[|states| - 1] == st
  }

  lemma Extend(st: State, m: Move, st': State)
    requires Reachable(st) && Next(st, m, st')
    ensures Reachable(st')
  {
    var states: seq<State>, moves: seq<Move> :| Run(states, moves) && states[|states| - 1] == st;
    RunExtends(states, moves, m, st');
    assert (states + [st'])[|states + [st']| - 1] == st';
  }

  // Client 1 sends the only object through slot 20 of a queue to client 2, which consumes it.

  const OBJ: Obj := 1
  const ROOT: Slot := 10
  const QUEUE: Slot := 20

  const IDLE := Client(Up, Idle, false, 0, 0, 0, ZERO, 0, CLEARED, EMPTY, false)

  /** Everything of a state that the two clients work with. */
  ghost predicate View(st: State, c1: Client, c2: Client, w: Word, root: Obj, queue: Obj, queueOwner: ClientId,
                       own1: nat, own2: nat, seen: nat)
  {
    && 1 in st.client && st.client[1] == c1 && 2 in st.client && st.client[2] == c2
    && 1 in st.era && 2 in st.era && Era(st, 1, 1) == own1 && Era(st, 2, 2) == own2 && Era(st, 2, 1) == seen
    && st.word == map[OBJ := w] && st.home == map[OBJ := 1]
    && st.slot == map[ROOT := root, QUEUE := queue] && st.owner == map[ROOT := 1, QUEUE := queueOwner]
  }

  function EachClient<T>(x: T): map<ClientId, T> {
    map j: nat | j < MAX_THREAD && IsId(j) :: x
  }

  function UnitRows(): map<ClientId, map<ClientId, nat>> {
    map j: nat | j < MAX_THREAD && IsId(j) :: map[j := 1]
  }

  const BOOT := State(map[OBJ := ZERO], map[OBJ := 1], {OBJ}, {OBJ},
                      map[ROOT := 0, QUEUE := 0], map[ROOT := 1, QUEUE := 1],
                      UnitRows(), EachClient(IDLE))

  lemma BootInit()
    ensures Init(BOOT)
  {
    assert Shape(BOOT);
  }

  lemma Start() returns (st: State)
    ensures Reachable(st) && View(st, IDLE, IDLE, ZERO, 0, 0, 1, 1, 1, 0) && st.heads == {OBJ}
  {
    st := BOOT;
    BootInit();
    assert Run([st], []);
  }

  lemma GoOwn(st: State, t: ClientId, a: OwnAct) returns (st': State)
    requires Reachable(st) && IsId(t) && t in st.client && t in st.era && EnabledOwn(st, t, a)
    ensures Reachable(st') && st' == ApplyOwn(st, t, a)
  {
    st' := ApplyOwn(st, t, a);
    Extend(st, Move(t, Own(a)), st');
  }

  lemma GoRef(st: State, t: ClientId, a: RefAct) returns (st': State)
    requires Reachable(st) && IsId(t) && t in st.client && t in st.era && EnabledRef(st, t, a)
    ensures Reachable(st') && st' == ApplyRef(st, t, a)
  {
    st' := ApplyRef(st, t, a);
    Extend(st, Move(t, Ref(a)), st');
  }

  lemma GoMon(st: State, t: ClientId, a: MonAct) returns (st': State)
    requires Reachable(st) && IsId(t) && t in st.client && t in st.era && EnabledMon(st, t, a) && a != RedoWrite
    ensures Reachable(st') && st' == ApplyMon(st, t, a)
  {
    st' := ApplyMon(st, t, a);
    Extend(st, Move(t, Mon(a)), st');
  }

  const HOLDER := IDLE.(ref := ROOT, refed := OBJ, saw := Word(1, 1, 1))

  lemma ViewAlloc(st: State)
    requires View(st, IDLE, IDLE, ZERO, 0, 0, 1, 1, 1, 0) && st.heads == {OBJ}
    ensures EnabledOwn(st, 1, Root(ROOT, OBJ))
    ensures var st1 := ApplyOwn(st, 1, Root(ROOT, OBJ));
            EnabledOwn(st1, 1, Pop(0))
            && var st2 := ApplyOwn(st1, 1, Pop(0));
            EnabledOwn(st2, 1, Draw) && 1 in st2.era
            && var st3 := ApplyOwn(st2, 1, Draw);
            EnabledOwn(st3, 1, Stamp)
            && View(ApplyOwn(st3, 1, Stamp), HOLDER, IDLE, Word(1, 1, 1), OBJ, 0, 1, 2, 1, 0)
  {
  }

  lemma Allocated() returns (st: State)
    ensures Reachable(st) && View(st, HOLDER, IDLE, Word(1, 1, 1), OBJ, 0, 1, 2, 1, 0)
  {
    st := Start();
    ViewAlloc(st);
    st := GoOwn(st, 1, Root(ROOT, OBJ));
    st := GoOwn(st, 1, Pop(0));
    st := GoOwn(st, 1, Draw);
    st := GoOwn(st, 1, Stamp);
  }

  const SENT := Rec(LinkRef, 1, 2, QUEUE, OBJ)
  const SENDER := HOLDER.(link := true, ref := QUEUE, via := ROOT, ring := WriteRing(CLEARED, SENT), last := SENT)

  lemma ViewLog(st: State)
    requires View(st, HOLDER, IDLE, Word(1, 1, 1), OBJ, 0, 1, 2, 1, 0)
    ensures EnabledRef(st, 1, BeginLink(QUEUE, OBJ, ROOT))
    ensures var st1 := ApplyRef(st, 1, BeginLink(QUEUE, OBJ, ROOT));
            && 1 in st1.client && 1 in st1.era && EnabledRef(st1, 1, Read)
            && var st2 := ApplyRef(st1, 1, Read);
            && 1 in st2.client && 1 in st2.era && EnabledRef(st2, 1, Mark)
            && var st3 := ApplyRef(st2, 1, Mark);
            && 1 in st3.client && 1 in st3.era && EnabledRef(st3, 1, Log)
            && var st4 := ApplyRef(st3, 1, Log);
            View(st4, SENDER.(pc := Logged), IDLE, Word(1, 1, 1), OBJ, 0, 1, 2, 1, 0)
  {
  }

  lemma ViewSend(st: State)
    requires View(st, SENDER.(pc := Logged), IDLE, Word(1, 1, 1), OBJ, 0, 1, 2, 1, 0)
    ensures EnabledRef(st, 1, CasOk)
    ensures var st1 := ApplyRef(st, 1, CasOk);
            && 1 in st1.client && 1 in st1.era && EnabledRef(st1, 1, Store)
            && var st2 := ApplyRef(st1, 1, Store);
            && 1 in st2.client && 1 in st2.era && EnabledRef(st2, 1, Bump)
            && var st3 := ApplyRef(st2, 1, Bump);
            && 1 in st3.client && 1 in st3.era && EnabledOwn(st3, 1, Give(QUEUE, 2))
            && var st4 := ApplyOwn(st3, 1, Give(QUEUE, 2));
            View(st4, SENDER.(given := true), IDLE, Word(1, 2, 2), OBJ, OBJ, 2, 3, 1, 0)
  {
  }

  lemma Sent() returns (st: State)
    ensures Reachable(st) && View(st, SENDER.(given := true), IDLE, Word(1, 2, 2), OBJ, OBJ, 2, 3, 1, 0)
  {
    st := Allocated();
    ViewLog(st);
    st := GoRef(st, 1, BeginLink(QUEUE, OBJ, ROOT));
    st := GoRef(st, 1, Read);
    st := GoRef(st, 1, Mark);
    st := GoRef(st, 1, Log);
    ViewSend(st);
    st := GoRef(st, 1, CasOk);
    st := GoRef(st, 1, Store);
    st := GoRef(st, 1, Bump);
    st := GoOwn(st, 1, Give(QUEUE, 2));
  }

  const GOT := Rec(UnlinkRef, 2, 1, QUEUE, OBJ)
  const TAKER := IDLE.(ref := QUEUE, refed := OBJ, saw := Word(1, 2, 2), ring := WriteRing(CLEARED, GOT), last := GOT)

  lemma ViewTake(st: State)
    requires View(st, SENDER.(given := true), IDLE, Word(1, 2, 2), OBJ, OBJ, 2, 3, 1, 0)
    ensures EnabledRef(st, 2, BeginUnlink(QUEUE))
    ensures var st1 := ApplyRef(st, 2, BeginUnlink(QUEUE));
            && 2 in st1.client && 2 in st1.era && EnabledRef(st1, 2, Read)
            && var st2 := ApplyRef(st1, 2, Read);
            && 2 in st2.client && 2 in st2.era && EnabledRef(st2, 2, Mark)
            && var st3 := ApplyRef(st2, 2, Mark);
            && 2 in st3.client && 2 in st3.era && EnabledRef(st3, 2, Log)
            && var st4 := ApplyRef(st3, 2, Log);
            View(st4, SENDER.(given := true), TAKER.(pc := Logged), Word(1, 2, 2), OBJ, OBJ, 2, 3, 1, 2)
  {
  }

  lemma ViewTaken(st: State)
    requires View(st, SENDER.(given := true), TAKER.(pc := Logged), Word(1, 2, 2), OBJ, OBJ, 2, 3, 1, 2)
    ensures EnabledRef(st, 2, CasOk)
    ensures var st1 := ApplyRef(st, 2, CasOk);
            && 2 in st1.client && 2 in st1.era && EnabledRef(st1, 2, Store)
            && var st2 := ApplyRef(st1, 2, Store);
            && 2 in st2.client && 2 in st2.era && EnabledRef(st2, 2, Bump)
            && var st3 := ApplyRef(st2, 2, Bump);
            View(st3, SENDER.(given := true), TAKER, Word(2, 1, 1), OBJ, 0, 2, 3, 2, 2)
  {
  }

  lemma Taken() returns (st: State)
    ensures Reachable(st) && View(st, SENDER.(given := true), TAKER, Word(2, 1, 1), OBJ, 0, 2, 3, 2, 2)
  {
    st := Sent();
    ViewTake(st);
    st := GoRef(st, 2, BeginUnlink(QUEUE));
    st := GoRef(st, 2, Read);
    st := GoRef(st, 2, Mark);
    st := GoRef(st, 2, Log);
    ViewTaken(st);
    st := GoRef(st, 2, CasOk);
    st := GoRef(st, 2, Store);
    st := GoRef(st, 2, Bump);
  }

  /** The scan of the matrix finds the era of the sender's record in row 2. */
  lemma ScanFinds(st0: State, row: nat, max: nat) returns (st: State)
    requires Reachable(st0) && row <= MAX_THREAD && (max >= 2 || row <= 2)
    requires View(st0, SENDER.(given := true, phase := Scanning(row, max)), TAKER, Word(2, 1, 1), OBJ, 0, 2, 3, 2, 2)
    ensures Reachable(st)
    ensures View(st, SENDER.(given := true, phase := Decided(true)), TAKER, Word(2, 1, 1), OBJ, 0, 2, 3, 2, 2)
    decreases MAX_THREAD - row
  {
    ViewScan(st0, row, max);
    st := GoMon(st0, 1, RedoScan);
    if row < MAX_THREAD {
      var c := st.client[1];
      st := ScanFinds(st, row + 1, c.phase.max);
    }
  }

  lemma ViewScan(st: State, row: nat, max: nat)
    requires row <= MAX_THREAD && (max >= 2 || row <= 2)
    requires View(st, SENDER.(given := true, phase := Scanning(row, max)), TAKER, Word(2, 1, 1), OBJ, 0, 2, 3, 2, 2)
    ensures EnabledMon(st, 1, RedoScan)
    ensures var st1 := ApplyMon(st, 1, RedoScan);
            && 1 in st1.client
            && if row == MAX_THREAD
               then View(st1, SENDER.(given := true, phase := Decided(true)), TAKER, Word(2, 1, 1), OBJ, 0, 2, 3, 2, 2)
               else
                 && st1.client[1].phase.Scanning? && (st1.client[1].phase.max >= 2 || row + 1 <= 2)
                 && View(st1, SENDER.(given := true, phase := Scanning(row + 1, st1.client[1].phase.max)), TAKER,
                         Word(2, 1, 1), OBJ, 0, 2, 3, 2, 2)
  {
    NewestIsLast(SENDER.ring, SENT);
  }

  lemma ViewCrash(st: State)
    requires View(st, SENDER.(given := true), TAKER, Word(2, 1, 1), OBJ, 0, 2, 3, 2, 2)
    ensures EnabledMon(st, 1, Crash)
    ensures var st1 := ApplyMon(st, 1, Crash);
            && EnabledMon(st1, 1, RedoStart) && 1 in st1.era
            && View(ApplyMon(st1, 1, RedoStart), SENDER.(given := true, phase := Scanning(0, 0)), TAKER,
                    Word(2, 1, 1), OBJ, 0, 2, 3, 2, 2)
  {
    NewestIsLast(SENDER.ring, SENT);
  }

  lemma ReachableInv(st: State)
    requires Reachable(st)
    ensures Inv(st)
  {
    var states: seq<State>, moves: seq<Move> :| Run(states, moves) && states[|states| - 1] == st;
    RunInv(states, moves, |states| - 1);
  }

  /** The promised crash consistency fails for a slot that changes hands: client 1 sends
      an object and dies; client 2 has received and dropped it; the replay puts the
      object back into the queue slot, uncounted. */
  lemma ReplayOfGivenSlot() returns (st: State)
    ensures Reachable(st) && Inv(st) && EnabledMon(st, 1, RedoWrite) && Harmful(st, 1)
    ensures Shape(ApplyMon(st, 1, RedoWrite)) && !Counted(ApplyMon(st, 1, RedoWrite))
    ensures ApplyMon(st, 1, RedoWrite).slot == map[ROOT := OBJ, QUEUE := OBJ]
    ensures ApplyMon(st, 1, RedoWrite).word == map[OBJ := Word(2, 1, 1)]
  {
    st := Taken();
    ViewCrash(st);
    st := GoMon(st, 1, Crash);
    st := GoMon(st, 1, RedoStart);
    st := ScanFinds(st, 0, 0);
    ReachableInv(st);
    ViewReplay(st);
    MiscountsAtOnce(st, 1);
  }

  lemma ViewReplay(st: State)
    requires View(st, SENDER.(given := true, phase := Decided(true)), TAKER, Word(2, 1, 1), OBJ, 0, 2, 3, 2, 2)
    ensures EnabledMon(st, 1, RedoWrite) && Harmful(st, 1)
    ensures Newest(st.client[1].ring).ref == QUEUE && st.owner[QUEUE] == 2 && st.client[2].torn != QUEUE
    ensures ApplyMon(st, 1, RedoWrite).slot == map[ROOT := OBJ, QUEUE := OBJ]
    ensures ApplyMon(st, 1, RedoWrite).word == map[OBJ := Word(2, 1, 1)]
  {
    NewestIsLast(SENDER.ring, SENT);
  }
}
