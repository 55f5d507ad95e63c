/** Exactly-once release: from the crash of a client on, every slot that was counted for it, or
    is handed to it later, costs its object exactly one decrement, and no other slot does. */
module EraRelease {
  import opened Common
  import opened RefInfo
  import opened RedoLog
  import opened EraProtocol
  import opened EraInvariant
  import opened EraSteps
  import opened EraTheorems
  import opened EraHistory

  /** The slots of t that count for o. */
  function CountedSlots(st: State, t: ClientId, o: Obj): set<Slot>
    requires Shape(st)
  {
    set s | s in st.slot && st.owner[s] == t && Credit(st, s) == o
  }

  /** The step is a decrement of o by t, when t only unlinks. */
  predicate Decrements(st: State, m: Move, t: ClientId, o: Obj) {
    m == Move(t, Ref(CasOk)) && t in st.client && st.client[t].refed == o
  }

  /** The step hands a slot to t. */
  predicate HandsTo(m: Move, t: ClientId) {
    m.a.Own? && m.a.own.Give? && m.a.own.to == t
  }

  /** The step hands a slot that holds o to t. */
  predicate HandsIn(st: State, m: Move, t: ClientId, o: Obj) {
    HandsTo(m, t) && m.a.own.s in st.slot && st.slot[m.a.own.s] == o
  }

  ghost predicate Unlinking(c: Client) {
    c.phase.Recovered? && (c.pc.Idle? || !c.link)
  }

  // ----- a client under recovery only unlinks

  lemma RefStaysUnlinking(st: State, t: ClientId, a: RefAct)
    requires t in st.client && t in st.era && EnabledRef(st, t, a) && Unlinking(st.client[t])
    ensures Unlinking(ApplyRef(st, t, a).client[t])
  {
  }

  lemma MonStaysUnlinking(st: State, t: ClientId, a: MonAct)
    requires t in st.client && t in st.era && EnabledMon(st, t, a)
    requires st.client[t].phase.Recovered? ==> Unlinking(st.client[t])
    ensures ApplyMon(st, t, a).client[t].phase.Recovered? ==> Unlinking(ApplyMon(st, t, a).client[t])
  {
  }

  lemma StepStaysUnlinking(st: State, m: Move, st': State, t: ClientId)
    requires Next(st, m, st') && t in st.client && (st.client[t].phase.Recovered? ==> Unlinking(st.client[t]))
    ensures t in st'.client && (st'.client[t].phase.Recovered? ==> Unlinking(st'.client[t]))
  {
    StepEffect(st, m, st', 0);
    if t == m.t {
      match m.a
      case Ref(r) =>
        RefEffect(st, t, r, 0);
        if st.client[t].phase.Recovered? {
          RefStaysUnlinking(st, t, r);
        }
      case Own(w) => OwnEffect(st, t, w, 0);
      case Mon(a) => MonStaysUnlinking(st, t, a);
    }
  }

  lemma {:induction false} RecoveredOnlyUnlinks(states: seq<State>, moves: seq<Move>, k: nat, t: ClientId)
    requires Run(states, moves) && k < |states| && IsId(t)
    ensures t in states[k].client && (states[k].client[t].phase.Recovered? ==> Unlinking(states[k].client[t]))
  {
    if k > 0 {
      RecoveredOnlyUnlinks(states, moves, k - 1, t);
      RunStep(states, moves, k - 1);
      StepStaysUnlinking(states[k - 1], moves[k - 1], states[k], t);
    }
  }

  // ----- one step

  lemma SameSlots(st: State, st': State, t: ClientId, o: Obj)
    requires Shape(st) && Shape(st') && st'.slot.Keys == st.slot.Keys
    requires forall s | s in st.slot ::
               (st'.owner[s] == t <==> st.owner[s] == t) && (st.owner[s] == t ==> Credit(st', s) == Credit(st, s))
    ensures CountedSlots(st', t, o) == CountedSlots(st, t, o)
  {
  }

  lemma RefKeepsOwners(st: State, t: ClientId, a: RefAct)
    requires t in st.client && t in st.era && EnabledRef(st, t, a)
    ensures ApplyRef(st, t, a).owner == st.owner
  {
  }

  lemma OwnKeepsOwners(st: State, t: ClientId, a: OwnAct)
    requires t in st.client && t in st.era && EnabledOwn(st, t, a)
    ensures ApplyOwn(st, t, a).owner == if a.Give? then st.owner[a.s := a.to] else st.owner
  {
  }

  lemma MonKeepsOwners(st: State, t: ClientId, a: MonAct)
    requires t in st.client && t in st.era && EnabledMon(st, t, a)
    ensures ApplyMon(st, t, a).owner == st.owner
  {
  }

  /** Slots of t stay with t, and no slot comes to t. */
  ghost predicate Stays(st: State, st': State, t: ClientId) {
    forall s | s in st.owner :: s in st'.owner && (st'.owner[s] == t <==> st.owner[s] == t)
  }

  lemma OwnersStay(st: State, m: Move, st': State, t: ClientId)
    requires AnyNext(st, m, st') && !HandsTo(m, t) && m.t != t
    ensures Stays(st, st', t)
  {
    match m.a
    case Ref(a) => RefKeepsOwners(st, m.t, a);
    case Own(a) => OwnKeepsOwners(st, m.t, a);
    case Mon(a) => MonKeepsOwners(st, m.t, a);
  }

  lemma FramedKeepsSlots(st: State, st': State, u: ClientId, t: ClientId, o: Obj)
    requires IsId(t) && u != t && Framed(st, st', u) && SlotsFramed(st, st', u) && Stays(st, st', t)
    ensures CountedSlots(st', t, o) == CountedSlots(st, t, o)
  {
    SameSlots(st, st', t, o);
  }

  lemma OtherClientsStep(st: State, m: Move, st': State, t: ClientId, o: Obj)
    requires Inv(st) && Next(st, m, st') && IsId(t) && m.t != t && !HandsTo(m, t)
    ensures Shape(st') && CountedSlots(st', t, o) == CountedSlots(st, t, o)
  {
    StepFrames(st, m, st');
    OwnersStay(st, m, st', t);
    FramedKeepsSlots(st, st', m.t, t, o);
  }

  /** Handing a slot over changes no credit. */
  lemma GiveKeepsCredit(st: State, u: ClientId, s: Slot, t: ClientId, x: Slot)
    requires Shape(st) && IsId(t) && IsId(u) && u != t && EnabledOwn(st, u, Give(s, t)) && x in st.slot
    requires OpOk(st, t) && TornOk(st, t) && TornOk(st, u) && RefsOk(st, t) && s != 0
    requires Shape(ApplyOwn(st, u, Give(s, t)))
    ensures Credit(ApplyOwn(st, u, Give(s, t)), x) == Credit(st, x) && Credit(st, s) == st.slot[s]
  {
  }

  lemma GiveShape(st: State, u: ClientId, s: Slot, t: ClientId)
    requires Shape(st) && IsId(t) && IsId(u) && EnabledOwn(st, u, Give(s, t))
    ensures Shape(ApplyOwn(st, u, Give(s, t)))
    ensures var st' := ApplyOwn(st, u, Give(s, t)); st'.owner == st.owner[s := t] && st'.slot == st.slot
  {
  }

  /** A slot that another client hands over counts for what it holds, before and after. */
  lemma GiveCounts(st: State, u: ClientId, s: Slot, t: ClientId, o: Obj)
    requires Shape(st) && IsId(t) && IsId(u) && u != t && EnabledOwn(st, u, Give(s, t)) && o != 0
    requires OpOk(st, t) && TornOk(st, t) && TornOk(st, u) && RefsOk(st, t) && s != 0
    ensures Shape(ApplyOwn(st, u, Give(s, t)))
    ensures |CountedSlots(ApplyOwn(st, u, Give(s, t)), t, o)|
         == |CountedSlots(st, t, o)| + (if st.slot[s] == o then 1 else 0)
  {
    var st' := ApplyOwn(st, u, Give(s, t));
    GiveShape(st, u, s, t);
    forall x | x in st.slot ensures Credit(st', x) == Credit(st, x) && Credit(st, s) == st.slot[s] {
      GiveKeepsCredit(st, u, s, t, x);
    }
    HandedSlots(st, st', s, t, o);
  }

  lemma HandedSlots(st: State, st': State, s: Slot, t: ClientId, o: Obj)
    requires Shape(st) && Shape(st') && s in st.slot && st.owner[s] != t
    requires st'.slot == st.slot && st'.owner == st.owner[s := t] && Credit(st, s) == st.slot[s]
    requires forall x | x in st.slot :: Credit(st', x) == Credit(st, x)
    ensures |CountedSlots(st', t, o)| == |CountedSlots(st, t, o)| + (if st.slot[s] == o then 1 else 0)
  {
    var now, was := CountedSlots(st', t, o), CountedSlots(st, t, o);
    forall x ensures x in now <==> x in was || (x == s && st.slot[s] == o) {
    }
    OneAdded(was, now, s, st.slot[s] == o);
  }

  lemma OneAdded(was: set<Slot>, now: set<Slot>, s: Slot, added: bool)
    requires s !in was && forall x :: x in now <==> x in was || (x == s && added)
    ensures |now| == |was| + (if added then 1 else 0)
  {
    assert now == was + (if added then {s} else {});
  }

  lemma HandedStep(st: State, m: Move, t: ClientId, o: Obj)
    requires Inv(st) && IsId(m.t) && m.t in st.client && m.t in st.era && Enabled(st, m.t, m.a)
    requires IsId(t) && m.t != t && HandsTo(m, t) && o != 0
    ensures Shape(Apply(st, m.t, m.a))
    ensures |CountedSlots(Apply(st, m.t, m.a), t, o)|
         == |CountedSlots(st, t, o)| + if HandsIn(st, m, t, o) then 1 else 0
  {
    assert ClientOk(st, t) && ClientOk(st, m.t);
    GiveCounts(st, m.t, m.a.own.s, t, o);
  }

  lemma CasTakesOne(st: State, t: ClientId, o: Obj)
    requires Shape(st) && IsId(t) && EnabledRef(st, t, CasOk) && Unlinking(st.client[t]) && RefsOk(st, t)
    requires OpOk(st, t) && o != 0
    requires Shape(ApplyRef(st, t, CasOk))
    ensures CountedSlots(ApplyRef(st, t, CasOk), t, o)
         == CountedSlots(st, t, o) - (if st.client[t].refed == o then {st.client[t].ref} else {})
    ensures st.client[t].refed == o ==> st.client[t].ref in CountedSlots(st, t, o)
  {
  }

  /** The monitor's other accesses for the client move no credit. */
  lemma RefTakesNone(st: State, t: ClientId, a: RefAct, o: Obj)
    requires Shape(st) && IsId(t) && EnabledRef(st, t, a) && !a.CasOk? && Unlinking(st.client[t]) && RefsOk(st, t)
    requires OpOk(st, t)
    requires Shape(ApplyRef(st, t, a)) && ApplyRef(st, t, a).slot.Keys == st.slot.Keys
    ensures CountedSlots(ApplyRef(st, t, a), t, o) == CountedSlots(st, t, o)
  {
    RefKeepsOwners(st, t, a);
    SameSlots(st, ApplyRef(st, t, a), t, o);
  }

  lemma MonTakesNone(st: State, t: ClientId, a: MonAct, o: Obj)
    requires Shape(st) && IsId(t) && EnabledMon(st, t, a) && st.client[t].phase.Recovered? && 0 !in st.slot
    requires Shape(ApplyMon(st, t, a)) && ApplyMon(st, t, a).slot.Keys == st.slot.Keys
    requires a.Skip? ==> st.client[t].torn == a.s
    ensures CountedSlots(ApplyMon(st, t, a), t, o) == CountedSlots(st, t, o)
  {
    MonKeepsOwners(st, t, a);
    SameSlots(st, ApplyMon(st, t, a), t, o);
  }

  lemma RefStepTakes(st: State, t: ClientId, a: RefAct, o: Obj)
    requires Inv(st) && IsId(t) && EnabledRef(st, t, a) && Unlinking(st.client[t]) && o != 0
    ensures Shape(ApplyRef(st, t, a))
    ensures |CountedSlots(ApplyRef(st, t, a), t, o)| + (if a.CasOk? && st.client[t].refed == o then 1 else 0)
         == |CountedSlots(st, t, o)|
  {
    RefAllFrames(st, t, a);
    assert ClientOk(st, t);
    RefTakes(st, t, a, o);
  }

  lemma RefTakes(st: State, t: ClientId, a: RefAct, o: Obj)
    requires Shape(st) && IsId(t) && EnabledRef(st, t, a) && Unlinking(st.client[t]) && RefsOk(st, t)
    requires OpOk(st, t) && o != 0
    requires Shape(ApplyRef(st, t, a)) && ApplyRef(st, t, a).slot.Keys == st.slot.Keys
    ensures |CountedSlots(ApplyRef(st, t, a), t, o)| + (if a.CasOk? && st.client[t].refed == o then 1 else 0)
         == |CountedSlots(st, t, o)|
  {
    if a.CasOk? {
      CasTakesOne(st, t, o);
    } else {
      RefTakesNone(st, t, a, o);
    }
  }

  lemma MonStepTakes(st: State, t: ClientId, a: MonAct, o: Obj)
    requires Inv(st) && IsId(t) && EnabledMon(st, t, a) && Clean(st, t, Mon(a)) && st.client[t].phase.Recovered?
    ensures Shape(ApplyMon(st, t, a)) && CountedSlots(ApplyMon(st, t, a), t, o) == CountedSlots(st, t, o)
  {
    InvBounds(st, t);
    MonFrames(st, t, a);
    if a.Skip? {
      ScanRule(st, t, a.s);
    }
    MonTakesNone(st, t, a, o);
  }

  lemma OwnStepTakes(st: State, m: Move, st': State, o: Obj)
    requires Inv(st) && Next(st, m, st') && Unlinking(st.client[m.t]) && o != 0
    ensures Shape(st')
    ensures |CountedSlots(st', m.t, o)| + (if Decrements(st, m, m.t, o) then 1 else 0) == |CountedSlots(st, m.t, o)|
  {
    match m.a
    case Ref(a) => RefStepTakes(st, m.t, a, o);
    case Own(_) => assert false;
    case Mon(a) => MonStepTakes(st, m.t, a, o);
  }

  /** Until its record is replayed the monitor does nothing else for a dead client. */
  lemma OnlyRedo(st: State, m: Move)
    requires m.t in st.client && Enabled(st, m.t, m.a)
    requires !st.client[m.t].phase.Up? && !st.client[m.t].phase.Recovered?
    ensures m.a == Mon(RedoStart) || m.a == Mon(RedoScan) || m.a == Mon(RedoWrite)
  {
  }

  lemma ScanTakesNone(st: State, t: ClientId, a: MonAct, o: Obj)
    requires Shape(st) && IsId(t) && EnabledMon(st, t, a) && (a.RedoStart? || a.RedoScan?) && Shape(ApplyMon(st, t, a))
    ensures CountedSlots(ApplyMon(st, t, a), t, o) == CountedSlots(st, t, o)
  {
    SameSlots(st, ApplyMon(st, t, a), t, o);
  }

  lemma ReplayTakesNone(st: State, t: ClientId, o: Obj)
    requires Shape(st) && IsId(t) && EnabledMon(st, t, RedoWrite) && Clean(st, t, Mon(RedoWrite))
    requires Shape(ApplyMon(st, t, RedoWrite)) && ApplyMon(st, t, RedoWrite).slot.Keys == st.slot.Keys
    requires OpOk(st, t) && LinesOk(st, t) && RecOk(st, t) && ReplayOk(st, t) && RedoOk(st, t)
    ensures CountedSlots(ApplyMon(st, t, RedoWrite), t, o) == CountedSlots(st, t, o)
  {
    MonKeepsOwners(st, t, RedoWrite);
    forall s | Owns(st, t, s) ensures Credit(ApplyMon(st, t, RedoWrite), s) == Credit(st, s) {
      RedoKeepsCredit(st, t, s);
    }
    SameSlots(st, ApplyMon(st, t, RedoWrite), t, o);
  }

  lemma RedoTakesNone(st: State, t: ClientId, a: MonAct, o: Obj)
    requires Inv(st) && IsId(t) && EnabledMon(st, t, a) && Clean(st, t, Mon(a))
    requires a.RedoStart? || a.RedoScan? || a.RedoWrite?
    ensures Shape(ApplyMon(st, t, a)) && CountedSlots(ApplyMon(st, t, a), t, o) == CountedSlots(st, t, o)
  {
    InvBounds(st, t);
    MonFrames(st, t, a);
    if a.RedoWrite? {
      ReplayTakesNone(st, t, o);
    } else {
      ScanTakesNone(st, t, a, o);
    }
  }

  lemma NextTakes(st: State, m: Move, st': State, t: ClientId, o: Obj)
    requires Inv(st) && Next(st, m, st') && IsId(t) && t in st.client && !st.client[t].phase.Up? && o != 0
    requires st.client[t].phase.Recovered? ==> Unlinking(st.client[t])
    ensures Shape(st')
    ensures |CountedSlots(st', t, o)| + (if Decrements(st, m, t, o) then 1 else 0)
         == |CountedSlots(st, t, o)| + (if HandsIn(st, m, t, o) then 1 else 0)
  {
    if m.t != t {
      if HandsTo(m, t) {
        HandedStep(st, m, t, o);
      } else {
        OtherClientsStep(st, m, st', t, o);
      }
    } else {
      DeadTakes(st, m, st', o);
    }
  }

  lemma DeadTakes(st: State, m: Move, st': State, o: Obj)
    requires Inv(st) && Next(st, m, st') && !st.client[m.t].phase.Up? && o != 0
    requires st.client[m.t].phase.Recovered? ==> Unlinking(st.client[m.t])
    ensures Shape(st') && !m.a.Own?
    ensures |CountedSlots(st', m.t, o)| + (if Decrements(st, m, m.t, o) then 1 else 0) == |CountedSlots(st, m.t, o)|
  {
    NoOwnMoves(st, m);
    if st.client[m.t].phase.Recovered? {
      OwnStepTakes(st, m, st', o);
    } else {
      OnlyRedo(st, m);
      RedoTakesNone(st, m.t, m.a.mon, o);
    }
  }

  lemma NoOwnMoves(st: State, m: Move)
    requires m.t in st.client && Enabled(st, m.t, m.a) && !st.client[m.t].phase.Up?
    ensures !m.a.Own?
  {
  }

  lemma StepTakes(states: seq<State>, moves: seq<Move>, k: nat, t: ClientId, o: Obj)
    requires Run(states, moves) && k < |moves| && IsId(t) && t in states[k].client && !states[k].client[t].phase.Up?
    requires o != 0
    ensures Shape(states[k]) && Shape(states[k + 1])
    ensures |CountedSlots(states[k + 1], t, o)| + (if Decrements(states[k], moves[k], t, o) then 1 else 0)
         == |CountedSlots(states[k], t, o)| + (if HandsIn(states[k], moves[k], t, o) then 1 else 0)
  {
    RunInv(states, moves, k);
    RunStep(states, moves, k);
    RecoveredOnlyUnlinks(states, moves, k, t);
    NextTakes(states[k], moves[k], states[k + 1], t, o);
  }

  // ----- the whole recovery

  /** Decrements of o by t among steps i .. k - 1. */
  function Taken(states: seq<State>, moves: seq<Move>, i: nat, k: nat, t: ClientId, o: Obj): nat
    requires i <= k <= |moves| < |states|
    decreases k - i
  {
    if i == k then 0
    else Taken(states, moves, i, k - 1, t, o) + if Decrements(states[k - 1], moves[k - 1], t, o) then 1 else 0
  }

  /** Slots holding o handed to t among steps i .. k - 1. */
  function Handed(states: seq<State>, moves: seq<Move>, i: nat, k: nat, t: ClientId, o: Obj): nat
    requires i <= k <= |moves| < |states|
    decreases k - i
  {
    if i == k then 0
    else Handed(states, moves, i, k - 1, t, o) + if HandsIn(states[k - 1], moves[k - 1], t, o) then 1 else 0
  }

  /** Step p settles its part of the account. */
  ghost predicate Settled(states: seq<State>, moves: seq<Move>, p: nat, t: ClientId, o: Obj)
    requires p + 1 < |states| && p < |moves|
  {
    && Shape(states[p]) && Shape(states[p + 1])
    && |CountedSlots(states[p + 1], t, o)| + (if Decrements(states[p], moves[p], t, o) then 1 else 0)
       == |CountedSlots(states[p], t, o)| + (if HandsIn(states[p], moves[p], t, o) then 1 else 0)
  }

  lemma {:induction false} AllSettled(states: seq<State>, moves: seq<Move>, i: nat, k: nat, t: ClientId, o: Obj)
    requires i <= k <= |moves| < |states| && Shape(states[i])
    requires forall p | i <= p < k :: Settled(states, moves, p, t, o)
    ensures Shape(states[k])
    ensures |CountedSlots(states[k], t, o)| + Taken(states, moves, i, k, t, o)
         == |CountedSlots(states[i], t, o)| + Handed(states, moves, i, k, t, o)
    decreases k - i
  {
    if i < k {
      AllSettled(states, moves, i, k - 1, t, o);
      assert Settled(states, moves, k - 1, t, o);
    }
  }

  /** Main theorem: from a crash at any point on, with the other clients doing anything, also
      handing slots to the dead one: the monitor decrements an object once for each slot of the
      client that counted for it at the crash or was handed in with it since, but for those
      slots that count for it still, and for no other slot. */
  lemma ReleasedSoFar(states: seq<State>, moves: seq<Move>, i: nat, k: nat, t: ClientId, o: Obj)
    requires Run(states, moves) && i <= k < |states| && IsId(t) && o != 0
    requires t in states[i].client && !states[i].client[t].phase.Up?
    ensures Shape(states[i]) && Shape(states[k])
    ensures |CountedSlots(states[k], t, o)| + Taken(states, moves, i, k, t, o)
         == |CountedSlots(states[i], t, o)| + Handed(states, moves, i, k, t, o)
  {
    RunInv(states, moves, i);
    forall p | i <= p < k ensures Settled(states, moves, p, t, o) {
      DownForGood(states, moves, i, p, t);
      StepTakes(states, moves, p, t, o);
    }
    AllSettled(states, moves, i, k, t, o);
  }

  /** So once the recovery has left no slot of the client full, every object has been decremented
      exactly once for each slot of the client that counted for it at the crash (each root whose
      count had been taken and not given back, stored or not) or that was handed in holding it. */
  lemma ReleasedExactlyOnce(states: seq<State>, moves: seq<Move>, i: nat, k: nat, t: ClientId, o: Obj)
    requires Run(states, moves) && i <= k < |states| && IsId(t) && o != 0
    requires t in states[i].client && !states[i].client[t].phase.Up?
    requires t in states[k].client && states[k].client[t].phase.Recovered? && states[k].client[t].pc.Idle?
    requires forall s | Owns(states[k], t, s) :: states[k].slot[s] == 0
    ensures Shape(states[i])
    ensures Taken(states, moves, i, k, t, o) == |CountedSlots(states[i], t, o)| + Handed(states, moves, i, k, t, o)
  {
    ReleasedSoFar(states, moves, i, k, t, o);
    assert CountedSlots(states[k], t, o) == {};
  }
}
