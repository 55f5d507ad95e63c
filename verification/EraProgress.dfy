/** The operations of the era protocol get through: what each does when no step of another
    client comes between, that an object counted down to zero is freed, and that no client is
    ever stuck. */
module EraProgress {
  import opened Common
  import opened RefInfo
  import opened RedoLog
  import opened EraProtocol
  import opened EraInvariant
  import opened EraSteps
  import opened EraTheorems
  import opened EraHistory
  import opened EraRelease

  // ----- one client at work

  /** t makes these steps, one after the other, and passes through these states. */
  ghost predicate Alone(states: seq<State>, t: ClientId, acts: seq<Act>) {
    && |states| == |acts| + 1
    && forall i {:trigger Next(states[i], Move(t, acts[i]), states[i + 1])} | 0 <= i < |acts| ::
        Next(states[i], Move(t, acts[i]), states[i + 1])
  }

  function Last(states: seq<State>): State
    requires |states| > 0
  {
    states[|states| - 1]
  }

  lemma AloneOne(st: State, t: ClientId, a: Act, st': State)
    requires Next(st, Move(t, a), st')
    ensures Alone([st, st'], t, [a])
  {
  }

  /** One more step at the end. */
  lemma AloneThen(states: seq<State>, t: ClientId, acts: seq<Act>, a: Act, st': State)
    requires Alone(states, t, acts) && Next(Last(states), Move(t, a), st')
    ensures Alone(states + [st'], t, acts + [a])
  {
    var states', acts' := states + [st'], acts + [a];
    forall i | 0 <= i < |acts'| ensures Next(states'[i], Move(t, acts'[i]), states'[i + 1]) {
      if i < |acts| {
        assert Next(states[i], Move(t, acts[i]), states[i + 1]);
      }
    }
  }

  lemma AloneJoin(states: seq<State>, acts: seq<Act>, states': seq<State>, acts': seq<Act>, t: ClientId)
    requires Alone(states, t, acts) && Alone(states', t, acts') && states'[0] == Last(states)
    ensures Alone(states + states'[1..], t, acts + acts') && Last(states + states'[1..]) == Last(states')
  {
    var all, both := states + states'[1..], acts + acts';
    forall i | 0 <= i < |both| ensures Next(all[i], Move(t, both[i]), all[i + 1]) {
      if i < |acts| {
        assert Next(states[i], Move(t, acts[i]), states[i + 1]);
      } else {
        var k := i - |acts|;
        assert Next(states'[k], Move(t, acts'[k]), states'[k + 1]);
        assert all[i] == states'[k] && all[i + 1] == states'[k + 1];
      }
    }
  }

  lemma {:induction false} AloneKeepsInv(states: seq<State>, t: ClientId, acts: seq<Act>, n: nat)
    requires Alone(states, t, acts) && Inv(states[0]) && n < |states|
    ensures Inv(states[n])
  {
    if n > 0 {
      var p := n - 1;
      AloneKeepsInv(states, t, acts, p);
      assert Next(states[p], Move(t, acts[p]), states[p + 1]);
      StepKeepsInv(states[p], t, acts[p]);
    }
  }

  function Moves(t: ClientId, acts: seq<Act>): (moves: seq<Move>)
    ensures |moves| == |acts| && forall i | 0 <= i < |acts| :: moves[i] == Move(t, acts[i])
  {
    seq(|acts|, i requires 0 <= i < |acts| => Move(t, acts[i]))
  }

  /** A run goes on with these steps. */
  lemma RunGoesOn(states: seq<State>, moves: seq<Move>, t: ClientId, more: seq<State>, acts: seq<Act>)
    requires Run(states, moves) && Alone(more, t, acts) && more[0] == Last(states)
    ensures Run(states + more[1..], moves + Moves(t, acts)) && Last(states + more[1..]) == Last(more)
  {
    var all, both := states + more[1..], moves + Moves(t, acts);
    forall i | 0 <= i < |both| ensures Next(all[i], both[i], all[i + 1]) {
      if i < |moves| {
        assert Next(states[i], moves[i], states[i + 1]);
      } else {
        var k := i - |moves|;
        assert Next(more[k], Move(t, acts[k]), more[k + 1]);
        assert all[i] == more[k] && all[i + 1] == more[k + 1];
      }
    }
  }

  // ----- link and unlink, step by step

  /** t is at work on a link or unlink of o at slot s, begun in st, and has written nothing but
      its own record, ring and row so far. */
  ghost predicate AtWork(st: State, st': State, t: ClientId, pc: Pc, link: bool, s: Slot, o: Obj) {
    && t in st.client && t in st'.client && t in st'.era && st'.client == st.client[t := st'.client[t]]
    && st'.word == st.word && st'.slot == st.slot && Kept(st, st')
    && st'.pool == st.pool
    && var c, c' := st.client[t], st'.client[t];
       && c'.pc == pc && c'.link == link && c'.ref == s && c'.refed == o && c'.phase == c.phase && c'.torn == c.torn
       && (pc.Sees() ==> c'.saw == WordAt(st, o))
  }

  /** What no operation but an allocation or a hand-over changes. */
  ghost predicate Kept(st: State, st': State) {
    st'.owner == st.owner && st'.home == st.home && st'.heads == st.heads
  }

  lemma ReadWorks(st: State, st': State, t: ClientId, link: bool, s: Slot, o: Obj)
    requires AtWork(st, st', t, Begun, link, s, o) && Running(st'.client[t])
    ensures EnabledRef(st', t, Read) && AtWork(st, ApplyRef(st', t, Read), t, Saw, link, s, o)
  {
  }

  lemma MarkWorks(st: State, st': State, t: ClientId, link: bool, s: Slot, o: Obj)
    requires AtWork(st, st', t, Saw, link, s, o) && Running(st'.client[t])
    ensures EnabledRef(st', t, Mark) && AtWork(st, ApplyRef(st', t, Mark), t, Marked, link, s, o)
  {
  }

  lemma LogWorks(st: State, st': State, t: ClientId, link: bool, s: Slot, o: Obj)
    requires AtWork(st, st', t, Marked, link, s, o) && st'.client[t].phase.Up?
    ensures EnabledRef(st', t, Log) && AtWork(st, ApplyRef(st', t, Log), t, Logged, link, s, o)
  {
  }

  /** The count of o has changed by one, under a stamp of t; no other word has. */
  ghost predicate Moved(st: State, st': State, t: ClientId, link: bool, o: Obj) {
    && o in st.word && o in st'.word && st.word[o].cnt >= 1 && st'.word == st.word[o := st'.word[o]]
    && st'.word[o].cid == t && st'.word[o].cnt == if link then st.word[o].cnt + 1 else st.word[o].cnt - 1
  }

  /** The CAS has succeeded. */
  ghost predicate Swapping(st: State, st': State, t: ClientId, pc: Pc, link: bool, s: Slot, o: Obj) {
    && t in st.client && t in st'.client && t in st'.era && st'.client == st.client[t := st'.client[t]]
    && Moved(st, st', t, link, o) && Kept(st, st') && st'.pool == st.pool
    && st'.slot == (if pc.Swapped? then st.slot else st.slot[s := if link then o else 0])
    && o in st.word
    && var c, c' := st.client[t], st'.client[t];
       && c'.pc == pc && c'.link == link && c'.refed == o && c'.phase == c.phase && c'.torn == c.torn
       && c'.ref == s && c'.saw == st.word[o]
  }

  lemma CasWorks(st: State, st': State, t: ClientId, link: bool, s: Slot, o: Obj)
    requires t in st'.client && AtWork(st, st', t, if st'.client[t].phase.Up? then Logged else Marked, link, s, o)
    requires Running(st'.client[t]) && o in st.word && st.word[o].cnt >= 1
    ensures EnabledRef(st', t, CasOk) && Swapping(st, ApplyRef(st', t, CasOk), t, Swapped, link, s, o)
  {
  }

  lemma StoreWorks(st: State, st': State, t: ClientId, link: bool, s: Slot, o: Obj)
    requires Swapping(st, st', t, Swapped, link, s, o) && Running(st'.client[t])
    ensures EnabledRef(st', t, Store) && Swapping(st, ApplyRef(st', t, Store), t, Stored, link, s, o)
  {
  }

  lemma BumpWorks(st: State, st': State, t: ClientId, link: bool, s: Slot, o: Obj)
    requires Swapping(st, st', t, Stored, link, s, o) && Running(st'.client[t])
    ensures EnabledRef(st', t, Bump) && o in st.word
    ensures var pc := if !link && st.word[o].cnt == 1 then Freeing else Idle;
            Swapping(st, ApplyRef(st', t, Bump), t, pc, link, s, o)
  {
  }

  /** Slot s is written, and the count of o has changed by one; when that was the last count,
      the header is zero and the block is on a free list. Nothing else has changed but the
      record, the ring and the row of t, which is done. */
  ghost predicate Done(st: State, st': State, t: ClientId, link: bool, s: Slot, o: Obj) {
    && t in st.client && t in st'.client && t in st'.era && st'.client == st.client[t := st'.client[t]]
    && st'.client[t].pc.Idle? && st'.client[t].phase == st.client[t].phase && st'.client[t].torn == st.client[t].torn
    && (st.client[t].phase.Recovered? ==> st'.client[t].link == link)
    && st'.slot == st.slot[s := if link then o else 0] && Kept(st, st') && o in st.word
    && if !link && st.word[o].cnt == 1 then st'.word == st.word[o := ZERO] && st'.pool == st.pool + {o}
       else Moved(st, st', t, link, o) && st'.pool == st.pool
  }

  lemma ZeroWorks(st: State, st': State, t: ClientId, s: Slot, o: Obj)
    requires Swapping(st, st', t, Freeing, false, s, o) && Running(st'.client[t])
    requires o in st.word && st.word[o].cnt == 1
    ensures EnabledRef(st', t, Zero) && Done(st, ApplyRef(st', t, Zero), t, false, s, o)
  {
  }

  // ----- the operations as a whole

  /** The steps of an operation up to the CAS. The monitor writes no record. */
  function UpToCas(logs: bool): seq<Act> {
    [Ref(Read), Ref(Mark)] + if logs then [Ref(Log)] else []
  }

  /** The steps from the CAS on. */
  function FromCas(frees: bool): seq<Act> {
    [Ref(CasOk), Ref(Store), Ref(Bump)] + if frees then [Ref(Zero)] else []
  }

  ghost predicate Counts(st: State, o: Obj) {
    o in st.word && st.word[o].cnt >= 1
  }

  lemma RefNext(st: State, t: ClientId, a: RefAct)
    requires IsId(t) && t in st.client && t in st.era && EnabledRef(st, t, a)
    ensures Next(st, Move(t, Ref(a)), ApplyRef(st, t, a))
  {
  }

  lemma WorksToCas(st: State, st1: State, t: ClientId, link: bool, s: Slot, o: Obj) returns (states: seq<State>)
    requires IsId(t) && AtWork(st, st1, t, Begun, link, s, o) && Running(st1.client[t])
    ensures var up := st1.client[t].phase.Up?;
            && Alone(states, t, UpToCas(up)) && states[0] == st1
            && AtWork(st, Last(states), t, if up then Logged else Marked, link, s, o)
  {
    ReadWorks(st, st1, t, link, s, o);
    var st2 := ApplyRef(st1, t, Read);
    MarkWorks(st, st2, t, link, s, o);
    var st3 := ApplyRef(st2, t, Mark);
    RefNext(st1, t, Read);
    RefNext(st2, t, Mark);
    AloneOne(st1, t, Ref(Read), st2);
    AloneThen([st1, st2], t, [Ref(Read)], Ref(Mark), st3);
    states := [st1, st2] + [st3];
    if st1.client[t].phase.Up? {
      LogWorks(st, st3, t, link, s, o);
      RefNext(st3, t, Log);
      AloneThen(states, t, [Ref(Read)] + [Ref(Mark)], Ref(Log), ApplyRef(st3, t, Log));
      states := states + [ApplyRef(st3, t, Log)];
    }
    assert [Ref(Read)] + [Ref(Mark)] == [Ref(Read), Ref(Mark)];
  }

  lemma WorksFromCas(st: State, st1: State, t: ClientId, link: bool, s: Slot, o: Obj) returns (states: seq<State>)
    requires IsId(t) && t in st1.client && Running(st1.client[t]) && Counts(st, o)
    requires AtWork(st, st1, t, if st1.client[t].phase.Up? then Logged else Marked, link, s, o)
    ensures Alone(states, t, FromCas(!link && st.word[o].cnt == 1)) && states[0] == st1
    ensures Done(st, Last(states), t, link, s, o)
  {
    CasWorks(st, st1, t, link, s, o);
    var st2 := ApplyRef(st1, t, CasOk);
    StoreWorks(st, st2, t, link, s, o);
    var st3 := ApplyRef(st2, t, Store);
    BumpWorks(st, st3, t, link, s, o);
    var st4 := ApplyRef(st3, t, Bump);
    RefNext(st1, t, CasOk);
    RefNext(st2, t, Store);
    RefNext(st3, t, Bump);
    states := ThreeSteps(st1, st2, st3, st4, t);
    if !link && st.word[o].cnt == 1 {
      ZeroWorks(st, st4, t, s, o);
      RefNext(st4, t, Zero);
      AloneThen(states, t, FromCas(false), Ref(Zero), ApplyRef(st4, t, Zero));
      states := states + [ApplyRef(st4, t, Zero)];
      assert FromCas(false) + [Ref(Zero)] == FromCas(true);
    }
  }

  lemma ThreeSteps(st1: State, st2: State, st3: State, st4: State, t: ClientId) returns (states: seq<State>)
    requires Next(st1, Move(t, Ref(CasOk)), st2)
    requires Next(st2, Move(t, Ref(Store)), st3) && Next(st3, Move(t, Ref(Bump)), st4)
    ensures Alone(states, t, FromCas(false)) && states[0] == st1 && Last(states) == st4
  {
    AloneOne(st1, t, Ref(CasOk), st2);
    AloneThen([st1, st2], t, [Ref(CasOk)], Ref(Store), st3);
    AloneThen([st1, st2] + [st3], t, [Ref(CasOk)] + [Ref(Store)], Ref(Bump), st4);
    states := [st1, st2] + [st3] + [st4];
    assert [Ref(CasOk)] + [Ref(Store)] + [Ref(Bump)] == FromCas(false);
  }

  /** All steps of an operation on o at slot s that begins with this one. */
  function OpActs(first: Act, logs: bool, frees: bool): seq<Act> {
    [first] + UpToCas(logs) + FromCas(frees)
  }

  lemma OpAlone(st: State, first: Act, st1: State, t: ClientId, link: bool, s: Slot, o: Obj)
      returns (states: seq<State>)
    requires Next(st, Move(t, first), st1) && AtWork(st, st1, t, Begun, link, s, o)
    requires Running(st1.client[t]) && Counts(st, o)
    ensures Alone(states, t, OpActs(first, st.client[t].phase.Up?, !link && st.word[o].cnt == 1)) && states[0] == st
    ensures Done(st, Last(states), t, link, s, o)
  {
    AloneOne(st, t, first, st1);
    var a := WorksToCas(st, st1, t, link, s, o);
    AloneJoin([st, st1], [first], a, UpToCas(st.client[t].phase.Up?), t);
    states := [st, st1] + a[1..];
    var b := WorksFromCas(st, Last(a), t, link, s, o);
    AloneJoin(states, [first] + UpToCas(st.client[t].phase.Up?), b, FromCas(!link && st.word[o].cnt == 1), t);
    states := states + b[1..];
  }

  /** `unlink_reference` when nobody interferes: each of its steps can be made in turn; the slot
      is null, the count one lower, and the last unlink frees the block. */
  lemma UnlinkAlone(st: State, t: ClientId, s: Slot) returns (states: seq<State>)
    requires Inv(st) && IsId(t) && EnabledRef(st, t, BeginUnlink(s))
    ensures var o := st.slot[s];
            && o in st.word
            && Alone(states, t, OpActs(Ref(BeginUnlink(s)), true, st.word[o].cnt == 1)) && states[0] == st
            && Done(st, Last(states), t, false, s, o)
  {
    ReadySlotCounts(st, t, s);
    states := UnlinkSteps(st, t, s);
  }

  /** `link_reference` likewise: the slot has the object, the count is one higher. */
  lemma LinkAlone(st: State, t: ClientId, s: Slot, o: Obj, via: Slot) returns (states: seq<State>)
    requires Inv(st) && IsId(t) && EnabledRef(st, t, BeginLink(s, o, via))
    ensures Alone(states, t, OpActs(Ref(BeginLink(s, o, via)), true, false)) && states[0] == st
    ensures Done(st, Last(states), t, true, s, o)
  {
    ReadySlotCounts(st, t, via);
    states := LinkSteps(st, t, s, o, via);
  }

  /** A slot of a client between two operations counts. */
  lemma ReadySlotCounts(st: State, t: ClientId, s: Slot)
    requires Inv(st) && IsId(t) && Ready(st.client[t]) && Owns(st, t, s) && st.slot[s] != 0
    ensures Counts(st, st.slot[s])
  {
    assert ClientOk(st, t);
    assert Credits(st)[s] == st.slot[s];
    CountPositive(Credits(st), s);
  }

  /** The monitor releases a counted root: each step can be made in turn; the root is null, the
      count one lower, and the last one frees the block. */
  lemma ReleaseAlone(st: State, t: ClientId, s: Slot) returns (states: seq<State>)
    requires Inv(st) && IsId(t) && EnabledMon(st, t, Release(s))
    ensures var o := st.slot[s];
            && o in st.word
            && Alone(states, t, OpActs(Mon(Release(s)), false, st.word[o].cnt == 1)) && states[0] == st
            && Done(st, Last(states), t, false, s, o)
  {
    ReleaseCounts(st, t, s);
    states := ReleaseSteps(st, t, s);
  }

  lemma UnlinkSteps(st: State, t: ClientId, s: Slot) returns (states: seq<State>)
    requires Shape(st) && IsId(t) && EnabledRef(st, t, BeginUnlink(s)) && Counts(st, st.slot[s])
    ensures var o := st.slot[s];
            && Alone(states, t, OpActs(Ref(BeginUnlink(s)), true, st.word[o].cnt == 1)) && states[0] == st
            && Done(st, Last(states), t, false, s, o)
  {
    RefNext(st, t, BeginUnlink(s));
    states := OpAlone(st, Ref(BeginUnlink(s)), ApplyRef(st, t, BeginUnlink(s)), t, false, s, st.slot[s]);
  }

  lemma LinkSteps(st: State, t: ClientId, s: Slot, o: Obj, via: Slot) returns (states: seq<State>)
    requires Shape(st) && IsId(t) && EnabledRef(st, t, BeginLink(s, o, via)) && Counts(st, o)
    ensures Alone(states, t, OpActs(Ref(BeginLink(s, o, via)), true, false)) && states[0] == st
    ensures Done(st, Last(states), t, true, s, o)
  {
    RefNext(st, t, BeginLink(s, o, via));
    states := OpAlone(st, Ref(BeginLink(s, o, via)), ApplyRef(st, t, BeginLink(s, o, via)), t, true, s, o);
  }

  lemma ReleaseSteps(st: State, t: ClientId, s: Slot) returns (states: seq<State>)
    requires Shape(st) && IsId(t) && EnabledMon(st, t, Release(s)) && Counts(st, st.slot[s])
    ensures var o := st.slot[s];
            && Alone(states, t, OpActs(Mon(Release(s)), false, st.word[o].cnt == 1)) && states[0] == st
            && Done(st, Last(states), t, false, s, o)
  {
    states := OpAlone(st, Mon(Release(s)), ApplyMon(st, t, Release(s)), t, false, s, st.slot[s]);
  }

  lemma ReleaseCounts(st: State, t: ClientId, s: Slot)
    requires SlotsOk(st) && t in st.client && EnabledMon(st, t, Release(s))
    ensures Counts(st, st.slot[s])
  {
  }

  /** `cxl_ref_alloc` likewise: the root has the block, which is off the free list and has its
      first count. */
  lemma AllocAlone(st: State, t: ClientId, s: Slot, o: Obj, nxt: Obj) returns (states: seq<State>)
    requires Inv(st) && IsId(t) && EnabledOwn(st, t, Root(s, o))
    requires nxt == 0 || (nxt in st.pool && nxt != o && Homed(st, nxt, t))
    ensures Alone(states, t, AllocActs(s, o, nxt)) && states[0] == st
    ensures Allocated(st, Last(states), t, s, o, nxt)
  {
    assert ClientOk(st, t);
    states := AllocSteps(st, t, s, o, nxt);
  }

  function AllocActs(s: Slot, o: Obj, nxt: Obj): seq<Act> {
    [Own(Root(s, o)), Own(Pop(nxt)), Own(Draw), Own(Stamp)]
  }

  ghost predicate Allocated(st: State, st': State, t: ClientId, s: Slot, o: Obj, nxt: Obj) {
    && t in st'.client && st'.client == st.client[t := st'.client[t]] && Ready(st'.client[t])
    && o in st'.word && st'.word == st.word[o := st'.word[o]] && st'.word[o].cid == t && st'.word[o].cnt == 1
    && st'.slot == st.slot[s := o] && st'.owner == st.owner && st'.home == st.home
    && st'.pool == st.pool - {o} && st'.heads == st.heads - {o} + (if nxt == 0 then {} else {nxt})
    && st'.client[t].torn == 0
  }

  lemma AllocSteps(st: State, t: ClientId, s: Slot, o: Obj, nxt: Obj) returns (states: seq<State>)
    requires Shape(st) && IsId(t) && EnabledOwn(st, t, Root(s, o))
    requires nxt == 0 || (nxt in st.pool && nxt != o && Homed(st, nxt, t))
    ensures Alone(states, t, AllocActs(s, o, nxt)) && states[0] == st
    ensures Allocated(st, Last(states), t, s, o, nxt)
  {
    var st1 := ApplyOwn(st, t, Root(s, o));
    var st2 := ApplyOwn(st1, t, Pop(nxt));
    var st3 := ApplyOwn(st2, t, Draw);
    var st4 := ApplyOwn(st3, t, Stamp);
    AloneOne(st, t, Own(Root(s, o)), st1);
    AloneThen([st, st1], t, [Own(Root(s, o))], Own(Pop(nxt)), st2);
    AloneThen([st, st1] + [st2], t, [Own(Root(s, o))] + [Own(Pop(nxt))], Own(Draw), st3);
    AloneThen([st, st1] + [st2] + [st3], t, [Own(Root(s, o))] + [Own(Pop(nxt))] + [Own(Draw)], Own(Stamp), st4);
    states := [st, st1] + [st2] + [st3] + [st4];
    assert [Own(Root(s, o))] + [Own(Pop(nxt))] + [Own(Draw)] + [Own(Stamp)]
        == AllocActs(s, o, nxt);
  }

  /** A freed block comes back: with the ring cleared, and put at the head of its page's list, it
      can be allocated again, to any empty slot of the client. */
  lemma RecycleAlone(st: State, t: ClientId, s: Slot, o: Obj) returns (states: seq<State>)
    requires Inv(st) && IsId(t) && Ready(st.client[t]) && o in st.pool && Homed(st, o, t)
    requires Owns(st, t, s) && st.slot[s] == 0
    ensures Alone(states, t, [Own(ClearRing), Own(Refill(o))] + AllocActs(s, o, 0)) && states[0] == st
    ensures Allocated(st.(heads := st.heads + {o}), Last(states), t, s, o, 0)
  {
    assert s != 0;
    states := RecycleSteps(st, t, s, o);
  }

  lemma RecycleSteps(st: State, t: ClientId, s: Slot, o: Obj) returns (states: seq<State>)
    requires Shape(st) && IsId(t) && Ready(st.client[t]) && o in st.pool && Homed(st, o, t)
    requires Owns(st, t, s) && st.slot[s] == 0 != s
    ensures Alone(states, t, [Own(ClearRing), Own(Refill(o))] + AllocActs(s, o, 0)) && states[0] == st
    ensures Allocated(st.(heads := st.heads + {o}), Last(states), t, s, o, 0)
  {
    states := RefillSteps(st, t, o);
    var more := AllocSteps(Last(states), t, s, o, 0);
    AloneJoin(states, [Own(ClearRing), Own(Refill(o))], more, AllocActs(s, o, 0), t);
    states := states + more[1..];
  }

  lemma RefillSteps(st: State, t: ClientId, o: Obj) returns (states: seq<State>)
    requires Shape(st) && IsId(t) && Ready(st.client[t]) && o in st.pool && Homed(st, o, t)
    ensures Alone(states, t, [Own(ClearRing), Own(Refill(o))]) && states[0] == st && Shape(Last(states))
    ensures var c := st.client[t].(ring := CLEARED, last := EMPTY, given := false);
            Last(states) == st.(heads := st.heads + {o}, client := st.client[t := c])
  {
    var st1 := ApplyOwn(st, t, ClearRing);
    var st2 := ApplyOwn(st1, t, Refill(o));
    AloneOne(st, t, Own(ClearRing), st1);
    AloneThen([st, st1], t, [Own(ClearRing)], Own(Refill(o)), st2);
    states := [st, st1] + [st2];
    assert [Own(ClearRing)] + [Own(Refill(o))] == [Own(ClearRing), Own(Refill(o))];
  }

  // ----- who counts an object down to zero frees it

  /** Past the CAS that took the last count of o, and not yet done with freeing it. */
  predicate Dying(c: Client, o: Obj) {
    (c.pc.Swapped? || c.pc.Stored? || c.pc.Freeing?) && !c.link && c.saw.cnt == 1 && c.refed == o
  }

  function NextOfDying(c: Client): RefAct {
    if c.pc.Swapped? then Store else if c.pc.Stored? then Bump else Zero
  }

  /** Such a client can go on, unless it has crashed; its third step at the latest frees the block. */
  lemma DyingGoesOn(st: State, t: ClientId, o: Obj)
    requires Shape(st) && IsId(t) && Dying(st.client[t], o) && Running(st.client[t])
    ensures var a := NextOfDying(st.client[t]);
            && EnabledRef(st, t, a)
            && var st' := ApplyRef(st, t, a);
               && t in st'.client
               && if a.Zero? then WordAt(st', o) == ZERO && o in st'.pool && st'.client[t].pc.Idle?
                  else Dying(st'.client[t], o) && NextOfDying(st'.client[t]) == if a.Store? then Bump else Zero
  {
  }

  predicate IsCrash(m: Move, t: ClientId) {
    m == Move(t, Mon(Crash))
  }

  lemma DyingStays(st: State, m: Move, st': State, t: ClientId, o: Obj)
    requires Next(st, m, st') && t in st.client && Dying(st.client[t], o) && Running(st.client[t])
    requires !IsCrash(m, t) && !(m.t == t && Frees(st, m, o))
    ensures t in st'.client && Dying(st'.client[t], o) && Running(st'.client[t])
  {
    if m.t == t {
      OwnDyingStays(st, m, st', o);
    } else {
      StepEffect(st, m, st', 0);
    }
  }

  lemma OwnDyingStays(st: State, m: Move, st': State, o: Obj)
    requires Next(st, m, st') && Dying(st.client[m.t], o) && Running(st.client[m.t])
    requires !IsCrash(m, m.t) && m.a != Ref(Zero)
    ensures m.t in st'.client && Dying(st'.client[m.t], o) && Running(st'.client[m.t])
  {
    assert m.a == Ref(Store) || m.a == Ref(Bump);
  }

  lemma KillDies(st: State, m: Move, st': State, o: Obj)
    requires Next(st, m, st') && Kills(st, m, o)
    ensures m.t in st'.client && Dying(st'.client[m.t], o) && Running(st'.client[m.t])
  {
  }

  /** A crash of t, or its freeing of o. */
  ghost predicate EndsDying(st: State, m: Move, t: ClientId, o: Obj) {
    IsCrash(m, t) || (m.t == t && Frees(st, m, o))
  }

  lemma {:induction false} DyingUntil(states: seq<State>, moves: seq<Move>, i: nat, k: nat, o: Obj)
    requires Run(states, moves) && i < k < |states| && Kills(states[i], moves[i], o)
    requires forall p | i < p < k :: !EndsDying(states[p], moves[p], moves[i].t, o)
    ensures var t := moves[i].t;
            t in states[k].client && Dying(states[k].client[t], o) && Running(states[k].client[t])
  {
    var p := k - 1;
    RunStep(states, moves, p);
    if i == p {
      KillDies(states[i], moves[i], states[i + 1], o);
    } else {
      DyingUntil(states, moves, i, p, o);
      assert !EndsDying(states[p], moves[p], moves[i].t, o);
      DyingStays(states[p], moves[p], states[p + 1], moves[i].t, o);
    }
  }

  /** The first step of an operation, or of the release of a root. */
  predicate StartsAnew(a: Act) {
    match a
    case Ref(r) => r.BeginLink? || r.BeginUnlink?
    case Own(w) => w.Root? || w.Refill? || w.ClearRing? || w.Give?
    case Mon(m) => m.Skip? || m.Release?
  }

  lemma StartsIdle(st: State, t: ClientId, a: Act)
    requires t in st.client && Enabled(st, t, a) && StartsAnew(a)
    ensures st.client[t].pc.Idle?
  {
  }

  /** Main theorem: over any run, between the CAS of a client that takes the last count of an
      object and the next operation of that client, the client frees the object, unless it has
      crashed in between. */
  lemma KilledIsFreed(states: seq<State>, moves: seq<Move>, i: nat, k: nat, o: Obj)
    requires Run(states, moves) && i < k < |moves| && Kills(states[i], moves[i], o)
    requires moves[k].t == moves[i].t && StartsAnew(moves[k].a)
    ensures exists p | i < p < k :: EndsDying(states[p], moves[p], moves[i].t, o)
  {
    RunStep(states, moves, k);
    StartsIdle(states[k], moves[k].t, moves[k].a);
    if forall p | i < p < k :: !EndsDying(states[p], moves[p], moves[i].t, o) {
      DyingUntil(states, moves, i, k, o);
      assert false;
    }
  }

  /** The word of o is that of an object whose last count is gone and which is not freed. */
  predicate Dead(st: State, o: Obj) {
    WordAt(st, o).cnt == 0 && WordAt(st, o) != ZERO
  }

  /** Step i took the last count, and the word has not changed since. */
  ghost predicate KilledAt(states: seq<State>, moves: seq<Move>, i: nat, n: nat, o: Obj)
    requires n < |states| == |moves| + 1 && i < n
  {
    && Kills(states[i], moves[i], o) && WordAt(states[n], o).cid == moves[i].t
    && forall p | i < p < n :: WordAt(states[p], o) == WordAt(states[n], o)
  }

  lemma DeadByCas(states: seq<State>, moves: seq<Move>, n: nat, o: Obj)
    requires Run(states, moves) && n < |moves| && Dead(states[n + 1], o)
    requires WordAt(states[n], o) != WordAt(states[n + 1], o)
    ensures Kills(states[n], moves[n], o) && WordAt(states[n + 1], o).cid == moves[n].t
  {
    RunInv(states, moves, n);
    RunStep(states, moves, n);
    var st, m := states[n], moves[n];
    assert ClientOk(st, m.t);
    StepEffect(st, m, states[n + 1], o);
    if m.a == Ref(CasOk) {
      CasSees(states, moves, n, m.t);
      RefEffect(st, m.t, CasOk, o);
    } else if m.a == Own(Stamp) {
      StampLives(st, m.t);
    }
  }

  lemma StampLives(st: State, t: ClientId)
    requires t in st.client && EnabledOwn(st, t, Stamp) && TornOk(st, t)
    ensures st.client[t].saw.cnt == 1
  {
  }

  lemma {:induction false} DeadWasKilled(states: seq<State>, moves: seq<Move>, n: nat, o: Obj) returns (i: nat)
    requires Run(states, moves) && n < |states| && Dead(states[n], o)
    ensures i < n && KilledAt(states, moves, i, n, o)
  {
    if n == 0 {
      assert false;
    }
    if WordAt(states[n - 1], o) == WordAt(states[n], o) {
      i := DeadWasKilled(states, moves, n - 1, o);
    } else {
      DeadByCas(states, moves, n - 1, o);
      i := n - 1;
    }
  }

  /** In every state of a run: an object without a count that is not freed yet has a client on its
      way to free it, namely the one whose stamp it carries, whose next step is possible; unless
      that client crashed after it had taken the last count. */
  lemma DeadIsBeingFreed(states: seq<State>, moves: seq<Move>, n: nat, o: Obj)
    requires Run(states, moves) && n < |states| && Dead(states[n], o)
    ensures var t := WordAt(states[n], o).cid;
            || (t in states[n].client && Dying(states[n].client[t], o) && Running(states[n].client[t])
                && EnabledRef(states[n], t, NextOfDying(states[n].client[t])))
            || exists i, p | 0 <= i < p < n :: Kills(states[i], moves[i], o) && IsCrash(moves[p], t)
  {
    var i := DeadWasKilled(states, moves, n, o);
    var t := moves[i].t;
    if p :| i < p < n && EndsDying(states[p], moves[p], t, o) {
      if !IsCrash(moves[p], t) {
        FreesOwnStamp(states, moves, p, o);
        assert false;
      }
    } else {
      DyingUntil(states, moves, i, n, o);
      RunInv(states, moves, n);
      RunStep(states, moves, i);
      DyingGoesOn(states[n], t, o);
    }
  }

  // ----- no client is stuck

  /** The next step of a client in an operation. */
  function NextOfClient(st: State, c: Client): Act
    requires !c.pc.Idle?
  {
    match c.pc
    case Begun => Ref(Read)
    case Saw => Ref(Mark)
    case Marked => Ref(Log)
    case Logged => if WordAt(st, c.refed) == c.saw then Ref(CasOk) else Ref(CasFail)
    case Swapped => Ref(Store)
    case Stored => Ref(Bump)
    case Freeing => Ref(Zero)
    case Rooted => Own(Pop(0))
    case Popped => Own(Draw)
    case Stamping => Own(Stamp)
  }

  /** Steps to the end of the operation; a word changed since it was read costs one more round. */
  function ClientLeft(st: State, c: Client): nat {
    var stale := WordAt(st, c.refed) != c.saw;
    match c.pc
    case Idle => 0
    case Begun => 7
    case Saw => if stale then 10 else 6
    case Marked => if stale then 9 else 5
    case Logged => if stale then 8 else 4
    case Swapped => 3
    case Stored => 2
    case Freeing => 1
    case Rooted => 3
    case Popped => 2
    case Stamping => 1
  }

  /** The client is up as before, and closer to the end. */
  ghost predicate Closer(st: State, st': State, t: ClientId) {
    && t in st.client && t in st'.client && st'.client[t].phase.Up?
    && ClientLeft(st', st'.client[t]) < ClientLeft(st, st.client[t])
  }

  lemma ReadsOn(st: State, t: ClientId)
    requires Shape(st) && IsId(t) && st.client[t].phase.Up?
    requires var pc := st.client[t].pc; pc.Begun? || pc.Saw? || pc.Marked?
    ensures var a := NextOfClient(st, st.client[t]).ref; EnabledRef(st, t, a) && Closer(st, ApplyRef(st, t, a), t)
  {
  }

  lemma SwapsOn(st: State, t: ClientId)
    requires Shape(st) && IsId(t) && st.client[t].phase.Up? && st.client[t].pc.Logged?
    ensures var a := NextOfClient(st, st.client[t]).ref; EnabledRef(st, t, a) && Closer(st, ApplyRef(st, t, a), t)
  {
  }

  lemma EndsOn(st: State, t: ClientId)
    requires Shape(st) && IsId(t) && st.client[t].phase.Up?
    requires var pc := st.client[t].pc; pc.Swapped? || pc.Stored? || pc.Freeing?
    ensures var a := NextOfClient(st, st.client[t]).ref; EnabledRef(st, t, a) && Closer(st, ApplyRef(st, t, a), t)
  {
  }

  lemma AllocatesOn(st: State, t: ClientId)
    requires Shape(st) && IsId(t) && st.client[t].phase.Up? && st.client[t].pc.Allocating()
    ensures var a := NextOfClient(st, st.client[t]).own; EnabledOwn(st, t, a) && Closer(st, ApplyOwn(st, t, a), t)
  {
  }

  /** A client that is up can always go on with its operation, and gets closer to its end. */
  lemma ClientAdvances(st: State, t: ClientId)
    requires Shape(st) && IsId(t) && st.client[t].phase.Up? && !st.client[t].pc.Idle?
    ensures var a := NextOfClient(st, st.client[t]); Enabled(st, t, a) && Closer(st, Apply(st, t, a), t)
  {
    match st.client[t].pc
    case Begun => ReadsOn(st, t);
    case Saw => ReadsOn(st, t);
    case Marked => ReadsOn(st, t);
    case Logged => SwapsOn(st, t);
    case Swapped => EndsOn(st, t);
    case Stored => EndsOn(st, t);
    case Freeing => EndsOn(st, t);
    case _ => AllocatesOn(st, t);
  }
}
