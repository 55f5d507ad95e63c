/** The monitor is never stuck and comes to the end of every recovery, and what has been
    released by then. */
module EraRecovery {
  import opened Common
  import opened RefInfo
  import opened RedoLog
  import opened EraProtocol
  import opened EraInvariant
  import opened EraSteps
  import opened EraTheorems
  import opened EraHistory
  import opened EraRelease
  import opened EraProgress

  /** Slots of t that are not null, but for the one being released. */
  ghost function ToDo(st: State, t: ClientId): set<Slot>
    requires t in st.client
  {
    var c := st.client[t];
    set s | s in st.slot && Owns(st, t, s) && st.slot[s] != 0 && !(Busy(c) && s == c.ref)
  }

  /** A release whose slot is not null yet, or is about to be. */
  predicate Busy(c: Client) {
    c.pc.Trying() || c.pc.Swapped? || c.pc.Stored?
  }

  /** The recovery is over. */
  ghost predicate Finished(st: State, t: ClientId) {
    && t in st.client && st.client[t].phase.Recovered? && st.client[t].pc.Idle?
    && forall s | Owns(st, t, s) :: st.slot[s] == 0
  }

  /** What the monitor does next for a crashed client. */
  ghost function NextOfMonitor(st: State, t: ClientId): Act
    requires t in st.client && !st.client[t].phase.Up? && !Finished(st, t)
  {
    var c := st.client[t];
    match c.phase
    case Down => Mon(RedoStart)
    case Scanning(_, _) => Mon(RedoScan)
    case Decided(_) => Mon(RedoWrite)
    case Recovered => if c.pc.Idle? then NextRoot(st, t) else Ref(NextOfRelease(st, c))
  }

  ghost function NextRoot(st: State, t: ClientId): Act
    requires t in st.client && exists s :: Owns(st, t, s) && st.slot[s] != 0
  {
    var s :| Owns(st, t, s) && st.slot[s] != 0;
    if st.slot[s] in st.heads || WordAt(st, st.slot[s]).cnt == 0 then Mon(Skip(s)) else Mon(Release(s))
  }

  function NextOfRelease(st: State, c: Client): RefAct {
    match c.pc
    case Begun => Read
    case Saw => Mark
    case Marked => if WordAt(st, c.refed) == c.saw then CasOk else CasFail
    case Swapped => Store
    case Stored => Bump
    case _ => Zero
  }

  /** How far the recovery is from its end: the phases of the replay, then for each slot still to
      do and for the one being released. A word that another client has changed since it was
      read costs one more round. */
  function PhaseLeft(p: Phase): nat {
    match p
    case Down => MAX_THREAD + 4
    case Scanning(row, _) => if row <= MAX_THREAD then MAX_THREAD + 3 - row else 2
    case Decided(_) => 1
    case _ => 0
  }

  ghost function Effort(st: State, t: ClientId): nat
    requires t in st.client
  {
    20 * |ToDo(st, t)| + ReleaseLeft(st, st.client[t])
  }

  function ReleaseLeft(st: State, c: Client): nat {
    var stale := WordAt(st, c.refed) != c.saw;
    match c.pc
    case Idle => 0
    case Begun => 6
    case Saw => if stale then 8 else 5
    case Marked => if stale then 7 else 4
    case Swapped => 3
    case Stored => 2
    case _ => 1
  }

  /** A client replayed is between two releases, or in one. */
  ghost predicate Releasing(c: Client) {
    c.phase.Recovered? ==> Unlinking(c) && !c.pc.Logged? && !c.pc.Allocating()
  }

  /** Still down, and nearer to the end of the recovery. */
  ghost predicate Nearer(st: State, st': State, t: ClientId) {
    && t in st.client && t in st'.client && !st'.client[t].phase.Up? && Releasing(st'.client[t])
    && (PhaseLeft(st'.client[t].phase) < PhaseLeft(st.client[t].phase)
        || (PhaseLeft(st'.client[t].phase) == PhaseLeft(st.client[t].phase) && Effort(st', t) < Effort(st, t)))
  }

  lemma RedoStarts(st: State, t: ClientId)
    requires Shape(st) && IsId(t) && st.client[t].phase.Down?
    ensures EnabledMon(st, t, RedoStart) && Nearer(st, ApplyMon(st, t, RedoStart), t)
  {
  }

  lemma RedoScans(st: State, t: ClientId)
    requires Shape(st) && IsId(t) && st.client[t].phase.Scanning?
    ensures EnabledMon(st, t, RedoScan) && Nearer(st, ApplyMon(st, t, RedoScan), t)
  {
  }

  lemma RedoWrites(st: State, t: ClientId)
    requires Shape(st) && IsId(t) && st.client[t].phase.Decided?
    ensures EnabledMon(st, t, RedoWrite) && Nearer(st, ApplyMon(st, t, RedoWrite), t)
  {
  }

  lemma FewerToDo(st: State, st': State, t: ClientId, s: Slot)
    requires t in st.client && t in st'.client && s in ToDo(st, t) && ToDo(st', t) == ToDo(st, t) - {s}
    requires ReleaseLeft(st', st'.client[t]) < 20
    ensures Effort(st', t) < Effort(st, t)
  {
  }

  lemma SkipAdvances(st: State, t: ClientId, s: Slot)
    requires Shape(st) && IsId(t) && EnabledMon(st, t, Skip(s)) && s != 0
    ensures Nearer(st, ApplyMon(st, t, Skip(s)), t)
  {
    assert ToDo(ApplyMon(st, t, Skip(s)), t) == ToDo(st, t) - {s};
    FewerToDo(st, ApplyMon(st, t, Skip(s)), t, s);
  }

  lemma ReleaseStarts(st: State, t: ClientId, s: Slot)
    requires Shape(st) && IsId(t) && EnabledMon(st, t, Release(s))
    ensures Nearer(st, ApplyMon(st, t, Release(s)), t)
  {
    assert ToDo(ApplyMon(st, t, Release(s)), t) == ToDo(st, t) - {s};
    FewerToDo(st, ApplyMon(st, t, Release(s)), t, s);
  }

  lemma RootAdvances(st: State, t: ClientId)
    requires Shape(st) && SlotsOk(st) && IsId(t) && st.client[t].phase.Recovered? && st.client[t].pc.Idle?
    requires !Finished(st, t)
    ensures var a := NextOfMonitor(st, t); a.Mon? && EnabledMon(st, t, a.mon) && Nearer(st, ApplyMon(st, t, a.mon), t)
  {
    assert exists s :: Owns(st, t, s) && st.slot[s] != 0;
    var a := NextRoot(st, t);
    if a.mon.Skip? {
      SkipAdvances(st, t, a.mon.s);
    } else {
      ReleaseStarts(st, t, a.mon.s);
    }
  }

  /** A step within a release. */
  ghost predicate InRelease(st: State, t: ClientId) {
    && Shape(st) && IsId(t) && st.client[t].phase.Recovered? && Releasing(st.client[t])
  }

  lemma SameToDo(st: State, st': State, t: ClientId)
    requires t in st.client && t in st'.client && ToDo(st', t) == ToDo(st, t)
    requires ReleaseLeft(st', st'.client[t]) < ReleaseLeft(st, st.client[t])
    ensures Effort(st', t) < Effort(st, t)
  {
  }

  lemma ReleaseReads(st: State, t: ClientId)
    requires InRelease(st, t) && st.client[t].pc.Begun?
    ensures EnabledRef(st, t, Read) && Nearer(st, ApplyRef(st, t, Read), t)
  {
    assert ToDo(ApplyRef(st, t, Read), t) == ToDo(st, t);
    SameToDo(st, ApplyRef(st, t, Read), t);
  }

  lemma ReleaseMarks(st: State, t: ClientId)
    requires InRelease(st, t) && st.client[t].pc.Saw?
    ensures EnabledRef(st, t, Mark) && Nearer(st, ApplyRef(st, t, Mark), t)
  {
    assert ToDo(ApplyRef(st, t, Mark), t) == ToDo(st, t);
    SameToDo(st, ApplyRef(st, t, Mark), t);
  }

  lemma ReleaseSwaps(st: State, t: ClientId)
    requires InRelease(st, t) && st.client[t].pc.Marked?
    ensures var a := NextOfRelease(st, st.client[t]); EnabledRef(st, t, a) && Nearer(st, ApplyRef(st, t, a), t)
  {
    var st' := ApplyRef(st, t, NextOfRelease(st, st.client[t]));
    assert ToDo(st', t) == ToDo(st, t);
    SameToDo(st, st', t);
  }

  lemma ReleaseStores(st: State, t: ClientId)
    requires InRelease(st, t) && st.client[t].pc.Swapped?
    ensures EnabledRef(st, t, Store) && Nearer(st, ApplyRef(st, t, Store), t)
  {
    assert ToDo(ApplyRef(st, t, Store), t) == ToDo(st, t);
    SameToDo(st, ApplyRef(st, t, Store), t);
  }

  lemma ReleaseBumps(st: State, t: ClientId)
    requires InRelease(st, t) && st.client[t].pc.Stored? && OpOk(st, t)
    ensures EnabledRef(st, t, Bump) && Nearer(st, ApplyRef(st, t, Bump), t)
  {
    assert ToDo(ApplyRef(st, t, Bump), t) == ToDo(st, t);
    SameToDo(st, ApplyRef(st, t, Bump), t);
  }

  lemma ReleaseFrees(st: State, t: ClientId)
    requires InRelease(st, t) && st.client[t].pc.Freeing?
    ensures EnabledRef(st, t, Zero) && Nearer(st, ApplyRef(st, t, Zero), t)
  {
    assert ToDo(ApplyRef(st, t, Zero), t) == ToDo(st, t);
    SameToDo(st, ApplyRef(st, t, Zero), t);
  }

  /** The monitor is never stuck, and every step of its own brings the end of the recovery closer. */
  lemma MonitorAdvances(st: State, t: ClientId)
    requires Inv(st) && IsId(t) && !st.client[t].phase.Up? && Releasing(st.client[t]) && !Finished(st, t)
    ensures var a := NextOfMonitor(st, t); !a.Own? && Enabled(st, t, a) && Nearer(st, Apply(st, t, a), t)
  {
    match st.client[t].phase
    case Down => RedoStarts(st, t);
    case Scanning(_, _) => RedoScans(st, t);
    case Decided(_) => RedoWrites(st, t);
    case Recovered =>
      assert ClientOk(st, t);
      if st.client[t].pc.Idle? {
        RootAdvances(st, t);
      } else {
        ReleaseGoesOn(st, t);
      }
  }

  lemma ReleaseGoesOn(st: State, t: ClientId)
    requires InRelease(st, t) && OpOk(st, t) && !st.client[t].pc.Idle?
    ensures var a := NextOfRelease(st, st.client[t]); EnabledRef(st, t, a) && Nearer(st, ApplyRef(st, t, a), t)
  {
    match st.client[t].pc
    case Begun => ReleaseReads(st, t);
    case Saw => ReleaseMarks(st, t);
    case Marked => ReleaseSwaps(st, t);
    case Swapped => ReleaseStores(st, t);
    case Stored => ReleaseBumps(st, t);
    case _ => ReleaseFrees(st, t);
  }

  /** The decision to replay has fallen, and the replay would do harm. */
  ghost predicate AboutToHarm(st: State, t: ClientId) {
    t in st.client && st.client[t].phase.Decided? && Harmful(st, t)
  }

  /** Left alone, the monitor gets from any point of a recovery to its end, unless it comes to a
      harmful replay. */
  lemma {:induction false} MonitorFinishes(st: State, t: ClientId) returns (states: seq<State>, acts: seq<Act>)
    requires Inv(st) && IsId(t) && !st.client[t].phase.Up? && Releasing(st.client[t])
    ensures Alone(states, t, acts) && states[0] == st && forall i | 0 <= i < |acts| :: !acts[i].Own?
    ensures Finished(Last(states), t) || AboutToHarm(Last(states), t)
    decreases PhaseLeft(st.client[t].phase), Effort(st, t)
  {
    states, acts := [st], [];
    if !Finished(st, t) && !AboutToHarm(st, t) {
      var a, st' := MonitorMakes(st, t);
      var more, rest := MonitorFinishes(st', t);
      AloneOne(st, t, a, st');
      AloneJoin([st, st'], [a], more, rest, t);
      states, acts := [st, st'] + more[1..], [a] + rest;
    }
  }

  lemma MonitorMakes(st: State, t: ClientId) returns (a: Act, st': State)
    requires Inv(st) && IsId(t) && !st.client[t].phase.Up? && Releasing(st.client[t])
    requires !Finished(st, t) && !AboutToHarm(st, t)
    ensures !a.Own? && Next(st, Move(t, a), st') && Nearer(st, st', t) && Inv(st')
  {
    MonitorAdvances(st, t);
    a := NextOfMonitor(st, t);
    st' := Apply(st, t, a);
    StepKeepsInv(st, t, a);
  }

  lemma StaysReleasing(st: State, m: Move, st': State, t: ClientId)
    requires Next(st, m, st') && t in st.client && Releasing(st.client[t])
    ensures t in st'.client && Releasing(st'.client[t])
  {
    if t == m.t {
      ApplyStaysReleasing(st, t, m.a);
    } else {
      StepEffect(st, m, st', 0);
    }
  }

  lemma ApplyStaysReleasing(st: State, t: ClientId, a: Act)
    requires t in st.client && t in st.era && Enabled(st, t, a) && Releasing(st.client[t])
    ensures t in Apply(st, t, a).client && Releasing(Apply(st, t, a).client[t])
  {
    match a
    case Ref(r) => RefStaysReleasing(st, t, r);
    case Own(w) => OwnEffect(st, t, w, 0);
    case Mon(m) => MonStaysReleasing(st, t, m);
  }

  lemma RefStaysReleasing(st: State, t: ClientId, a: RefAct)
    requires t in st.client && t in st.era && EnabledRef(st, t, a) && Releasing(st.client[t])
    ensures Releasing(ApplyRef(st, t, a).client[t])
  {
  }

  lemma MonStaysReleasing(st: State, t: ClientId, a: MonAct)
    requires t in st.client && t in st.era && EnabledMon(st, t, a) && Releasing(st.client[t])
    ensures Releasing(ApplyMon(st, t, a).client[t])
  {
  }

  lemma {:induction false} RunReleasing(states: seq<State>, moves: seq<Move>, k: nat, t: ClientId)
    requires Run(states, moves) && k < |states| && IsId(t)
    ensures t in states[k].client && Releasing(states[k].client[t])
  {
    if k > 0 {
      RunReleasing(states, moves, k - 1, t);
      RunStep(states, moves, k - 1);
      StaysReleasing(states[k - 1], moves[k - 1], states[k], t);
    }
  }

  /** Main theorem: a run in which a client has crashed, whatever point its recovery has reached,
      can go on, by steps of the monitor for this client alone, to the end of the recovery, or to
      the brink of a harmful replay. At the end every object has been decremented once for each
      slot of the client that counted for it at the crash or was handed in with it since. */
  lemma RecoveryCompletes(states: seq<State>, moves: seq<Move>, i: nat, t: ClientId, o: Obj)
      returns (states': seq<State>, moves': seq<Move>)
    requires Run(states, moves) && i < |states| && IsId(t) && t in states[i].client && !states[i].client[t].phase.Up?
    requires o != 0
    ensures Run(states', moves') && states <= states' && moves <= moves'
    ensures forall k | |moves| <= k < |moves'| :: moves'[k].t == t && !moves'[k].a.Own?
    ensures Finished(Last(states'), t) || AboutToHarm(Last(states'), t)
    ensures Finished(Last(states'), t) ==>
              && Shape(states'[i])
              && Taken(states', moves', i, |moves'|, t, o)
                 == |CountedSlots(states'[i], t, o)| + Handed(states', moves', i, |moves'|, t, o)
  {
    DownForGood(states, moves, i, |moves|, t);
    RunInv(states, moves, |moves|);
    RunReleasing(states, moves, |moves|, t);
    var more, acts := MonitorFinishes(Last(states), t);
    RunGoesOn(states, moves, t, more, acts);
    states', moves' := states + more[1..], moves + Moves(t, acts);
    if Finished(Last(states'), t) {
      ReleasedExactlyOnce(states', moves', i, |moves'|, t, o);
    }
  }
}
