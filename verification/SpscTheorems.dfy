/** What holds in every run of the reference queue, and exactly when its counts are right. */
module SpscTheorems {
  import opened RedoLog
  import opened SpscQueue
  import opened SpscSteps

  // ----- runs

  ghost predicate Init(st: State) {
    && st.start == st.end == st.passed == st.swept == 0 && !st.attached && st.sender.Resting? && st.receiver.Idle?
    && st.sLife.Up? && st.rLife.Up? && st.sNote.NoNote? && st.rNote.NoNote? && !st.haunted
    && |st.buffer| == MESSAGE_BUFFER_SIZE && (forall i | 0 <= i < |st.buffer| :: st.buffer[i] == 0)
    && st.book == Book(multiset{}, multiset{}, multiset{}, multiset{}, multiset{}) && st.got == [] && st.sent == []
  }

  /** Any interleaving of the two sides, their crashes and the monitor's work. */
  ghost predicate Run(states: seq<State>, steps: seq<Step>) {
    && |states| == |steps| + 1 && Init(states[0])
    && forall i | 0 <= i < |steps| :: Enabled(states[i], steps[i]) && states[i + 1] == Apply(states[i], steps[i])
  }

  lemma {:induction false} RunInv(states: seq<State>, steps: seq<Step>, i: nat)
    requires Run(states, steps) && i < |states|
    ensures Inv(states[i])
  {
    if i == 0 {
      InitInv(states[0]);
    } else {
      RunInv(states, steps, i - 1);
      StepKeeps(states[i - 1], steps[i - 1]);
    }
  }

  lemma InitInv(st: State)
    requires Init(st)
    ensures Inv(st)
  {
    AllNull(st.buffer);
  }

  /** Main theorem: what the receiver has got is a prefix of what was sent, in order, and
      fewer objects are in flight than the ring has slots; also when either side has died. */
  lemma ReceivedIsPrefix(states: seq<State>, steps: seq<Step>, i: nat)
    requires Run(states, steps) && i < |states|
    ensures var st := states[i];
            && st.got <= st.sent
            && |st.sent| - |st.got| <= MESSAGE_BUFFER_SIZE - 1
            && |st.got| - 1 <= st.passed <= |st.got|
  {
    RunInv(states, steps, i);
    var st := states[i];
    if Has(st.receiver) {
      assert st.sent[..st.passed] + [st.sent[st.passed]] == st.sent[..st.passed + 1];
    }
  }

  /** The two sides never write the same slot. */
  lemma SlotsApart(states: seq<State>, steps: seq<Step>, i: nat)
    requires Run(states, steps) && i < |states|
    requires states[i].sender.Ready? || states[i].sender.Counted? || states[i].sender.Stored?
    requires !states[i].receiver.Idle?
    ensures states[i].start != states[i].end
  {
    RunInv(states, steps, i);
  }

  /** The receiver finds an object exactly when one is in flight that no sweep has released:
      only a sweep makes the first slot of the window null. */
  lemma LookFinds(states: seq<State>, steps: seq<Step>, i: nat)
    requires Run(states, steps) && i < |states| && EnabledR(states[i], Look)
    ensures var st := states[i];
            var r := ApplyR(st, Look).receiver;
            && (st.passed < |st.sent| && st.swept <= st.passed <==> r.Seen?)
            && (r.Seen? ==> r.o == st.sent[st.passed])
  {
    RunInv(states, steps, i);
    var st := states[i];
    assert st.buffer[At(st.start, 0)] == Held(st, 0);
  }

  /** Neither side ever links an object that has no count left. */
  lemma LinksOnlyLive(states: seq<State>, steps: seq<Step>, i: nat)
    requires Run(states, steps) && i < |steps|
    ensures steps[i] == S(LinkSlot) ==> states[i].book.cnt[states[i].sender.o] > 0
    ensures steps[i] == R(LinkRoot) ==> states[i].book.cnt[states[i].receiver.o] > 0
  {
    RunInv(states, steps, i);
    if steps[i] == S(LinkSlot) {
      HeldIsCounted(states[i], states[i].sender.o);
    } else if steps[i] == R(LinkRoot) {
      SeenIsCounted(states[i]);
    }
  }

  lemma HeldIsCounted(st: State, o: Obj)
    requires Inv(st) && st.sLife.Up? && o in st.book.sHeld
    ensures st.book.cnt[o] > 0
  {
    UncountedSlots(st);
    assert (st.book.cnt + st.book.over + Uncounted(st))[o] == Due(st)[o];
    assert Uncounted(st)[o] <= NonNull(st.buffer)[o];
  }

  lemma SeenIsCounted(st: State)
    requires Inv(st) && st.rLife.Up? && st.receiver.Seen?
    ensures st.book.cnt[st.receiver.o] > 0
  {
    var o := st.receiver.o;
    assert At(st.start, 0) == st.start && st.buffer[At(st.start, 0)] == Held(st, 0) == o;
    NonNullAt(st.buffer, st.start);
    assert !st.haunted && st.book.over == multiset{} && Uncounted(st) == multiset{};
    assert st.book.cnt == st.book.cnt + st.book.over + Uncounted(st) == Beside(st) + NonNull(st.buffer);
    assert st.book.cnt[o] == Beside(st)[o] + NonNull(st.buffer)[o];
  }

  // ----- when the counts are right

  /** In every reachable state the counts are right if and only if no replay has put back an
      object that is still there, and no sweep has given back a count whose holder is still there. */
  lemma BalanceExact(st: State)
    requires Inv(st)
    ensures Balanced(st) <==> !st.haunted && st.book.over == multiset{}
  {
    var g := if st.haunted && st.sNote.SlotNote? then multiset{st.sNote.o} else multiset{};
    assert st.book.cnt + st.book.over + Uncounted(st) == (st.book.cnt + SlotLeft(st.receiver)) + (st.book.over + g);
    if Balanced(st) {
      assert |(st.book.cnt + SlotLeft(st.receiver)) + (st.book.over + g)|
          == |st.book.cnt + SlotLeft(st.receiver)| + |st.book.over| + |g|;
      assert |st.book.over| == 0 && |g| == 0;
    }
  }

  /** Until the sender is recovered the counts are right, whatever else happens. */
  lemma BalancedBefore(states: seq<State>, steps: seq<Step>, i: nat)
    requires Run(states, steps) && i < |states| && (states[i].sLife.Up? || states[i].sLife.Down?)
    ensures Balanced(states[i])
  {
    RunInv(states, steps, i);
    BalanceExact(states[i]);
  }

  /** While an object is back in its slot uncounted, the counts are those of all other holders. */
  lemma HauntedCounts(st: State)
    requires Inv(st) && st.haunted
    ensures st.book.cnt == Holders(st.book) && st.book.over == multiset{}
  {
    HauntedFull(st);
    assert SlotDue(st.sender) == multiset{};
    assert RootDue(st.receiver) == multiset{} && SlotLeft(st.receiver) == multiset{};
    forall o ensures st.book.cnt[o] == Holders(st.book)[o] {
      assert (st.book.cnt + st.book.over + Uncounted(st))[o] == Due(st)[o];
    }
  }

  /** The sweep visits the slot that was filled again. */
  ghost predicate Finds(st: State, a: Step) {
    && st.haunted && st.sNote.SlotNote?
    && var inside := st.attached && InWindow(st.start, st.end, |st.buffer|, st.sNote.slot);
       (a == M(SweepS) && !inside) || (a == M(SweepR) && inside)
  }

  /** The receiver's newest record, which is replayed, names that slot. */
  ghost predicate Cures(st: State, a: Step) {
    && a == M(ReplayR) && st.haunted && st.sNote.SlotNote?
    && st.rNote.SlotNote? && st.rNote.done && st.rNote.slot == st.sNote.slot
  }

  /** When one slot is full, visits empty it if and only if they reach it and its object has a count. */
  lemma SweepTakes(r: Counts, from: nat, n: nat, h: nat)
    requires from < |r.buffer| && n <= |r.buffer| && h < |r.buffer| && r.buffer[h] != 0
    requires NonNull(r.buffer) == multiset{r.buffer[h]}
    ensures Visits(r, from, n).buffer[h] == 0 <==> Off(from, h, |r.buffer|) < n && r.cnt[r.buffer[h]] > 0
  {
    var out := Visits(r, from, n);
    VisitsDo(r, from, n);
    var o := r.buffer[h];
    assert (out.cnt + NonNull(r.buffer))[o] == (r.cnt + NonNull(out.buffer))[o];
    if out.buffer[h] != 0 {
      NonNullAt(out.buffer, h);
    } else if o in NonNull(out.buffer) {
      FullSlot(out.buffer, o);
      var x :| 0 <= x < |out.buffer| && out.buffer[x] == o;
      TwoSlots(r.buffer, x, h);
      assert false;
    }
  }

  lemma FullSlot(buffer: seq<Obj>, o: Obj)
    requires o in NonNull(buffer)
    ensures exists x :: 0 <= x < |buffer| && buffer[x] == o
  {
    assert o in buffer;
  }

  lemma SweepSExact(st: State)
    requires Inv(st) && EnabledM(st, SweepS)
    ensures var st' := DoSweepS(st);
            if Finds(st, M(SweepS)) && st.sNote.o in Holders(st.book) then
              !st'.haunted && st'.book.over == multiset{st.sNote.o}
            else st'.haunted == st.haunted && st'.book.over == st.book.over
  {
    if st.haunted {
      HauntedFull(st);
      HauntedCounts(st);
      OutsideIs(st.start, st.end, |st.buffer|, st.sNote.slot);
      var n := if st.attached then Stop(st.start, st.end, |st.buffer|) else |st.buffer|;
      SweepTakes(Counts(st.buffer, st.book.cnt), st.end, n, st.sNote.slot);
    }
  }

  lemma SweepRExact(st: State)
    requires Inv(st) && EnabledM(st, SweepR)
    ensures var st' := DoSweepR(st);
            if Finds(st, M(SweepR)) && st.sNote.o in Holders(st.book) then
              !st'.haunted && st'.book.over == multiset{st.sNote.o}
            else st'.haunted == st.haunted && st'.book.over == st.book.over
  {
    if st.haunted && st.attached {
      HauntedFull(st);
      HauntedCounts(st);
      SweepTakes(Counts(st.buffer, st.book.cnt), st.start, Off(st.start, st.end, |st.buffer|), st.sNote.slot);
    }
  }

  // ----- how an object comes back, and what becomes of it

  /** A slot is filled again exactly by a replay of the sender's completed link that finds its
      slot without the object. */
  lemma HauntBegins(states: seq<State>, steps: seq<Step>, i: nat)
    requires Run(states, steps) && i < |steps| && !states[i].haunted
    ensures states[i + 1].haunted <==> steps[i] == M(ReplayS) && Stale(states[i])
  {
    RunInv(states, steps, i);
    StepHaunts(states[i], steps[i]);
  }

  lemma StepHaunts(st: State, a: Step)
    requires Inv(st) && Enabled(st, a)
    ensures !st.haunted ==> (Apply(st, a).haunted <==> a == M(ReplayS) && Stale(st))
    ensures st.haunted && !Finds(st, a) ==> (Apply(st, a).haunted <==> !Cures(st, a))
    ensures st.haunted && Finds(st, a) ==> (Apply(st, a).haunted <==> st.sNote.o !in Holders(st.book))
  {
    match a
    case S(s) => SenderHaunts(st, s);
    case R(r) => ReceiverHaunts(st, r);
    case M(m) => MonitorHaunts(st, m);
    case H(h) =>
  }

  lemma SenderHaunts(st: State, a: SStep)
    requires HauntOk(st) && EnabledS(st, a)
    ensures !st.haunted && !ApplyS(st, a).haunted
  {
  }

  lemma ReceiverHaunts(st: State, a: RStep)
    requires EnabledR(st, a)
    ensures ApplyR(st, a).haunted == st.haunted && ApplyR(st, a).book.over <= st.book.over
  {
  }

  lemma MonitorHaunts(st: State, a: MStep)
    requires Inv(st) && EnabledM(st, a)
    ensures !st.haunted ==> (ApplyM(st, a).haunted <==> a == ReplayS && Stale(st))
    ensures st.haunted && !Finds(st, M(a)) ==> (ApplyM(st, a).haunted <==> !Cures(st, M(a)))
    ensures st.haunted && Finds(st, M(a)) ==> (ApplyM(st, a).haunted <==> st.sNote.o !in Holders(st.book))
  {
    match a
    case SweepS => SweepSHaunts(st);
    case SweepR => SweepRHaunts(st);
    case ReplayS => ReplaySMarks(st);
    case ReplayR => ReplayRMarks(st);
    case _ =>
  }

  lemma SweepSHaunts(st: State)
    requires Inv(st) && EnabledM(st, SweepS)
    ensures !st.haunted ==> !DoSweepS(st).haunted
    ensures st.haunted && !Finds(st, M(SweepS)) ==> DoSweepS(st).haunted
    ensures st.haunted && Finds(st, M(SweepS)) ==> (DoSweepS(st).haunted <==> st.sNote.o !in Holders(st.book))
  {
    SweepSExact(st);
  }

  lemma SweepRHaunts(st: State)
    requires Inv(st) && EnabledM(st, SweepR)
    ensures !st.haunted ==> !DoSweepR(st).haunted
    ensures st.haunted && !Finds(st, M(SweepR)) ==> DoSweepR(st).haunted
    ensures st.haunted && Finds(st, M(SweepR)) ==> (DoSweepR(st).haunted <==> st.sNote.o !in Holders(st.book))
  {
    SweepRExact(st);
  }

  lemma ReplaySMarks(st: State)
    requires st.sNote.SlotNote? ==> st.sNote.slot < |st.buffer|
    ensures DoReplayS(st).book == st.book && (!st.haunted ==> (DoReplayS(st).haunted <==> Stale(st)))
  {
  }

  lemma ReplayRMarks(st: State)
    requires st.rNote.SlotNote? ==> st.rNote.slot < |st.buffer|
    ensures DoReplayR(st).book.over == st.book.over && (!st.haunted ==> !DoReplayR(st).haunted)
    ensures st.haunted && st.sNote.SlotNote? ==> (DoReplayR(st).haunted <==> !Cures(st, M(ReplayR)))
  {
  }

  /** A count is given back although its holder is still there in one case only: a sweep visits
      the slot filled again while somebody else still holds its object. */
  lemma OverBegins(states: seq<State>, steps: seq<Step>, i: nat)
    requires Run(states, steps) && i < |steps|
    ensures var st, st' := states[i], states[i + 1];
            if Finds(st, steps[i]) && st.sNote.o in Holders(st.book) then
              st.book.over == multiset{} && st'.book.over == multiset{st.sNote.o}
            else st'.book.over <= st.book.over
  {
    RunInv(states, steps, i);
    StepOvers(states[i], steps[i]);
  }

  lemma StepOvers(st: State, a: Step)
    requires Inv(st) && Enabled(st, a)
    ensures if Finds(st, a) && st.sNote.o in Holders(st.book) then
              st.book.over == multiset{} && Apply(st, a).book.over == multiset{st.sNote.o}
            else Apply(st, a).book.over <= st.book.over
  {
    match a
    case S(s) => SenderOvers(st, s);
    case R(r) => ReceiverHaunts(st, r);
    case M(m) => MonitorOvers(st, m);
    case H(h) => BookedHolds(st, h);
  }

  lemma SenderOvers(st: State, a: SStep)
    requires EnabledS(st, a)
    ensures ApplyS(st, a).book.over == st.book.over
  {
  }

  lemma MonitorOvers(st: State, a: MStep)
    requires Inv(st) && EnabledM(st, a)
    ensures if Finds(st, M(a)) && st.sNote.o in Holders(st.book) then
              st.book.over == multiset{} && ApplyM(st, a).book.over == multiset{st.sNote.o}
            else ApplyM(st, a).book.over <= st.book.over
  {
    match a
    case SweepS => SweepSExact(st);
    case SweepR => SweepRExact(st);
    case ReplayS => ReplaySMarks(st);
    case ReplayR => ReplayRMarks(st);
    case _ =>
  }

  /** The step that ends it: a sweep that finds the slot while somebody holds the object, or the
      receiver's replay. */
  ghost predicate Ends(st: State, a: Step) {
    Cures(st, a) || (Finds(st, a) && st.sNote.o in Holders(st.book))
  }

  ghost predicate EndsAt(states: seq<State>, steps: seq<Step>, l: nat)
    requires l < |states| && l < |steps|
  {
    Ends(states[l], steps[l])
  }

  ghost predicate Refills(states: seq<State>, steps: seq<Step>, j: nat)
    requires j < |states| && j < |steps|
  {
    steps[j] == M(ReplayS) && Stale(states[j])
  }

  /** Over a whole run: a slot is full with an object nobody counts if and only if a stale replay
      has filled it and nothing has ended that. */
  lemma {:induction false} HauntedExact(states: seq<State>, steps: seq<Step>, n: nat)
    requires Run(states, steps) && n < |states|
    ensures states[n].haunted <==> RefilledBy(states, steps, n)
    decreases n
  {
    if n > 0 {
      HauntedExact(states, steps, n - 1);
      HauntedStep(states, steps, n - 1);
      HauntedNext(states, steps, n - 1);
    }
  }

  /** Some step before the n-th state refilled a slot, and none since then ended that. */
  ghost predicate RefilledBy(states: seq<State>, steps: seq<Step>, n: nat)
    requires n < |states| == |steps| + 1
  {
    exists j | 0 <= j < n :: Refills(states, steps, j) && forall l | j < l < n :: !EndsAt(states, steps, l)
  }

  lemma HauntedStep(states: seq<State>, steps: seq<Step>, n: nat)
    requires Run(states, steps) && n < |steps|
    ensures !states[n].haunted ==> (states[n + 1].haunted <==> Refills(states, steps, n))
    ensures states[n].haunted ==> (states[n + 1].haunted <==> !EndsAt(states, steps, n))
  {
    RunInv(states, steps, n);
    RunStep(states, steps, n);
    StepHaunts(states[n], steps[n]);
  }

  lemma RunStep(states: seq<State>, steps: seq<Step>, i: nat)
    requires Run(states, steps) && i < |steps|
    ensures Enabled(states[i], steps[i]) && states[i + 1] == Apply(states[i], steps[i])
  {
  }

  /** There is at most one replay of the sender, so none follows on a slot filled again. */
  lemma HauntedNext(states: seq<State>, steps: seq<Step>, n: nat)
    requires n < |steps| && |states| == |steps| + 1 && (states[n].haunted <==> RefilledBy(states, steps, n))
    requires !states[n].haunted ==> (states[n + 1].haunted <==> Refills(states, steps, n))
    requires states[n].haunted ==> (states[n + 1].haunted <==> !EndsAt(states, steps, n))
    ensures states[n + 1].haunted <==> RefilledBy(states, steps, n + 1)
  {
    if states[n + 1].haunted {
      if states[n].haunted {
        var j :| 0 <= j < n && Refills(states, steps, j) && forall l | j < l < n :: !EndsAt(states, steps, l);
        assert forall l | j < l < n + 1 :: !EndsAt(states, steps, l);
      } else {
        assert Refills(states, steps, n);
      }
    }
  }

  // ----- replays

  /** The sender's replay keeps the counts right if and only if its last recorded slot still
      holds its object at that moment, or the operation was not completed. */
  lemma SenderReplayExact(states: seq<State>, steps: seq<Step>, i: nat)
    requires Run(states, steps) && i < |steps| && steps[i] == M(ReplayS)
    ensures Balanced(states[i]) && (Balanced(states[i + 1]) <==> !Stale(states[i]))
  {
    RunInv(states, steps, i);
    RunInv(states, steps, i + 1);
    RunStep(states, steps, i);
    ReplaySExact(states[i], states[i + 1]);
  }

  lemma ReplaySExact(st: State, st': State)
    requires Inv(st) && EnabledM(st, ReplayS) && Inv(st') && st' == DoReplayS(st)
    ensures Balanced(st) && (Balanced(st') <==> !Stale(st))
  {
    BalanceExact(st);
    BalanceExact(st');
    ReplaySMarks(st);
  }

  /** The receiver's replay never does harm: the slot of its record is null by then, unless the
      sender's replay has put an object back there, which it takes away again. */
  lemma ReceiverReplaySafe(states: seq<State>, steps: seq<Step>, i: nat)
    requires Run(states, steps) && i < |steps| && steps[i] == M(ReplayR)
    ensures Balanced(states[i]) ==> Balanced(states[i + 1])
    ensures states[i + 1].book.over == states[i].book.over
  {
    RunInv(states, steps, i);
    RunInv(states, steps, i + 1);
    RunStep(states, steps, i);
    ReplayRSafe(states[i], states[i + 1]);
  }

  lemma ReplayRSafe(st: State, st': State)
    requires Inv(st) && EnabledM(st, ReplayR) && Inv(st') && st' == DoReplayR(st)
    ensures st'.book.over == st.book.over && (Balanced(st) ==> Balanced(st'))
  {
    BalanceExact(st);
    BalanceExact(st');
    ReplayRMarks(st);
  }

  // ----- when both sides have been recovered

  /** Main theorem: in every run, once both sides have been recovered, whenever each of them died,
      every slot is null if and only if no slot is left that a stale replay has filled, and then
      that slot alone is full; the counts are those of the other clients, but for a count given
      back while its holder is still there. */
  lemma EmptyInTheEnd(states: seq<State>, steps: seq<Step>, n: nat)
    requires Run(states, steps) && n < |states| && states[n].sLife.Gone? && states[n].rLife.Gone?
    ensures var st := states[n];
            && ((forall x | 0 <= x < |st.buffer| :: st.buffer[x] == 0) <==> !st.haunted)
            && (st.haunted ==> st.sNote.SlotNote? && NonNull(st.buffer) == multiset{st.sNote.o})
            && st.book.cnt + st.book.over == st.book.others
  {
    RunInv(states, steps, n);
    EmptyEnd(states[n]);
  }

  lemma EmptyEnd(st: State)
    requires Inv(st) && st.sLife.Gone? && st.rLife.Gone?
    ensures (forall x | 0 <= x < |st.buffer| :: st.buffer[x] == 0) <==> !st.haunted
    ensures st.haunted ==> st.sNote.SlotNote? && NonNull(st.buffer) == multiset{st.sNote.o}
    ensures st.book.cnt + st.book.over == st.book.others
  {
    if st.haunted {
      HauntedFull(st);
    } else {
      forall x | 0 <= x < |st.buffer| ensures st.buffer[x] == 0 {
        var k := if x >= st.start then x - st.start else x - st.start + MESSAGE_BUFFER_SIZE;
        assert At(st.start, k) == x && st.buffer[At(st.start, k)] == Held(st, k);
      }
      AllNull(st.buffer);
    }
    EndCounts(st);
  }

  lemma EndCounts(st: State)
    requires Accounted(st) && !st.receiver.Dropped? && !st.sender.Counted? && !st.receiver.Linked?
    requires st.book.sHeld == multiset{} && st.book.rHeld == multiset{}
    requires NonNull(st.buffer) == if st.haunted && st.sNote.SlotNote? then multiset{st.sNote.o} else multiset{}
    ensures st.book.cnt + st.book.over == st.book.others
  {
    forall o ensures (st.book.cnt + st.book.over)[o] == st.book.others[o] {
      assert (st.book.cnt + st.book.over + Uncounted(st))[o] == Due(st)[o];
    }
  }

  // ----- runs that get there

  const ZEROS: seq<Obj> := [0, 0, 0, 0, 0, 0, 0, 0, 0, 0, 0, 0, 0, 0, 0, 0]

  const EMPTY_BOOK := Book(multiset{}, multiset{}, multiset{}, multiset{}, multiset{})

  const START := State(0, 0, ZEROS, false, Resting, Idle, Up, Up, NoNote, NoNote, EMPTY_BOOK, [], [], 0, 0, false)

  ghost predicate Reachable(st: State) {
    exists states: seq<State>, steps: seq<Step> :: Run(states, steps) && states[|states| - 1] == st
  }

  lemma ReachableInv(st: State)
    requires Reachable(st)
    ensures Inv(st)
  {
    var states: seq<State>, steps: seq<Step> :| Run(states, steps) && states[|states| - 1] == st;
    RunInv(states, steps, |states| - 1);
  }

  lemma Begin() returns (st: State)
    ensures st == START && Reachable(st)
  {
    st := START;
    assert Run([st], []);
    assert [st][|[st]| - 1] == st;
  }

  lemma Go(st: State, a: Step) returns (st': State)
    requires Reachable(st) && Enabled(st, a)
    ensures st' == Apply(st, a) && Reachable(st')
  {
    st' := Apply(st, a);
    var states: seq<State>, steps: seq<Step> :| Run(states, steps) && states[|states| - 1] == st;
    var states', steps' := states + [st'], steps + [a];
    assert states'[|states'| - 1] == st';
    forall i | 0 <= i < |steps'|
      ensures Enabled(states'[i], steps'[i]) && states'[i + 1] == Apply(states'[i], steps'[i])
    {
      assert i < |steps| ==> states'[i + 1] == states[i + 1];
    }
    assert Run(states', steps');
  }

  /** n counts of o. */
  function Times(o: Obj, n: nat): multiset<Obj> {
    multiset{}[o := n]
  }

  lemma TimesMoves(o: Obj, n: nat)
    ensures Times(o, 0) == multiset{} && Times(o, 1) == multiset{o} && Times(o, n)[o] == n
    ensures Times(o, n) + multiset{o} == Times(o, n + 1)
    ensures Times(o, n + 1) - multiset{o} == Times(o, n)
  {
  }

  lemma AllTimes(o: Obj)
    ensures Times(o, 0) == multiset{} && Times(o, 1) == multiset{o}
    ensures forall n: nat {:trigger Times(o, n) + multiset{o}} :: Times(o, n) + multiset{o} == Times(o, n + 1)
    ensures forall n: nat {:trigger Times(o, n) - multiset{o}} :: n > 0 ==> Times(o, n) - multiset{o} == Times(o, n - 1)
    ensures forall n: nat {:trigger Times(o, n)} :: Times(o, n)[o] == n
  {
    forall n: nat
      ensures Times(o, n) + multiset{o} == Times(o, n + 1) && Times(o, n)[o] == n
      ensures n > 0 ==> Times(o, n) - multiset{o} == Times(o, n - 1)
    {
      TimesMoves(o, n);
      if n > 0 {
        TimesMoves(o, n - 1);
      }
    }
    TimesMoves(o, 0);
  }

  lemma HoldOne(o: Obj, shared: bool) returns (st: State)
    requires o != 0
    ensures Reachable(st)
    ensures st == START.(book := Book(Times(o, if shared then 2 else 1), Times(o, 1), Times(o, 0),
                                      Times(o, if shared then 1 else 0), multiset{}))
  {
    AllTimes(o);
    st := Begin();
    st := Go(st, H(HoldS(o)));
    if shared {
      st := Go(st, H(HoldO(o)));
    }
  }

  lemma OfferOne(o: Obj, shared: bool) returns (st: State)
    requires o != 0
    ensures Reachable(st)
    ensures st == START.(sender := Ready(o), sNote := SlotNote(0, o, false),
                         book := Book(Times(o, if shared then 2 else 1), Times(o, 1), Times(o, 0),
                                      Times(o, if shared then 1 else 0), multiset{}))
  {
    st := HoldOne(o, shared);
    st := Go(st, S(Offer(o)));
    st := Go(st, S(CheckNext));
    st := Go(st, S(CheckWrap));
    st := Go(st, S(LogPut));
  }

  /** The sender gets an object and sends it; other clients may hold it too. */
  lemma SendOne(o: Obj, shared: bool) returns (st: State)
    requires o != 0
    ensures Reachable(st)
    ensures st == START.(end := 1, buffer := ZEROS[0 := o], sNote := SlotNote(0, o, true), sent := [o],
                         book := Book(Times(o, if shared then 3 else 2), Times(o, 1), Times(o, 0),
                                      Times(o, if shared then 1 else 0), multiset{}))
  {
    st := OfferOne(o, shared);
    TimesMoves(o, if shared then 2 else 1);
    st := Go(st, S(LinkSlot));
    st := Go(st, S(StoreSlot));
    st := Go(st, S(MoveEnd));
  }

  lemma RootOne(o: Obj) returns (st: State)
    requires o != 0
    ensures Reachable(st)
    ensures st == START.(end := 1, buffer := ZEROS[0 := o], attached := true, receiver := Rooted(o),
                         sNote := SlotNote(0, o, true), rNote := RootNote(true), got := [o], sent := [o],
                         book := Book(Times(o, 3), Times(o, 1), Times(o, 1), Times(o, 0), multiset{}))
  {
    AllTimes(o);
    st := SendOne(o, false);
    st := Go(st, R(Look));
    st := Go(st, R(LogRoot));
    st := Go(st, R(LinkRoot));
    st := Go(st, R(StoreRoot));
  }

  lemma ClearOne(o: Obj) returns (st: State)
    requires o != 0
    ensures Reachable(st)
    ensures st == START.(end := 1, attached := true, receiver := Cleared(o), sNote := SlotNote(0, o, true),
                         rNote := SlotNote(0, o, true), got := [o], sent := [o],
                         book := Book(Times(o, 2), Times(o, 1), Times(o, 1), Times(o, 0), multiset{}))
  {
    AllTimes(o);
    st := RootOne(o);
    st := Go(st, R(LogDrop));
    st := Go(st, R(UnlinkSlot));
    st := Go(st, R(ClearSlot));
    assert ZEROS[0 := o][0 := 0] == ZEROS;
  }

  /** After the scan of the sender's only root. */
  lemma ScanOne(st: State, o: Obj) returns (st': State)
    requires Reachable(st) && st.sLife.Replayed? && o != 0 && st.book.sHeld == Times(o, 1)
    ensures Reachable(st') && EnabledM(st', SweepS)
    ensures st' == st.(book := st'.book)
    ensures st'.book.sHeld == multiset{} && st'.book.rHeld == st.book.rHeld && st'.book.others == st.book.others
    ensures st.book.over == multiset{} ==> st'.book.over == multiset{}
  {
    TimesMoves(o, 0);
    st' := Go(st, H(ScanS(o)));
    ReachableInRing(st');
  }

  lemma ReachableInRing(st: State)
    requires Reachable(st)
    ensures InRing(st)
  {
    ReachableInv(st);
  }

  /** The sender sends one object and rests, the receiver takes it, the sender dies: its replay
      puts the object back, and the sweep gives back the count of the receiver's root. */
  lemma StaleReplay(o: Obj) returns (st: State, swept: State)
    requires o != 0
    ensures Reachable(st) && Enabled(st, M(ReplayS)) && Stale(st)
    ensures Reachable(swept) && swept.sLife.Gone? && swept.rLife.Up?
    ensures swept.book.rHeld == multiset{o} && swept.book.cnt == multiset{}
  {
    AllTimes(o);
    st := ClearOne(o);
    st := Go(st, R(MoveStart));
    st := Go(st, M(CrashS));
    var st1 := Go(st, M(ReplayS));
    var st2 := ScanOne(st1, o);
    swept := Go(st2, M(SweepS));
    ReachableInv(st2);
    SweepSExact(st2);
    OnlyRoot(swept, o);
  }

  lemma OnlyRoot(st: State, o: Obj)
    requires Reachable(st) && !st.haunted && st.book.over == multiset{o} && st.receiver.Idle? && st.sender.Resting?
    requires st.book.sHeld == multiset{} && st.book.rHeld == multiset{o} && st.book.others == multiset{}
    ensures st.book.cnt == multiset{}
  {
    ReachableInv(st);
    forall x | 0 <= x < |st.buffer| ensures st.buffer[x] == 0 {
      OnlyHaunted(st, x);
    }
    AllNull(st.buffer);
    forall x ensures st.book.cnt[x] == 0 {
      assert (st.book.cnt + st.book.over + Uncounted(st))[x] == Due(st)[x];
    }
  }

  /** The sender dies while the receiver has emptied the slot but not moved on: the sweep leaves
      the slot out. The receiver goes on, does something else and dies: in the end the slot is
      full, with an object nobody holds. */
  lemma LeftFull(o: Obj) returns (st: State)
    requires o != 0
    ensures Reachable(st) && st.sLife.Gone? && st.rLife.Gone?
    ensures NonNull(st.buffer) == multiset{o} && st.book.cnt == multiset{}
  {
    AllTimes(o);
    st := ClearOne(o);
    st := Go(st, M(CrashS));
    st := Go(st, M(ReplayS));
    st := ScanOne(st, o);
    ReachableInv(st);
    SweepSExact(st);
    st := Go(st, M(SweepS));
    st := MoveAndDie(st, o);
    ReachableInv(st);
    EmptyEnd(st);
  }

  lemma MoveAndDie(st: State, o: Obj) returns (last: State)
    requires Reachable(st) && st.haunted && st.sLife.Gone? && st.rLife.Up? && st.receiver.Cleared?
    requires st.start == 0 && st.end == 1 && st.book.rHeld == Times(o, 1) && st.book.over == multiset{}
    requires st.sNote == SlotNote(0, o, true)
    ensures Reachable(last) && last.haunted && last.sLife.Gone? && last.rLife.Gone? && last.sNote == st.sNote
    ensures last.book.over == multiset{} && last.book.others == st.book.others
  {
    TimesMoves(o, 0);
    last := Go(st, R(MoveStart));
    last := Go(last, R(OtherR));
    last := Go(last, M(CrashR));
    last := Go(last, M(ReplayR));
    last := Go(last, H(ScanR(o)));
    ReachableInv(last);
    SweepRExact(last);
    last := Go(last, M(SweepR));
  }

  // ----- both sides crashed

  /** The root scan of one side, over all its roots: each gives back a count if there is one left. */
  function Scanned(b: Book, sender: bool): Book {
    var roots := if sender then b.sHeld else b.rHeld;
    b.(cnt := b.cnt - roots, over := b.over - (roots - b.cnt), sHeld := if sender then multiset{} else b.sHeld,
       rHeld := if sender then b.rHeld else multiset{})
  }

  lemma ScanSums(cnt: multiset<Obj>, over: multiset<Obj>, roots: multiset<Obj>, o: Obj)
    requires o in roots
    ensures var none := cnt[o] == 0;
            var cnt', over' := (if none then cnt else cnt - multiset{o}), (if none then over - multiset{o} else over);
            var roots' := roots - multiset{o};
            cnt' - roots' == cnt - roots && over' - (roots' - cnt') == over - (roots - cnt)
  {
    var none := cnt[o] == 0;
    var cnt', over' := (if none then cnt else cnt - multiset{o}), (if none then over - multiset{o} else over);
    var roots' := roots - multiset{o};
    forall x ensures (cnt' - roots')[x] == (cnt - roots)[x] {
    }
    forall x ensures (over' - (roots' - cnt'))[x] == (over - (roots - cnt))[x] {
      assert (roots' - cnt')[x] == if x == o && none then (roots - cnt)[x] - 1 else (roots - cnt)[x];
    }
  }

  lemma ScanNext(b: Book, o: Obj, sender: bool)
    requires o in if sender then b.sHeld else b.rHeld
    ensures Scanned(Booked(b, if sender then ScanS(o) else ScanR(o)), sender) == Scanned(b, sender)
  {
    if sender {
      ScanNextS(b, o);
    } else {
      ScanNextR(b, o);
    }
  }

  lemma ScanNextS(b: Book, o: Obj)
    requires o in b.sHeld
    ensures Scanned(Booked(b, ScanS(o)), true) == Scanned(b, true)
  {
    ScanSums(b.cnt, b.over, b.sHeld, o);
  }

  lemma ScanNextR(b: Book, o: Obj)
    requires o in b.rHeld
    ensures Scanned(Booked(b, ScanR(o)), false) == Scanned(b, false)
  {
    ScanSums(b.cnt, b.over, b.rHeld, o);
  }

  /** The scan of all roots is a sequence of steps. */
  lemma {:induction false} ScanReaches(st: State, sender: bool)
    requires Reachable(st) && if sender then st.sLife.Replayed? else st.rLife.Replayed?
    ensures Reachable(st.(book := Scanned(st.book, sender)))
    decreases |if sender then st.book.sHeld else st.book.rHeld|
  {
    var roots := if sender then st.book.sHeld else st.book.rHeld;
    if roots == multiset{} {
      assert st.book.cnt - roots == st.book.cnt && st.book.over - (roots - st.book.cnt) == st.book.over;
      assert Scanned(st.book, sender) == st.book;
    } else {
      var o :| o in roots;
      var a := if sender then ScanS(o) else ScanR(o);
      var st' := Go(st, H(a));
      ScanNext(st.book, o, sender);
      ScanReaches(st', sender);
      assert st'.(book := Scanned(st'.book, sender)) == st.(book := Scanned(st.book, sender));
    }
  }

  predicate NoteInRing(note: Note, buffer: seq<Obj>) {
    note.SlotNote? ==> note.slot < |buffer|
  }

  /** Replay, root scan and sweep of one side. */
  function RecoverS(st: State): (r: State)
    requires NoteInRing(st.sNote, st.buffer) && InRing(st)
    ensures InRing(r) && |r.buffer| == |st.buffer| && r.rNote == st.rNote
  {
    var mid := DoReplayS(st);
    DoSweepS(mid.(book := Scanned(mid.book, true)))
  }

  function RecoverR(st: State): (r: State)
    requires NoteInRing(st.rNote, st.buffer) && InRing(st)
    ensures InRing(r) && |r.buffer| == |st.buffer| && r.sNote == st.sNote
  {
    var mid := DoReplayR(st);
    DoSweepR(mid.(book := Scanned(mid.book, false)))
  }

  lemma NotesInRing(st: State)
    requires Inv(st)
    ensures InRing(st) && NoteInRing(st.sNote, st.buffer) && NoteInRing(st.rNote, st.buffer)
  {
  }

  /** What the recovery of the sender leaves alone. */
  predicate ReceiverSame(st: State, last: State) {
    && last.start == st.start && last.end == st.end && |last.buffer| == |st.buffer| && last.attached == st.attached
    && last.receiver == st.receiver && last.rLife == st.rLife && last.rNote == st.rNote && last.sNote == st.sNote
    && last.sent == st.sent && last.passed == st.passed && last.got == st.got
    && last.book.rHeld == st.book.rHeld && last.book.others == st.book.others
  }

  lemma ReplaySFields(st: State)
    requires NoteInRing(st.sNote, st.buffer) && InRing(st)
    ensures var mid := DoReplayS(st);
            && ReceiverSame(st, mid) && mid.sLife.Replayed? && mid.book == st.book && InRing(mid)
            && (!st.haunted ==> (mid.haunted <==> Stale(st)))
  {
  }

  lemma SweepSFields(st: State)
    requires InRing(st)
    ensures ReceiverSame(st, DoSweepS(st)) && DoSweepS(st).sLife.Gone?
    ensures DoSweepS(st).book.sHeld == st.book.sHeld
  {
  }

  /** The slot that the sender's record names lies in the window of an attached receiver. */
  predicate Inside(st: State) {
    st.sNote.SlotNote? && st.attached && InWindow(st.start, st.end, |st.buffer|, st.sNote.slot)
  }

  /** What the recovery of the sender does to an object put back, and to the counts. */
  ghost predicate SenderDone(st: State, last: State) {
    && ReceiverSame(st, last) && last.sLife.Gone? && |last.buffer| == |st.buffer|
    && var too := Stale(st) && !Inside(st) && st.sNote.o in st.book.rHeld + st.book.others;
       && (last.haunted <==> Stale(st) && !too)
       && last.book.over == if too then multiset{st.sNote.o} else multiset{}
  }

  /** The sender is recovered: a stale replay fills the slot again, and the sweep empties it,
      giving back a count too many, if it visits the slot and anybody but the sender holds the object. */
  lemma AfterS(st: State)
    requires Reachable(st) && st.sLife.Down?
    ensures InRing(st) && NoteInRing(st.sNote, st.buffer)
    ensures Reachable(RecoverS(st)) && SenderDone(st, RecoverS(st))
  {
    ReachableInv(st);
    NotesInRing(st);
    ReplaySFields(st);
    var mid := Go(st, M(ReplayS));
    ScanReaches(mid, true);
    var scanned := mid.(book := Scanned(mid.book, true));
    ReachableInv(scanned);
    SweepSFields(scanned);
    SweepSAfter(scanned);
    assert !st.haunted && st.book.over == multiset{};
    assert scanned.book.over == multiset{};
    var last := Go(scanned, M(SweepS));
  }

  lemma SweepSAfter(st: State)
    requires Inv(st) && EnabledM(st, SweepS)
    ensures var st' := DoSweepS(st);
            var too := st.haunted && !Inside(st) && st.sNote.SlotNote? && st.sNote.o in st.book.rHeld + st.book.others;
            && (st'.haunted <==> st.haunted && !too)
            && st'.book.over == if too then multiset{st.sNote.o} else st.book.over
  {
    SweepSExact(st);
    assert Holders(st.book) == st.book.rHeld + st.book.others;
  }

  /** What the recovery of the receiver leaves alone. */
  predicate SenderSame(st: State, last: State) {
    && last.sent == st.sent && last.passed == st.passed && last.start == st.start && last.end == st.end
    && last.sNote == st.sNote && last.sender == st.sender && last.sLife == st.sLife && |last.buffer| == |st.buffer|
    && last.book.sHeld == st.book.sHeld && last.book.others == st.book.others
  }

  lemma ReplayRFields(st: State)
    requires NoteInRing(st.rNote, st.buffer) && InRing(st)
    ensures var mid := DoReplayR(st);
            && SenderSame(st, mid) && mid.rLife.Replayed? && mid.attached == st.attached && mid.swept == st.swept
            && mid.book == st.book.(rHeld := st.book.rHeld + (if st.rNote.RootNote? then RootDue(st.receiver)
                                                              else multiset{}))
            && (st.receiver.Idle? && !st.rNote.RootNote? ==> mid.receiver.Idle?)
            && (st.haunted && st.sNote.SlotNote? ==> (mid.haunted <==> !Cures(st, M(ReplayR))))
            && (!st.haunted ==> !mid.haunted)
  {
  }

  lemma SweepRFields(st: State)
    requires InRing(st)
    ensures var last := DoSweepR(st);
            && SenderSame(st, last) && !last.attached && last.rLife.Gone? && last.receiver == st.receiver
            && last.swept == (if st.attached then |st.sent| else st.swept) && last.book.rHeld == st.book.rHeld
  {
  }

  /** An object put back lies in the window only until the receiver's replay. */
  lemma CuredInside(st: State)
    requires Inv(st) && st.haunted && Inside(st) && NoteInRing(st.rNote, st.buffer) && st.rLife.Down?
    ensures Cures(st, M(ReplayR))
  {
    HauntedFull(st);
    var x := st.sNote.slot;
    var k := if x >= st.start then x - st.start else x - st.start + MESSAGE_BUFFER_SIZE;
    assert At(st.start, k) == x;
    WindowAt(st, k);
  }

  lemma ScanLeaves(b: Book, sender: bool)
    ensures Scanned(b, sender).over <= b.over && Scanned(b, sender).others == b.others
    ensures Scanned(b, sender).sHeld == if sender then multiset{} else b.sHeld
    ensures Scanned(b, sender).rHeld == if sender then b.rHeld else multiset{}
  {
  }

  ghost predicate ReceiverDone(st: State, last: State) {
    && SenderSame(st, last) && last.rLife.Gone? && !last.attached
    && last.book.rHeld == multiset{} && last.swept == (if st.attached then |st.sent| else st.swept)
    && (st.receiver.Idle? && !st.rNote.RootNote? ==> last.receiver.Idle?)
    && (last.haunted <==> st.haunted && !Cures(st, M(ReplayR)))
    && last.book.over <= st.book.over && (!st.receiver.Linked? ==> last.book.over == Scanned(st.book, false).over)
  }

  /** The receiver's replay and root scan are done. */
  ghost predicate ReceiverScanned(st: State, mid: State) {
    && SenderSame(st, mid) && mid.rLife.Replayed? && mid.attached == st.attached && mid.swept == st.swept
    && mid.book.rHeld == multiset{} && (st.receiver.Idle? && !st.rNote.RootNote? ==> mid.receiver.Idle?)
    && (mid.haunted <==> st.haunted && !Cures(st, M(ReplayR))) && (mid.haunted ==> !Inside(mid))
    && mid.book.over <= st.book.over && (!st.receiver.Linked? ==> mid.book.over == Scanned(st.book, false).over)
  }

  lemma ScannedR(st: State, mid: State)
    requires Inv(st) && st.rLife.Down? && NoteInRing(st.rNote, st.buffer) && InRing(st) && mid == DoReplayR(st)
    ensures ReceiverScanned(st, mid.(book := Scanned(mid.book, false)))
  {
    ReplayRFields(st);
    if st.haunted && Inside(st) {
      CuredInside(st);
    }
    ScanLeaves(mid.book, false);
    assert !st.receiver.Linked? ==> mid.book == st.book.(rHeld := st.book.rHeld + multiset{}) == st.book;
  }

  lemma SweptR(st: State, mid: State)
    requires ReceiverScanned(st, mid) && Inv(mid) && EnabledM(mid, SweepR)
    ensures ReceiverDone(st, DoSweepR(mid))
  {
    SweepRExact(mid);
    SweepRFields(mid);
  }

  /** The receiver is recovered: its replay may clear the slot that was filled again, and its
      sweep does not find it. */
  lemma AfterR(st: State)
    requires Reachable(st) && st.rLife.Down?
    ensures InRing(st) && NoteInRing(st.rNote, st.buffer)
    ensures Reachable(RecoverR(st)) && ReceiverDone(st, RecoverR(st))
  {
    ReachableInv(st);
    NotesInRing(st);
    var mid := Go(st, M(ReplayR));
    ScannedR(st, mid);
    ScanReaches(mid, false);
    var scanned := mid.(book := Scanned(mid.book, false));
    ReachableInv(scanned);
    NotesInRing(scanned);
    SweptR(st, scanned);
    var last := Go(scanned, M(SweepR));
  }

  /** A slot without the object lies in the window only while the receiver has not moved its start. */
  lemma StaleInside(st: State)
    requires Inv(st) && Stale(st) && !st.haunted && st.rLife.Down? && st.sLife.Down?
    ensures Inside(st) <==> st.receiver.Cleared?
    ensures st.receiver.Cleared? ==> st.rNote.SlotNote? && st.rNote.done && st.rNote.slot == st.sNote.slot
    ensures !st.receiver.Linked? && !st.receiver.Dropped?
  {
    var k := if Len(st) == 0 then MESSAGE_BUFFER_SIZE - 1 else Len(st) - 1;
    StaleIsNull(st);
    LastSent(st, k);
    WindowAt(st, k);
    assert st.buffer[At(st.start, Len(st))] == Held(st, Len(st));
    assert st.buffer[At(st.start, k)] == Held(st, k);
  }

  /** The newest records of both sides name the same slot. */
  predicate SameSlot(st: State) {
    st.sNote.SlotNote? && st.rNote.SlotNote? && st.rNote.done && st.rNote.slot == st.sNote.slot
  }

  /** The sender's newest record is a completed link, and the receiver's sweep or the receiver itself
      takes the object out before the sender's replay. */
  predicate TakenBefore(st: State, senderFirst: bool) {
    && st.sNote.SlotNote?
    && if senderFirst then Stale(st) else Completed(st) && !st.sender.Stored? && st.attached
  }

  /** When a count is given back though other clients still hold the object. */
  predicate GivenTwice(st: State, senderFirst: bool) {
    TakenBefore(st, senderFirst) && st.sNote.o in st.book.others && !(senderFirst && st.receiver.Cleared?)
  }

  /** When the slot stays full: nobody but the sender, and when the sender is recovered first the
      receiver, held the object. */
  predicate StaysFull(st: State, senderFirst: bool) {
    && TakenBefore(st, senderFirst)
    && st.sNote.o !in st.book.others + (if senderFirst then st.book.rHeld else multiset{})
    && !(senderFirst && SameSlot(st))
  }

  lemma OverAfterScan(cnt: multiset<Obj>, rHeld: multiset<Obj>, others: multiset<Obj>, o: Obj)
    requires cnt + multiset{o} == rHeld + others
    ensures multiset{o} - (rHeld - cnt) == if o in others then multiset{o} else multiset{}
  {
    forall x ensures (multiset{o} - (rHeld - cnt))[x] == if x == o && o in others then 1 else 0 {
      assert (cnt + multiset{o})[x] == (rHeld + others)[x];
    }
  }

  lemma OverCounts(st: State, o: Obj)
    requires Inv(st) && st.book.over == multiset{o} && !st.haunted && st.sLife.Gone?
    requires !st.receiver.Linked? && !st.receiver.Dropped?
    ensures st.book.cnt + multiset{o} == st.book.rHeld + st.book.others
  {
    forall x | 0 <= x < |st.buffer| ensures st.buffer[x] == 0 {
      OnlyHaunted(st, x);
    }
    AllNull(st.buffer);
    forall x ensures (st.book.cnt + multiset{o})[x] == (st.book.rHeld + st.book.others)[x] {
      assert (st.book.cnt + st.book.over + Uncounted(st))[x] == Due(st)[x];
    }
  }

  /** The outcome of both recoveries. */
  ghost predicate Outcome(st: State, last: State, senderFirst: bool) {
    && last.sLife.Gone? && last.rLife.Gone? && last.book.others == st.book.others
    && (last.haunted <==> StaysFull(st, senderFirst))
    && last.book.over == if GivenTwice(st, senderFirst) then multiset{st.sNote.o} else multiset{}
  }

  lemma SenderThenReceiver(st: State, mid: State, last: State)
    requires Inv(st) && st.sLife.Down? && st.rLife.Down? && Inv(mid)
    requires SenderDone(st, mid) && ReceiverDone(mid, last)
    ensures Outcome(st, last, true)
  {
    if mid.book.over != multiset{} {
      OverCounts(mid, st.sNote.o);
      OverAfterScan(mid.book.cnt, mid.book.rHeld, mid.book.others, st.sNote.o);
    }
    if Stale(st) {
      StaleInside(st);
    }
  }

  /** The sender is recovered first. */
  lemma SenderFirst(st: State)
    requires Reachable(st) && st.sLife.Down? && st.rLife.Down?
    ensures InRing(st) && NoteInRing(st.sNote, st.buffer) && NoteInRing(st.rNote, st.buffer)
    ensures Reachable(RecoverR(RecoverS(st))) && Outcome(st, RecoverR(RecoverS(st)), true)
  {
    ReachableInv(st);
    NotesInRing(st);
    AfterS(st);
    var mid := RecoverS(st);
    ReachableInv(mid);
    AfterR(mid);
    SenderThenReceiver(st, mid, RecoverR(mid));
  }

  /** When the receiver is recovered first, its sweep has emptied the window, and the sender's
      replay is stale whenever the receiver was attached and the link completed. */
  lemma StaleAfterReceiver(st: State, last: State)
    requires Shapes(st) && !st.haunted && st.sLife.Down? && st.rLife.Down?
    requires Shapes(last) && !last.haunted && last.rLife.Gone? && last.sLife.Down?
    requires SenderSame(st, last)
    requires last.swept == (if st.attached then |st.sent| else st.swept) && (st.receiver.Idle? ==> last.receiver.Idle?)
    ensures Stale(last) <==> Completed(st) && !st.sender.Stored? && st.attached
  {
    var k := if Len(st) == 0 then MESSAGE_BUFFER_SIZE - 1 else Len(st) - 1;
    LastSent(last, k);
    assert last.buffer[At(last.start, k)] == Held(last, k);
    assert last.buffer[At(last.start, Len(last))] == Held(last, Len(last));
  }

  lemma ReceiverThenSender(st: State, mid: State, last: State)
    requires Inv(st) && st.sLife.Down? && st.rLife.Down? && Inv(mid)
    requires ReceiverDone(st, mid) && SenderDone(mid, last)
    ensures Outcome(st, last, false)
  {
    StaleAfterReceiver(st, mid);
    assert mid.book.rHeld + mid.book.others == st.book.others;
  }

  /** The receiver is recovered first. */
  lemma ReceiverFirst(st: State)
    requires Reachable(st) && st.sLife.Down? && st.rLife.Down?
    ensures InRing(st) && NoteInRing(st.sNote, st.buffer) && NoteInRing(st.rNote, st.buffer)
    ensures Reachable(RecoverS(RecoverR(st))) && Outcome(st, RecoverS(RecoverR(st)), false)
  {
    ReachableInv(st);
    NotesInRing(st);
    AfterR(st);
    var mid := RecoverR(st);
    ReachableInv(mid);
    AfterS(mid);
    ReceiverThenSender(st, mid, RecoverS(mid));
  }

  /** What both recoveries together make of a ring whose sides are both down. */
  function BothRecovered(st: State, senderFirst: bool): (r: State)
    requires InRing(st) && NoteInRing(st.sNote, st.buffer) && NoteInRing(st.rNote, st.buffer)
  {
    if senderFirst then RecoverR(RecoverS(st)) else RecoverS(RecoverR(st))
  }

  lemma BothReach(st: State, senderFirst: bool)
    requires Reachable(st) && st.sLife.Down? && st.rLife.Down?
    ensures InRing(st) && NoteInRing(st.sNote, st.buffer) && NoteInRing(st.rNote, st.buffer)
    ensures Reachable(BothRecovered(st, senderFirst)) && Outcome(st, BothRecovered(st, senderFirst), senderFirst)
  {
    if senderFirst {
      SenderFirst(st);
    } else {
      ReceiverFirst(st);
    }
  }

  /** The ring is empty unless `StaysFull`, and the counts are those of the other clients
      unless `GivenTwice`. */
  ghost predicate RightUnless(st: State, last: State, senderFirst: bool) {
    && ((forall x | 0 <= x < |last.buffer| :: last.buffer[x] == 0) <==> !StaysFull(st, senderFirst))
    && (last.book.cnt == st.book.others <==> !GivenTwice(st, senderFirst))
    && last.book.cnt + (if GivenTwice(st, senderFirst) then multiset{st.sNote.o} else multiset{}) == st.book.others
  }

  lemma OutcomeCounts(st: State, last: State, senderFirst: bool)
    requires Inv(last) && Outcome(st, last, senderFirst)
    ensures RightUnless(st, last, senderFirst)
  {
    EmptyEnd(last);
    if last.book.cnt == st.book.others {
      assert |last.book.cnt + last.book.over| == |last.book.cnt| + |last.book.over|;
    }
  }

  /** What the two recoveries leave, from any reachable crash of both sides. */
  lemma RecoveryExact(st: State, senderFirst: bool)
    requires Reachable(st) && st.sLife.Down? && st.rLife.Down?
    ensures InRing(st) && NoteInRing(st.sNote, st.buffer) && NoteInRing(st.rNote, st.buffer)
    ensures RightUnless(st, BothRecovered(st, senderFirst), senderFirst)
  {
    BothReach(st, senderFirst);
    ReachableInv(BothRecovered(st, senderFirst));
    OutcomeCounts(st, BothRecovered(st, senderFirst), senderFirst);
  }
}
