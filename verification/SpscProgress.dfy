/** Sending and receiving get through: what each does when the other side makes no step in
    between, how every offer ends under any interleaving, and that neither side is ever stuck. */
module SpscProgress {
  import opened RedoLog
  import opened SpscQueue
  import opened SpscSteps
  import opened SpscTheorems

  // ----- the test for a full ring

  /** The first half of the test refuses only a full ring, and both halves together exactly that,
      when the receiver does not move `start` in between. */
  lemma TestTells(st: State)
    requires IndicesOk(st) && EnabledS(st, CheckNext)
    ensures var st1 := ApplyS(st, CheckNext);
            && (st1.sender.Resting? ==> Len(st) == MESSAGE_BUFFER_SIZE - 1)
            && (st1.sender.HalfChecked? ==> EnabledS(st1, CheckWrap))
            && ((st1.sender.HalfChecked? && ApplyS(st1, CheckWrap).sender == Ready(st.sender.o))
                <==>
                Len(st) < MESSAGE_BUFFER_SIZE - 1)
  {
  }

  /** The second half is exact at the moment of its own read, whatever has happened since the first. */
  lemma WrapTells(st: State)
    requires IndicesOk(st) && EnabledS(st, CheckWrap)
    ensures ApplyS(st, CheckWrap).sender
         == if Len(st) == MESSAGE_BUFFER_SIZE - 1 then Resting else Ready(st.sender.o)
  {
  }

  /** The test for a full ring, as `sent_to` makes it, in spite of the wrap-around of both indices:
      undisturbed it lets the sender go on exactly when fewer than 15 objects are in flight. */
  lemma FullTest(states: seq<State>, steps: seq<Step>, i: nat)
    requires Run(states, steps) && i < |states| && EnabledS(states[i], CheckNext)
    ensures var st := states[i];
            var st1 := ApplyS(st, CheckNext);
            (st1.sender.HalfChecked? && ApplyS(st1, CheckWrap).sender == Ready(st.sender.o))
            <==>
            |st.sent| - st.passed < MESSAGE_BUFFER_SIZE - 1
  {
    RunInv(states, steps, i);
    TestTells(states[i]);
  }

  // ----- how an offer ends

  /** One step of anybody, seen from a sender at work. */
  ghost predicate SenderGoesOn(st: State, a: Step, st': State)
    requires !st.sender.Resting?
  {
    if !st'.sender.Resting? then st'.sender.o == st.sender.o && st'.sent == st.sent
    else if a == S(MoveEnd) then st'.sent == st.sent + [st.sender.o]
    else (a == S(CheckNext) || a == S(CheckWrap)) && st'.sent == st.sent && Len(st) == MESSAGE_BUFFER_SIZE - 1
  }

  lemma StepSends(st: State, a: Step)
    requires IndicesOk(st) && Enabled(st, a) && !st.sender.Resting?
    ensures SenderGoesOn(st, a, Apply(st, a))
  {
    match a
    case S(s) => SenderSends(st, s);
    case R(r) => ReceiverSendsNot(st, r);
    case M(m) =>
    case H(h) =>
  }

  lemma SenderSends(st: State, a: SStep)
    requires IndicesOk(st) && EnabledS(st, a) && !st.sender.Resting?
    ensures SenderGoesOn(st, S(a), ApplyS(st, a))
  {
    if a.CheckNext? {
      TestTells(st);
    } else if a.CheckWrap? {
      WrapTells(st);
    }
  }

  lemma ReceiverSendsNot(st: State, a: RStep)
    requires EnabledR(st, a)
    ensures ApplyR(st, a).sender == st.sender && ApplyR(st, a).sent == st.sent
  {
  }

  lemma {:induction false} StaysAtWork(states: seq<State>, steps: seq<Step>, i: nat, k: nat)
    requires Run(states, steps) && i <= k < |states|
    requires forall p | i <= p <= k :: !states[p].sender.Resting?
    ensures states[k].sender.o == states[i].sender.o && states[k].sent == states[i].sent
    decreases k
  {
    if i < k {
      StaysAtWork(states, steps, i, k - 1);
      RunInv(states, steps, k - 1);
      RunStep(states, steps, k - 1);
      StepSends(states[k - 1], steps[k - 1]);
    }
  }

  /** Main theorem: under any interleaving, when the sender is done with an offer the object has
      been sent, and nothing else, or the ring was full at one of the two reads of the test. */
  lemma OfferEnds(states: seq<State>, steps: seq<Step>, i: nat, k: nat, o: Obj)
    requires Run(states, steps) && i < k < |steps| && steps[i] == S(Offer(o))
    requires (forall p | i < p <= k :: !states[p].sender.Resting?) && states[k + 1].sender.Resting?
    ensures if steps[k] == S(MoveEnd) then states[k + 1].sent == states[i].sent + [o]
            else
              && (steps[k] == S(CheckNext) || steps[k] == S(CheckWrap)) && states[k + 1].sent == states[i].sent
              && |states[k].sent| - states[k].passed == MESSAGE_BUFFER_SIZE - 1
  {
    RunStep(states, steps, i);
    RunStep(states, steps, k);
    StaysAtWork(states, steps, i + 1, k);
    RunInv(states, steps, k);
    StepSends(states[k], steps[k]);
  }

  // ----- nobody is stuck

  /** The next step of a sender at work: the record is written once. */
  function NextOfSender(st: State): SStep
    requires !st.sender.Resting?
  {
    match st.sender
    case Offering(_) => CheckNext
    case HalfChecked(_) => CheckWrap
    case Ready(o) => if st.sNote == SlotNote(st.end, o, false) then LinkSlot else LogPut
    case Counted(_) => StoreSlot
    case Stored(_) => MoveEnd
  }

  function SenderLeft(st: State): nat {
    match st.sender
    case Resting => 0
    case Offering(_) => 6
    case HalfChecked(_) => 5
    case Ready(o) => if st.sNote == SlotNote(st.end, o, false) then 3 else 4
    case Counted(_) => 2
    case Stored(_) => 1
  }

  lemma SenderAdvances(st: State)
    requires IndicesOk(st) && st.sLife.Up? && !st.sender.Resting?
    ensures EnabledS(st, NextOfSender(st)) && SenderLeft(ApplyS(st, NextOfSender(st))) < SenderLeft(st)
  {
    assert st.end < |st.buffer|;
  }

  function NextOfReceiver(st: State): RStep
    requires !st.receiver.Idle?
  {
    match st.receiver
    case Seen(_) => if st.rNote == RootNote(false) then LinkRoot else LogRoot
    case Linked(_) => StoreRoot
    case Rooted(o) => if st.rNote == SlotNote(st.start, o, false) then UnlinkSlot else LogDrop
    case Dropped(_) => ClearSlot
    case Cleared(_) => MoveStart
  }

  function ReceiverLeft(st: State): nat {
    match st.receiver
    case Idle => 0
    case Seen(_) => if st.rNote == RootNote(false) then 6 else 7
    case Linked(_) => 5
    case Rooted(o) => if st.rNote == SlotNote(st.start, o, false) then 3 else 4
    case Dropped(_) => 2
    case Cleared(_) => 1
  }

  lemma ReceiverAdvances(st: State)
    requires IndicesOk(st) && st.rLife.Up? && !st.receiver.Idle?
    ensures EnabledR(st, NextOfReceiver(st)) && ReceiverLeft(ApplyR(st, NextOfReceiver(st))) < ReceiverLeft(st)
  {
  }

  // ----- undisturbed

  /** These steps, one after the other. */
  ghost predicate Plays(states: seq<State>, steps: seq<Step>) {
    && |states| == |steps| + 1
    && forall i {:trigger steps[i]} | 0 <= i < |steps| ::
        Enabled(states[i], steps[i]) && states[i + 1] == Apply(states[i], steps[i])
  }

  function Last(states: seq<State>): State
    requires |states| > 0
  {
    states[|states| - 1]
  }

  lemma PlaysThen(states: seq<State>, steps: seq<Step>, a: Step) returns (states': seq<State>, steps': seq<Step>)
    requires Plays(states, steps) && Enabled(Last(states), a)
    ensures steps' == steps + [a] && Plays(states', steps')
    ensures states'[0] == states[0] && Last(states') == Apply(Last(states), a)
  {
    states', steps' := states + [Apply(Last(states), a)], steps + [a];
  }

  /** What the sender has done: the object is in the slot at the end of the window, and counted there. */
  function Sent(st: State, o: Obj): State
    requires st.end < |st.buffer|
  {
    st.(end := (st.end + 1) % MESSAGE_BUFFER_SIZE, buffer := st.buffer[st.end := o], sent := st.sent + [o],
        sNote := SlotNote(st.end, o, true), book := Take(st.book, o))
  }

  /** `sent_to` undisturbed: with fewer than 15 objects in flight all its steps can be made in turn
      and the object is sent; otherwise it refuses and nothing has changed. */
  lemma SendAlone(st: State, o: Obj) returns (states: seq<State>, steps: seq<Step>)
    requires Inv(st) && EnabledS(st, Offer(o))
    ensures Plays(states, steps) && states[0] == st && st.end < |st.buffer|
    ensures steps != [] && steps[0] == S(Offer(o))
    ensures Last(states) == if Len(st) < MESSAGE_BUFFER_SIZE - 1 then Sent(st, o) else st
  {
    states, steps := [st], [];
    states, steps := PlaysThen(states, steps, S(Offer(o)));
    TestTells(Last(states));
    states, steps := PlaysThen(states, steps, S(CheckNext));
    if Last(states).sender.HalfChecked? {
      states, steps := PlaysThen(states, steps, S(CheckWrap));
      if Last(states).sender.Ready? {
        states, steps := PutAlone(st, o, states, steps);
      }
    }
  }

  /** From the test on. */
  lemma PutAlone(st: State, o: Obj, before: seq<State>, done: seq<Step>) returns (states: seq<State>, steps: seq<Step>)
    requires IndicesOk(st) && st.sLife.Up? && st.sender.Resting?
    requires Plays(before, done) && done != [] && Last(before) == st.(sender := Ready(o))
    ensures Plays(states, steps) && states[0] == before[0] && steps != [] && steps[0] == done[0]
    ensures st.end < |st.buffer| && Last(states) == Sent(st, o)
  {
    states, steps := before, done;
    states, steps := PlaysThen(states, steps, S(LogPut));
    states, steps := PlaysThen(states, steps, S(LinkSlot));
    states, steps := PlaysThen(states, steps, S(StoreSlot));
    states, steps := PlaysThen(states, steps, S(MoveEnd));
  }

  /** What the receiver has done: the oldest object in flight is in a root of its own, counted
      there, and no longer in the ring. */
  function Received(st: State): State
    requires st.start < |st.buffer|
  {
    var o := st.buffer[st.start];
    st.(attached := true, start := (st.start + 1) % MESSAGE_BUFFER_SIZE, buffer := st.buffer[st.start := 0],
        rNote := SlotNote(st.start, o, true), got := st.got + [o], passed := st.passed + 1,
        book := st.book.(rHeld := st.book.rHeld + multiset{o}))
  }

  /** `cxl_unwrap` undisturbed: it takes the oldest object if there is one that no sweep has
      released; otherwise it only attaches. */
  lemma ReceiveAlone(st: State) returns (states: seq<State>, steps: seq<Step>)
    requires Inv(st) && EnabledR(st, Look)
    ensures Plays(states, steps) && states[0] == st && steps != [] && steps[0] == R(Look)
    ensures var found := st.passed < |st.sent| && st.swept <= st.passed;
            && Last(states) == (if found then Received(st) else st.(attached := true))
            && (found ==> st.buffer[st.start] == st.sent[st.passed])
  {
    assert st.buffer[At(st.start, 0)] == Held(st, 0);
    states, steps := [st], [];
    states, steps := PlaysThen(states, steps, R(Look));
    if Last(states).receiver.Seen? {
      states, steps := TakeAlone(st, states, steps);
    }
  }

  lemma TakeAlone(st: State, before: seq<State>, done: seq<Step>) returns (states: seq<State>, steps: seq<Step>)
    requires IndicesOk(st) && EnabledR(st, Look) && Plays(before, done) && done != []
    requires Last(before) == st.(attached := true, receiver := Seen(st.buffer[st.start]))
    ensures Plays(states, steps) && states[0] == before[0] && steps != [] && steps[0] == done[0]
    ensures Last(states) == Received(st)
  {
    states, steps := RootAlone(st, before, done);
    states, steps := PlaysThen(states, steps, R(LogDrop));
    states, steps := PlaysThen(states, steps, R(UnlinkSlot));
    states, steps := PlaysThen(states, steps, R(ClearSlot));
    states, steps := PlaysThen(states, steps, R(MoveStart));
    GivesWhatItTook(st.book, st.buffer[st.start]);
  }

  /** Up to the root. */
  lemma RootAlone(st: State, before: seq<State>, done: seq<Step>) returns (states: seq<State>, steps: seq<Step>)
    requires IndicesOk(st) && EnabledR(st, Look) && Plays(before, done) && done != []
    requires Last(before) == st.(attached := true, receiver := Seen(st.buffer[st.start]))
    ensures Plays(states, steps) && states[0] == before[0] && steps != [] && steps[0] == done[0]
    ensures var o := st.buffer[st.start];
            Last(states) == st.(attached := true, receiver := Rooted(o), rNote := RootNote(true), got := st.got + [o],
                                book := Take(st.book, o).(rHeld := st.book.rHeld + multiset{o}))
  {
    states, steps := before, done;
    states, steps := PlaysThen(states, steps, R(LogRoot));
    states, steps := PlaysThen(states, steps, R(LinkRoot));
    states, steps := PlaysThen(states, steps, R(StoreRoot));
  }

  lemma GivesWhatItTook(b: Book, o: Obj)
    ensures var more := Take(b, o).(rHeld := b.rHeld + multiset{o});
            Give(more, o) == b.(rHeld := b.rHeld + multiset{o})
  {
    assert b.cnt + multiset{o} - multiset{o} == b.cnt;
  }

  // ----- what ends the danger of a stale replay

  /** Once the sender has written any other record, its crash and replay put nothing back. */
  lemma OtherRecordSaves(st: State)
    requires EnabledS(st, OtherS)
    ensures var st1 := ApplyS(st, OtherS);
            && EnabledM(st1, CrashS) && EnabledM(ApplyM(st1, CrashS), ReplayS)
            && var st2 := ApplyM(ApplyM(st1, CrashS), ReplayS);
               st2 == st.(sNote := NoNote, sLife := Replayed)
  {
  }
}
