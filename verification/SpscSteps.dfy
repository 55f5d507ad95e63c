/** Every step of the reference queue, of its two sides and of the monitor, keeps its invariant. */
module SpscSteps {
  import opened RedoLog
  import opened SpscQueue

  // ----- the sender's steps

  lemma SenderIndices(st: State, a: SStep)
    requires IndicesOk(st) && SenderNoteOk(st) && EnabledS(st, a)
    ensures IndicesOk(ApplyS(st, a)) && SenderNoteOk(ApplyS(st, a))
  {
  }

  lemma SenderOthers(st: State, a: SStep)
    requires Shapes(st) && EnabledS(st, a)
    ensures ReceiverNoteOk(ApplyS(st, a)) && ReceiverOk(ApplyS(st, a)) && HauntOk(ApplyS(st, a))
    ensures HoldsOk(ApplyS(st, a))
  {
  }

  lemma SenderAt(st: State, a: SStep, k: nat)
    requires IndicesOk(st) && ReceiverOk(st) && HauntOk(st) && SlotsOk(st) && EnabledS(st, a) && k < MESSAGE_BUFFER_SIZE
    ensures ApplyS(st, a).buffer[At(st.start, k)] == Held(ApplyS(st, a), k)
  {
    assert st.buffer[At(st.start, k)] == Held(st, k);
  }

  lemma SenderSlots(st: State, a: SStep)
    requires IndicesOk(st) && ReceiverOk(st) && HauntOk(st) && SlotsOk(st) && EnabledS(st, a)
    requires IndicesOk(ApplyS(st, a))
    ensures SlotsOk(ApplyS(st, a))
  {
    var st' := ApplyS(st, a);
    forall k: nat | k < MESSAGE_BUFFER_SIZE ensures st'.buffer[At(st'.start, k)] == Held(st', k) {
      SenderAt(st, a, k);
    }
  }

  lemma SenderShapes(st: State, a: SStep)
    requires Shapes(st) && EnabledS(st, a)
    ensures Shapes(ApplyS(st, a))
  {
    SenderIndices(st, a);
    SenderOthers(st, a);
    SenderSlots(st, a);
  }

  // ----- the receiver's steps

  lemma ReceiverIndices(st: State, a: RStep)
    requires IndicesOk(st) && ReceiverOk(st) && EnabledR(st, a)
    ensures IndicesOk(ApplyR(st, a))
  {
  }

  lemma ReceiverNotes(st: State, a: RStep)
    requires IndicesOk(st) && SenderNoteOk(st) && ReceiverNoteOk(st) && EnabledR(st, a)
    ensures SenderNoteOk(ApplyR(st, a)) && ReceiverNoteOk(ApplyR(st, a))
  {
  }

  lemma ReceiverStays(st: State, a: RStep)
    requires IndicesOk(st) && ReceiverOk(st) && HauntOk(st) && SlotsOk(st) && EnabledR(st, a)
    ensures ReceiverOk(ApplyR(st, a)) && HauntOk(ApplyR(st, a)) && (HoldsOk(st) ==> HoldsOk(ApplyR(st, a)))
  {
    if a.Look? {
      assert At(st.start, 0) == st.start;
      assert st.buffer[At(st.start, 0)] == Held(st, 0);
    }
  }

  /** The window moves by one. */
  lemma SlotsShift(st: State)
    requires IndicesOk(st) && ReceiverOk(st) && HauntOk(st) && SlotsOk(st) && EnabledR(st, MoveStart)
    ensures IndicesOk(ApplyR(st, MoveStart)) && SlotsOk(ApplyR(st, MoveStart))
  {
    var st' := ApplyR(st, MoveStart);
    forall k: nat | k < MESSAGE_BUFFER_SIZE ensures st'.buffer[At(st'.start, k)] == Held(st', k) {
      assert At(st'.start, k) == At(st.start, if k + 1 < MESSAGE_BUFFER_SIZE then k + 1 else 0);
    }
  }

  lemma ClearedSlots(st: State)
    requires IndicesOk(st) && ReceiverOk(st) && HauntOk(st) && SlotsOk(st) && st.receiver.Dropped? && !st.rLife.Gone?
    ensures IndicesOk(DoClearSlot(st)) && SlotsOk(DoClearSlot(st))
  {
    var st' := DoClearSlot(st);
    forall k: nat | k < MESSAGE_BUFFER_SIZE ensures st'.buffer[At(st'.start, k)] == Held(st', k) {
      assert st.buffer[At(st.start, k)] == Held(st, k);
    }
  }

  /** Nothing that the contents depend on changes. */
  ghost predicate SameRing(st: State, st': State) {
    && st'.buffer == st.buffer && st'.start == st.start && st'.end == st.end && st'.sent == st.sent
    && st'.passed == st.passed && st'.swept == st.swept && st'.haunted == st.haunted && st'.sNote == st.sNote
    && st'.sender == st.sender && st'.sLife.Gone? == st.sLife.Gone? && st'.receiver.Cleared? == st.receiver.Cleared?
  }

  lemma SameSlots(st: State, st': State)
    requires IndicesOk(st) && SlotsOk(st) && SameRing(st, st')
    ensures IndicesOk(st') && SlotsOk(st')
  {
    forall k: nat | k < MESSAGE_BUFFER_SIZE ensures st'.buffer[At(st'.start, k)] == Held(st', k) {
      assert st.buffer[At(st.start, k)] == Held(st, k) == Held(st', k);
    }
  }

  lemma ReceiverSameRing(st: State, a: RStep)
    requires EnabledR(st, a) && !a.ClearSlot? && !a.MoveStart?
    ensures SameRing(st, ApplyR(st, a))
  {
  }

  lemma ReceiverSlots(st: State, a: RStep)
    requires IndicesOk(st) && ReceiverOk(st) && HauntOk(st) && SlotsOk(st) && EnabledR(st, a)
    ensures IndicesOk(ApplyR(st, a)) && SlotsOk(ApplyR(st, a))
  {
    match a
    case MoveStart => SlotsShift(st);
    case ClearSlot => ClearedSlots(st);
    case _ =>
      ReceiverSameRing(st, a);
      SameSlots(st, ApplyR(st, a));
  }

  lemma ReceiverShapes(st: State, a: RStep)
    requires Shapes(st) && EnabledR(st, a)
    ensures Shapes(ApplyR(st, a))
  {
    ReceiverIndices(st, a);
    ReceiverNotes(st, a);
    ReceiverStays(st, a);
    ReceiverSlots(st, a);
  }

  // ----- the monitor's steps

  lemma ReplayIndices(st: State, a: MStep)
    requires IndicesOk(st) && SenderNoteOk(st) && EnabledM(st, a) && (a.ReplayS? || a.ReplayR?)
    ensures IndicesOk(ApplyM(st, a)) && SenderNoteOk(ApplyM(st, a))
  {
  }

  lemma MonitorIndices(st: State, a: MStep)
    requires IndicesOk(st) && SenderNoteOk(st) && EnabledM(st, a)
    ensures IndicesOk(ApplyM(st, a)) && SenderNoteOk(ApplyM(st, a))
  {
    if a.ReplayS? || a.ReplayR? {
      ReplayIndices(st, a);
    }
  }

  lemma ReplayNotes(st: State, a: MStep)
    requires IndicesOk(st) && ReceiverNoteOk(st) && ReceiverOk(st) && EnabledM(st, a) && (a.ReplayS? || a.ReplayR?)
    ensures ReceiverNoteOk(ApplyM(st, a)) && ReceiverOk(ApplyM(st, a))
  {
  }

  lemma MonitorNotes(st: State, a: MStep)
    requires IndicesOk(st) && ReceiverNoteOk(st) && ReceiverOk(st) && EnabledM(st, a)
    ensures ReceiverNoteOk(ApplyM(st, a)) && ReceiverOk(ApplyM(st, a))
  {
    if a.ReplayS? || a.ReplayR? {
      ReplayNotes(st, a);
    }
  }

  /** The first Len slots from the start on are the window. */
  lemma WindowAt(st: State, k: nat)
    requires IndicesOk(st) && k < MESSAGE_BUFFER_SIZE
    ensures InWindow(st.start, st.end, MESSAGE_BUFFER_SIZE, At(st.start, k)) <==> k < Len(st)
  {
  }

  /** Where the last object sent lies: in the last slot of the window, or just before an empty one. */
  lemma LastSent(st: State, k: nat)
    requires IndicesOk(st) && k < MESSAGE_BUFFER_SIZE
    ensures At(st.start, k) == Prev(st.end) <==> k == if Len(st) == 0 then MESSAGE_BUFFER_SIZE - 1 else Len(st) - 1
  {
  }

  /** The replay of a link in progress stores the object, as `StoreSlot` does. */
  lemma ReplaySStored(st: State, st': State, k: nat)
    requires IndicesOk(st) && SenderNoteOk(st) && HauntOk(st) && SlotsOk(st) && st.sender.Counted?
    requires EnabledM(st, ReplayS) && st' == DoReplayS(st) && k < MESSAGE_BUFFER_SIZE
    ensures st'.buffer[At(st.start, k)] == Held(st', k)
  {
    assert st.buffer[At(st.start, k)] == Held(st, k);
  }

  lemma ReplaySAt(st: State, st': State, k: nat)
    requires IndicesOk(st) && SenderNoteOk(st) && ReceiverOk(st) && HauntOk(st) && SlotsOk(st) && !st.sender.Counted?
    requires EnabledM(st, ReplayS) && st' == DoReplayS(st) && k < MESSAGE_BUFFER_SIZE
    ensures st'.buffer[At(st.start, k)] == Held(st', k)
  {
    LastSent(st, k);
    assert st.buffer[At(st.start, k)] == Held(st, k);
  }

  lemma ReplaySHaunt(st: State)
    requires IndicesOk(st) && SenderNoteOk(st) && ReceiverOk(st) && HauntOk(st) && SlotsOk(st) && EnabledM(st, ReplayS)
    ensures HauntOk(DoReplayS(st))
  {
    if DoReplayS(st).haunted {
      var k := if Len(st) == 0 then MESSAGE_BUFFER_SIZE - 1 else Len(st) - 1;
      LastSent(st, k);
      assert st.buffer[At(st.start, k)] == Held(st, k);
    }
  }

  lemma ReplaySSlots(st: State)
    requires Shapes(st) && EnabledM(st, ReplayS) && IndicesOk(DoReplayS(st))
    ensures HauntOk(DoReplayS(st)) && SlotsOk(DoReplayS(st))
  {
    ReplaySHaunt(st);
    var st' := DoReplayS(st);
    forall k: nat | k < MESSAGE_BUFFER_SIZE ensures st'.buffer[At(st'.start, k)] == Held(st', k) {
      if st.sender.Counted? {
        ReplaySStored(st, st', k);
      } else {
        ReplaySAt(st, st', k);
      }
    }
  }

  /** The receiver's record names a slot that should be null by now. */
  lemma ReplayRAt(st: State, k: nat)
    requires IndicesOk(st) && ReceiverNoteOk(st) && ReceiverOk(st) && SlotsOk(st) && HauntOk(st)
    requires st.rNote.SlotNote? && st.rNote.done && st.rNote.slot < |st.buffer| && k < MESSAGE_BUFFER_SIZE
    ensures DoReplayR(st).buffer[At(st.start, k)] == Held(DoReplayR(st), k)
  {
    assert At(st.start, 0) == st.start && At(st.start, MESSAGE_BUFFER_SIZE - 1) == Prev(st.start);
    assert st.buffer[At(st.start, k)] == Held(st, k);
  }

  lemma ReplayRHaunt(st: State)
    requires IndicesOk(st) && ReceiverNoteOk(st) && HauntOk(st) && EnabledM(st, ReplayR)
    ensures HauntOk(DoReplayR(st))
  {
  }

  lemma ReplayRSlots(st: State)
    requires Shapes(st) && EnabledM(st, ReplayR) && IndicesOk(DoReplayR(st))
    ensures HauntOk(DoReplayR(st)) && SlotsOk(DoReplayR(st))
  {
    ReplayRHaunt(st);
    if st.rNote.SlotNote? && st.rNote.done {
      forall k: nat | k < MESSAGE_BUFFER_SIZE
        ensures DoReplayR(st).buffer[At(DoReplayR(st).start, k)] == Held(DoReplayR(st), k)
      {
        ReplayRAt(st, k);
      }
    } else {
      SameSlots(st, DoReplayR(st));
    }
  }

  // ----- the sweeps

  /** What a sweep does to any ring and any counts: slots not visited stay; of the others each
      is null or as it was, and then its object has no count left; what has gone from the slots
      has gone from the counts. */
  lemma VisitsDo(r: Counts, from: nat, n: nat)
    requires from < |r.buffer| && n <= |r.buffer|
    ensures Swept(r, Visits(r, from, n), from, n)
  {
    VisitsPay(r, from, n);
    EachToAll(r, Visits(r, from, n));
    VisitsSweep(r, from, n);
    SlotsToRing(r, Visits(r, from, n), from, n);
  }

  ghost predicate Swept(r: Counts, out: Counts, from: nat, n: nat) {
    && |out.buffer| == |r.buffer|
    && (forall x | 0 <= x < |r.buffer| && Off(from, x, |r.buffer|) >= n :: out.buffer[x] == r.buffer[x])
    && (forall x | 0 <= x < |r.buffer| :: out.buffer[x] == 0 || out.buffer[x] == r.buffer[x])
    && (forall x | 0 <= x < |r.buffer| && Off(from, x, |r.buffer|) < n && out.buffer[x] != 0 ::
          out.cnt[out.buffer[x]] == 0)
    && out.cnt + NonNull(r.buffer) == r.cnt + NonNull(out.buffer) && out.cnt <= r.cnt
  }

  /** The counts taken are those of the slots emptied. */
  predicate Paid(was: Counts, now: Counts) {
    now.cnt + NonNull(was.buffer) == was.cnt + NonNull(now.buffer)
  }

  /** Object by object. */
  ghost predicate PaidFor(was: Counts, now: Counts, o: Obj) {
    now.cnt[o] + NonNull(was.buffer)[o] == was.cnt[o] + NonNull(now.buffer)[o] && now.cnt[o] <= was.cnt[o]
  }

  ghost predicate PaidEach(was: Counts, now: Counts) {
    forall o {:trigger PaidFor(was, now, o)} :: PaidFor(was, now, o)
  }

  lemma EachToAll(was: Counts, now: Counts)
    requires PaidEach(was, now)
    ensures Paid(was, now) && now.cnt <= was.cnt
  {
    forall o
      ensures (now.cnt + NonNull(was.buffer))[o] == (was.cnt + NonNull(now.buffer))[o]
      ensures now.cnt[o] <= was.cnt[o]
    {
      assert PaidFor(was, now, o);
    }
  }

  lemma {:induction false} VisitsPay(r: Counts, from: nat, n: nat)
    requires from < |r.buffer| && n <= |r.buffer|
    ensures PaidEach(r, Visits(r, from, n))
    decreases n
  {
    if n == 0 {
      NothingPaid(r, from);
    } else {
      VisitsPay(r, from, n - 1);
      PaidNext(r, from, n);
    }
  }

  lemma NothingPaid(r: Counts, from: nat)
    requires from < |r.buffer|
    ensures PaidEach(r, Visits(r, from, 0))
  {
  }

  lemma PaidNext(r: Counts, from: nat, n: nat)
    requires from < |r.buffer| && 0 < n <= |r.buffer| && PaidEach(r, Visits(r, from, n - 1))
    ensures PaidEach(r, Visits(r, from, n))
  {
    var mid := Visits(r, from, n - 1);
    PaidVisit(r, mid, Place(from, n - 1, |r.buffer|));
  }

  lemma PaidVisit(r: Counts, mid: Counts, x: nat)
    requires PaidEach(r, mid) && x < |mid.buffer|
    ensures PaidEach(r, VisitSlot(mid, x))
  {
    var out := VisitSlot(mid, x);
    VisitDoes(mid, x);
    forall o ensures PaidFor(r, out, o) {
      assert PaidFor(r, mid, o);
      assert (out.cnt + NonNull(mid.buffer))[o] == (mid.cnt + NonNull(out.buffer))[o];
    }
  }

  /** The slots alone. */
  ghost predicate SlotSwept(r: Counts, out: Counts, from: nat, n: nat, x: nat)
    requires x < |r.buffer| == |out.buffer|
  {
    if Off(from, x, |r.buffer|) >= n then out.buffer[x] == r.buffer[x]
    else out.buffer[x] == 0 || (out.buffer[x] == r.buffer[x] && out.cnt[out.buffer[x]] == 0)
  }

  ghost predicate SlotsSwept(r: Counts, out: Counts, from: nat, n: nat) {
    && |out.buffer| == |r.buffer|
    && forall x {:trigger SlotSwept(r, out, from, n, x)} | 0 <= x < |r.buffer| :: SlotSwept(r, out, from, n, x)
  }

  lemma SlotsToRing(r: Counts, out: Counts, from: nat, n: nat)
    requires SlotsSwept(r, out, from, n) && Paid(r, out) && out.cnt <= r.cnt
    ensures Swept(r, out, from, n)
  {
    forall x | 0 <= x < |r.buffer|
      ensures if Off(from, x, |r.buffer|) >= n then out.buffer[x] == r.buffer[x]
              else out.buffer[x] == 0 || (out.buffer[x] == r.buffer[x] && out.cnt[out.buffer[x]] == 0)
    {
      assert SlotSwept(r, out, from, n, x);
    }
  }

  lemma {:induction false} VisitsSweep(r: Counts, from: nat, n: nat)
    requires from < |r.buffer| && n <= |r.buffer|
    ensures SlotsSwept(r, Visits(r, from, n), from, n)
    decreases n
  {
    if n == 0 {
      NothingSwept(r, from);
    } else {
      VisitsSweep(r, from, n - 1);
      SweptNext(r, from, n);
    }
  }

  lemma NothingSwept(r: Counts, from: nat)
    requires from < |r.buffer|
    ensures SlotsSwept(r, Visits(r, from, 0), from, 0)
  {
  }

  lemma SweptNext(r: Counts, from: nat, n: nat)
    requires from < |r.buffer| && 0 < n <= |r.buffer| && SlotsSwept(r, Visits(r, from, n - 1), from, n - 1)
    ensures SlotsSwept(r, Visits(r, from, n), from, n)
  {
    var mid := Visits(r, from, n - 1);
    var out := VisitSlot(mid, Place(from, n - 1, |r.buffer|));
    forall y | 0 <= y < |r.buffer| ensures SlotSwept(r, out, from, n, y) {
      assert SlotSwept(r, mid, from, n - 1, y);
      assert Off(from, y, |r.buffer|) == n - 1 <==> y == Place(from, n - 1, |r.buffer|);
    }
  }

  lemma VisitDoes(r: Counts, x: nat)
    requires x < |r.buffer|
    ensures var out := VisitSlot(r, x);
            && out.cnt + NonNull(r.buffer) == r.cnt + NonNull(out.buffer) && out.cnt <= r.cnt
            && (out.buffer[x] != 0 ==> out.cnt[out.buffer[x]] == 0)
  {
    if r.buffer[x] != 0 && r.cnt[r.buffer[x]] != 0 {
      NonNullCleared(r.buffer, x);
    }
  }

  lemma SumsTwice(a: Counts, b: Counts, c: Counts)
    requires b.cnt + NonNull(a.buffer) == a.cnt + NonNull(b.buffer)
    requires c.cnt + NonNull(b.buffer) == b.cnt + NonNull(c.buffer)
    ensures c.cnt + NonNull(a.buffer) == a.cnt + NonNull(c.buffer)
  {
    forall o ensures (c.cnt + NonNull(a.buffer))[o] == (a.cnt + NonNull(c.buffer))[o] {
      assert (b.cnt + NonNull(a.buffer))[o] == (a.cnt + NonNull(b.buffer))[o];
      assert (c.cnt + NonNull(b.buffer))[o] == (b.cnt + NonNull(c.buffer))[o];
    }
  }

  lemma NonNullAt(buffer: seq<Obj>, x: nat)
    requires x < |buffer| && buffer[x] != 0
    ensures NonNull(buffer)[buffer[x]] >= 1
  {
    NonNullCleared(buffer, x);
  }

  lemma TwoSlots(buffer: seq<Obj>, x: nat, y: nat)
    requires x < |buffer| && y < |buffer| && x != y && buffer[x] == buffer[y] != 0
    ensures NonNull(buffer)[buffer[x]] >= 2
  {
    NonNullCleared(buffer, x);
    NonNullAt(buffer[x := 0], y);
  }

  lemma AllNull(buffer: seq<Obj>)
    requires forall x | 0 <= x < |buffer| :: buffer[x] == 0
    ensures NonNull(buffer) == multiset{}
  {
    assert forall o | o in NonNull(buffer) :: o in buffer;
  }

  lemma OnlyOne(buffer: seq<Obj>, h: nat)
    requires h < |buffer| && buffer[h] != 0 && forall x | 0 <= x < |buffer| && x != h :: buffer[x] == 0
    ensures NonNull(buffer) == multiset{buffer[h]}
  {
    NonNullCleared(buffer, h);
    AllNull(buffer[h := 0]);
  }

  /** Once an object was put back, no other slot is full any more. */
  lemma OnlyHaunted(st: State, x: nat)
    requires IndicesOk(st) && SenderNoteOk(st) && HauntOk(st) && SlotsOk(st) && ReceiverOk(st)
    requires (st.haunted || st.book.over != multiset{}) && x < |st.buffer|
    ensures st.buffer[x] != 0 ==> st.haunted && x == st.sNote.slot && st.buffer[x] == st.sNote.o
  {
    var k := if x >= st.start then x - st.start else x - st.start + MESSAGE_BUFFER_SIZE;
    assert At(st.start, k) == x;
    assert st.buffer[At(st.start, k)] == Held(st, k);
  }

  lemma HauntedFull(st: State)
    requires IndicesOk(st) && SenderNoteOk(st) && HauntOk(st) && SlotsOk(st) && ReceiverOk(st) && st.haunted
    ensures st.sNote.SlotNote? && st.sNote.slot < |st.buffer| && st.buffer[st.sNote.slot] == st.sNote.o != 0
    ensures NonNull(st.buffer) == multiset{st.sNote.o}
  {
    var x := st.sNote.slot;
    var k := if x >= st.start then x - st.start else x - st.start + MESSAGE_BUFFER_SIZE;
    assert At(st.start, k) == x;
    assert st.buffer[At(st.start, k)] == Held(st, k);
    forall y | 0 <= y < |st.buffer| && y != x ensures st.buffer[y] == 0 {
      OnlyHaunted(st, y);
    }
    OnlyOne(st.buffer, x);
  }

  /** The slot about to be cleared holds the object the receiver has. */
  lemma StartIsHeld(st: State)
    requires IndicesOk(st) && HauntOk(st) && SlotsOk(st) && ReceiverOk(st) && ReceiverNoteOk(st)
    requires st.receiver.Dropped? || (st.receiver.Rooted? && st.rLife.Up?)
    ensures st.start < |st.buffer| && st.buffer[st.start] == st.receiver.o != 0 && !st.haunted
    ensures st.book.over == multiset{}
  {
    assert st.buffer[At(st.start, 0)] == Held(st, 0);
  }

  /** A visited slot that is still full can only be the one put back, with an object that
      nobody holds. */
  lemma StillFull(st: State, from: nat, n: nat, x: nat)
    requires Shapes(st) && Accounted(st) && from < |st.buffer| && n <= |st.buffer| && x < |st.buffer|
    requires st.receiver.Dropped? ==> Off(from, st.start, |st.buffer|) >= n
    requires Off(from, x, |st.buffer|) < n && Visits(Counts(st.buffer, st.book.cnt), from, n).buffer[x] != 0
    ensures st.haunted && x == st.sNote.slot && st.book.cnt[st.sNote.o] == 0
  {
    var r := Counts(st.buffer, st.book.cnt);
    var out := Visits(r, from, n);
    VisitsDo(r, from, n);
    var o := st.buffer[x];
    NonNullAt(out.buffer, x);
    assert (out.cnt + NonNull(r.buffer))[o] == (r.cnt + NonNull(out.buffer))[o];
    if st.haunted || st.book.over != multiset{} {
      OnlyHaunted(st, x);
      HauntedFull(st);
    } else {
      assert (st.book.cnt + st.book.over + Uncounted(st))[o] == Due(st)[o];
      if st.receiver.Dropped? && st.receiver.o == o {
        StartIsHeld(st);
        TwoSlots(out.buffer, x, st.start);
      }
      assert false;
    }
  }

  /** Which slots a sweep must leave null: all it visits, but for the object put back when
      nobody holds it. */
  ghost predicate Cleaned(st: State, buffer: seq<Obj>, x: nat)
    requires x < |buffer|
  {
    buffer[x] == 0 || (st.haunted && st.sNote.SlotNote? && x == st.sNote.slot && st.book.cnt[st.sNote.o] == 0)
  }

  lemma OutsideCleaned(st: State)
    requires Shapes(st) && Accounted(st)
    ensures st.start < |st.buffer| && st.end < |st.buffer|
    ensures var out := SweepOutside(Counts(st.buffer, st.book.cnt), st.start, st.end, st.attached);
            forall x {:trigger out.buffer[x]} | 0 <= x < |st.buffer| ::
              if st.attached && InWindow(st.start, st.end, |st.buffer|, x) then out.buffer[x] == st.buffer[x]
              else Cleaned(st, out.buffer, x) && (out.buffer[x] == 0 || out.buffer[x] == st.buffer[x])
  {
    var n := if st.attached then Stop(st.start, st.end, |st.buffer|) else |st.buffer|;
    var r := Counts(st.buffer, st.book.cnt);
    var out := Visits(r, st.end, n);
    VisitsDo(r, st.end, n);
    forall x | 0 <= x < |st.buffer|
      ensures if st.attached && InWindow(st.start, st.end, |st.buffer|, x) then out.buffer[x] == st.buffer[x]
              else Cleaned(st, out.buffer, x) && (out.buffer[x] == 0 || out.buffer[x] == st.buffer[x])
    {
      OutsideIs(st.start, st.end, |st.buffer|, x);
      if !(st.attached && InWindow(st.start, st.end, |st.buffer|, x)) && out.buffer[x] != 0 {
        StillFull(st, st.end, n, x);
      }
    }
  }

  lemma OutsideIs(start: nat, end: nat, size: nat, x: nat)
    requires start < size && end < size && x < size
    ensures Off(end, x, size) < Stop(start, end, size) <==> !InWindow(start, end, size, x)
    ensures 0 <= Off(end, x, size) < size && 0 < Stop(start, end, size) <= size
  {
  }

  lemma WindowCleaned(st: State)
    requires Shapes(st) && Accounted(st) && !st.receiver.Dropped?
    ensures st.start < |st.buffer| && st.end < |st.buffer|
    ensures var out := SweepWindow(Counts(st.buffer, st.book.cnt), st.start, st.end);
            forall x {:trigger out.buffer[x]} | 0 <= x < |st.buffer| ::
              if InWindow(st.start, st.end, |st.buffer|, x) then
                Cleaned(st, out.buffer, x) && (out.buffer[x] == 0 || out.buffer[x] == st.buffer[x])
              else out.buffer[x] == st.buffer[x]
  {
    var n := Off(st.start, st.end, |st.buffer|);
    var r := Counts(st.buffer, st.book.cnt);
    var out := Visits(r, st.start, n);
    VisitsDo(r, st.start, n);
    forall x | 0 <= x < |st.buffer|
      ensures if InWindow(st.start, st.end, |st.buffer|, x) then
                Cleaned(st, out.buffer, x) && (out.buffer[x] == 0 || out.buffer[x] == st.buffer[x])
              else out.buffer[x] == st.buffer[x]
    {
      if InWindow(st.start, st.end, |st.buffer|, x) && out.buffer[x] != 0 {
        StillFull(st, st.start, n, x);
      }
    }
  }

  lemma SweepSAt(st: State, k: nat)
    requires Shapes(st) && Accounted(st) && EnabledM(st, SweepS) && k < MESSAGE_BUFFER_SIZE
    ensures DoSweepS(st).buffer[At(st.start, k)] == Held(DoSweepS(st), k)
  {
    OutsideCleaned(st);
    WindowAt(st, k);
    assert st.buffer[At(st.start, k)] == Held(st, k);
    assert DoSweepS(st).buffer == SweepOutside(Counts(st.buffer, st.book.cnt), st.start, st.end, st.attached).buffer;
  }

  lemma SweepSSlots(st: State)
    requires Shapes(st) && Accounted(st) && EnabledM(st, SweepS) && IndicesOk(DoSweepS(st))
    ensures HauntOk(DoSweepS(st)) && SlotsOk(DoSweepS(st))
  {
    var st' := DoSweepS(st);
    forall k: nat | k < MESSAGE_BUFFER_SIZE ensures st'.buffer[At(st'.start, k)] == Held(st', k) {
      SweepSAt(st, k);
    }
  }

  lemma SweepRAt(st: State, k: nat)
    requires Shapes(st) && Accounted(st) && EnabledM(st, SweepR) && st.attached && k < MESSAGE_BUFFER_SIZE
    ensures DoSweepR(st).buffer[At(st.start, k)] == Held(DoSweepR(st), k)
  {
    WindowCleaned(st);
    WindowAt(st, k);
    assert st.buffer[At(st.start, k)] == Held(st, k);
    assert DoSweepR(st).buffer == SweepWindow(Counts(st.buffer, st.book.cnt), st.start, st.end).buffer;
  }

  lemma SweepRSlots(st: State)
    requires Shapes(st) && Accounted(st) && EnabledM(st, SweepR) && IndicesOk(DoSweepR(st))
    ensures HauntOk(DoSweepR(st)) && SlotsOk(DoSweepR(st))
  {
    var st' := DoSweepR(st);
    forall k: nat | k < MESSAGE_BUFFER_SIZE ensures st'.buffer[At(st'.start, k)] == Held(st', k) {
      if st.attached {
        SweepRAt(st, k);
      } else {
        assert st.buffer[At(st.start, k)] == Held(st, k);
      }
    }
  }

  // ----- the monitor's steps together

  lemma MonitorHolds(st: State, a: MStep)
    requires HoldsOk(st) && ReceiverOk(st) && EnabledM(st, a)
    ensures HoldsOk(ApplyM(st, a))
  {
  }

  lemma CrashSlots(st: State, a: MStep)
    requires IndicesOk(st) && HauntOk(st) && SlotsOk(st) && EnabledM(st, a) && (a.CrashS? || a.CrashR?)
    ensures IndicesOk(ApplyM(st, a)) && HauntOk(ApplyM(st, a)) && SlotsOk(ApplyM(st, a))
  {
    SameSlots(st, ApplyM(st, a));
  }

  lemma MonitorSlots(st: State, a: MStep)
    requires Shapes(st) && Accounted(st) && EnabledM(st, a) && IndicesOk(ApplyM(st, a))
    ensures HauntOk(ApplyM(st, a)) && SlotsOk(ApplyM(st, a))
  {
    match a
    case ReplayS => ReplaySSlots(st);
    case SweepS => SweepSSlots(st);
    case ReplayR => ReplayRSlots(st);
    case SweepR => SweepRSlots(st);
    case _ => CrashSlots(st, a);
  }

  lemma MonitorShapes(st: State, a: MStep)
    requires Shapes(st) && Accounted(st) && EnabledM(st, a)
    ensures Shapes(ApplyM(st, a))
  {
    MonitorIndices(st, a);
    MonitorNotes(st, a);
    MonitorHolds(st, a);
    MonitorSlots(st, a);
  }

  // ----- holders come and go

  lemma BookedHolds(st: State, a: HStep)
    requires HoldsOk(st) && EnabledH(st, a)
    ensures HoldsOk(ApplyH(st, a)) && ApplyH(st, a).book.over <= st.book.over
  {
  }

  lemma HolderNotes(st: State, st': State, a: HStep)
    requires IndicesOk(st) && SenderNoteOk(st) && ReceiverNoteOk(st) && ReceiverOk(st) && EnabledH(st, a)
    requires st' == st.(book := st'.book, sNote := if a.DropS? then NoNote else st.sNote,
                        rNote := if a.DropR? then NoNote else st.rNote)
    ensures IndicesOk(st') && SenderNoteOk(st') && ReceiverNoteOk(st') && ReceiverOk(st')
  {
  }

  lemma HolderSlots(st: State, st': State, a: HStep)
    requires IndicesOk(st) && HauntOk(st) && SlotsOk(st) && EnabledH(st, a) && st'.book.over <= st.book.over
    requires st' == st.(book := st'.book, sNote := if a.DropS? then NoNote else st.sNote,
                        rNote := if a.DropR? then NoNote else st.rNote)
    ensures IndicesOk(st') && HauntOk(st') && SlotsOk(st')
  {
    forall k: nat | k < MESSAGE_BUFFER_SIZE ensures st'.buffer[At(st'.start, k)] == Held(st', k) {
      assert st.buffer[At(st.start, k)] == Held(st, k);
    }
  }

  lemma HolderShapes(st: State, a: HStep)
    requires Shapes(st) && EnabledH(st, a)
    ensures Shapes(ApplyH(st, a))
  {
    BookedHolds(st, a);
    HolderNotes(st, ApplyH(st, a), a);
    HolderSlots(st, ApplyH(st, a), a);
  }

  // ----- the accounts

  lemma NonNullFilled(buffer: seq<Obj>, i: nat, o: Obj)
    requires i < |buffer| && buffer[i] == 0 && o != 0
    ensures NonNull(buffer[i := o]) == NonNull(buffer) + multiset{o}
  {
  }

  lemma NonNullCleared(buffer: seq<Obj>, i: nat)
    requires i < |buffer| && buffer[i] != 0
    ensures NonNull(buffer) == NonNull(buffer[i := 0]) + multiset{buffer[i]}
  {
  }

  /** The slot about to be written is null. */
  lemma EndIsNull(st: State)
    requires Shapes(st) && st.sender.Counted?
    ensures st.end < |st.buffer| && st.buffer[st.end] == 0 && st.sender.o != 0 && !st.haunted
  {
    assert st.buffer[At(st.start, Len(st))] == Held(st, Len(st));
  }

  // the ways in which the sums may move together

  lemma Grows(cnt: multiset<Obj>, over: multiset<Obj>, back: multiset<Obj>, due: multiset<Obj>, o: Obj)
    requires Sums(cnt, over, back, due)
    ensures Sums(cnt + multiset{o}, over, back, due + multiset{o})
    ensures Sums(cnt, over, back + multiset{o}, due + multiset{o})
  {
    assert cnt + multiset{o} + over + back == (cnt + over + back) + multiset{o};
    assert cnt + over + (back + multiset{o}) == (cnt + over + back) + multiset{o};
  }

  lemma Clears(cnt: multiset<Obj>, over: multiset<Obj>, back: multiset<Obj>, due: multiset<Obj>, o: Obj)
    requires Sums(cnt, over, back + multiset{o}, due + multiset{o})
    ensures Sums(cnt, over, back, due)
  {
    assert cnt + over + back == (cnt + over + (back + multiset{o})) - multiset{o};
    assert due == (due + multiset{o}) - multiset{o};
  }

  /** A holder goes. When its object has no count left, one was given back too much before. */
  lemma Shrinks(cnt: multiset<Obj>, over: multiset<Obj>, back: multiset<Obj>, due: multiset<Obj>, o: Obj)
    requires Sums(cnt, over, back, due + multiset{o}) && back <= due
    ensures if cnt[o] == 0 then Sums(cnt, over - multiset{o}, back, due) else Sums(cnt - multiset{o}, over, back, due)
  {
    assert back[o] <= due[o];
    assert (cnt + over + back)[o] == (due + multiset{o})[o];
    if cnt[o] == 0 {
      assert cnt + (over - multiset{o}) + back == (cnt + over + back) - multiset{o};
    } else {
      assert (cnt - multiset{o}) + over + back == (cnt + over + back) - multiset{o};
    }
    assert due == (due + multiset{o}) - multiset{o};
  }

  /** A slot loses its count, not yet its object. */
  lemma Unlinks(cnt: multiset<Obj>, over: multiset<Obj>, due: multiset<Obj>, o: Obj)
    requires Sums(cnt, over, multiset{}, due) && o in due
    ensures if cnt[o] == 0 then Sums(cnt, over - multiset{o}, multiset{o}, due)
            else Sums(cnt - multiset{o}, over, multiset{o}, due)
  {
    assert cnt + over == due;
    assert (cnt + over)[o] == due[o];
    if cnt[o] == 0 {
      assert cnt + (over - multiset{o}) + multiset{o} == cnt + over;
    } else {
      assert (cnt - multiset{o}) + over + multiset{o} == cnt + over;
    }
  }

  lemma Sweeps(cnt: multiset<Obj>, over: multiset<Obj>, back: multiset<Obj>, due: multiset<Obj>, n: multiset<Obj>,
               cnt': multiset<Obj>, over': multiset<Obj>, back': multiset<Obj>, due': multiset<Obj>, n': multiset<Obj>)
    requires Sums(cnt, over, back, due) && over' + back' == over + back
    requires cnt' + n == cnt + n' && due' + n == due + n'
    ensures Sums(cnt', over', back', due')
  {
    forall o ensures (cnt' + over' + back')[o] == due'[o] {
      assert (cnt + over + back)[o] == due[o] && (over' + back')[o] == (over + back)[o];
      assert (cnt' + n)[o] == (cnt + n')[o] && (due' + n)[o] == (due + n')[o];
    }
  }

  // ----- the holders

  lemma UncountedSlots(st: State)
    requires Shapes(st)
    ensures Uncounted(st) <= NonNull(st.buffer)
  {
    if st.haunted {
      HauntedFull(st);
    }
    if st.receiver.Dropped? {
      StartIsHeld(st);
      NonNullAt(st.buffer, st.start);
    }
  }

  lemma HeldMoves(st: State, st': State, o: Obj)
    requires st'.buffer == st.buffer && Beside(st) == Beside(st') + multiset{o}
    ensures Due(st) == Due(st') + multiset{o}
  {
  }

  lemma GivesBack(st: State, st': State, o: Obj)
    requires Shapes(st) && Accounted(st) && st'.buffer == st.buffer && Beside(st) == Beside(st') + multiset{o}
    requires st'.book.cnt == Give(st.book, o).cnt && st'.book.over == Give(st.book, o).over
    requires Uncounted(st') == Uncounted(st)
    ensures Accounted(st')
  {
    HeldMoves(st, st', o);
    UncountedSlots(st);
    Shrinks(st.book.cnt, st.book.over, Uncounted(st), Due(st'), o);
  }

  lemma Takes(st: State, st': State, o: Obj)
    requires Accounted(st) && st'.buffer == st.buffer && Beside(st') == Beside(st) + multiset{o}
    requires st'.book.cnt == st.book.cnt + multiset{o} && st'.book.over == st.book.over
    requires Uncounted(st') == Uncounted(st)
    ensures Accounted(st')
  {
    HeldMoves(st', st, o);
    Grows(st.book.cnt, st.book.over, Uncounted(st), Due(st), o);
  }

  lemma OneMore(a: multiset<Obj>, b: multiset<Obj>, c: multiset<Obj>, o: Obj)
    ensures (a + multiset{o}) + b + c == (a + b + c) + multiset{o}
    ensures a + (b + multiset{o}) + c == (a + b + c) + multiset{o}
    ensures a + b + (c + multiset{o}) == (a + b + c) + multiset{o}
  {
  }

  predicate Comes(a: HStep) {
    a.HoldS? || a.HoldR? || a.HoldO?
  }

  lemma HoldMoves(b: Book, a: HStep)
    requires Comes(a)
    ensures var b' := Booked(b, a);
            b'.cnt == b.cnt + multiset{a.o} && b'.over == b.over && Holders(b') == Holders(b) + multiset{a.o}
  {
    OneMore(b.sHeld, b.rHeld, b.others, a.o);
  }

  lemma BackAgain(m: multiset<Obj>, o: Obj)
    requires o in m
    ensures m == (m - multiset{o}) + multiset{o}
  {
  }

  lemma DropMoves(b: Book, a: HStep)
    requires !Comes(a) && a.o in (if a.DropS? || a.ScanS? then b.sHeld else if a.DropO? then b.others else b.rHeld)
    ensures var b' := Booked(b, a);
            b'.cnt == Give(b, a.o).cnt && b'.over == Give(b, a.o).over && Holders(b) == Holders(b') + multiset{a.o}
  {
    var b' := Booked(b, a);
    BackAgain(if a.DropS? || a.ScanS? then b.sHeld else if a.DropO? then b.others else b.rHeld, a.o);
    OneMore(b'.sHeld, b'.rHeld, b'.others, a.o);
  }

  lemma BookedAccounts(st: State, st': State, a: HStep)
    requires Shapes(st) && Accounted(st) && EnabledH(st, a)
    requires st'.buffer == st.buffer && st'.sender == st.sender && st'.receiver == st.receiver
    requires st'.haunted == st.haunted && (st.haunted ==> st'.sNote == st.sNote)
    requires if Comes(a) then
               st'.book.cnt == st.book.cnt + multiset{a.o} && st'.book.over == st.book.over
                   && Holders(st'.book) == Holders(st.book) + multiset{a.o}
             else st'.book.cnt == Give(st.book, a.o).cnt && st'.book.over == Give(st.book, a.o).over
                      && Holders(st.book) == Holders(st'.book) + multiset{a.o}
    ensures Accounted(st')
  {
    assert Uncounted(st') == Uncounted(st);
    if Comes(a) {
      OneMore(Holders(st.book), SlotDue(st.sender), RootDue(st.receiver), a.o);
      Takes(st, st', a.o);
    } else {
      OneMore(Holders(st'.book), SlotDue(st.sender), RootDue(st.receiver), a.o);
      GivesBack(st, st', a.o);
    }
  }

  lemma HolderAccounts(st: State, a: HStep)
    requires Shapes(st) && Accounted(st) && EnabledH(st, a)
    ensures Accounted(ApplyH(st, a))
  {
    if Comes(a) {
      HoldMoves(st.book, a);
    } else {
      DropMoves(st.book, a);
    }
    BookedAccounts(st, ApplyH(st, a), a);
  }

  // ----- the sender's accounts

  /** Nothing that the accounts depend on changes. */
  predicate SameAccounts(st: State, st': State) {
    && st'.book == st.book && st'.buffer == st.buffer && SlotDue(st'.sender) == SlotDue(st.sender)
    && RootDue(st'.receiver) == RootDue(st.receiver) && SlotLeft(st'.receiver) == SlotLeft(st.receiver)
    && st'.haunted == st.haunted && (st.haunted ==> st'.sNote == st.sNote)
  }

  lemma AccountsStay(st: State, st': State)
    requires Accounted(st) && SameAccounts(st, st')
    ensures Accounted(st')
  {
  }

  lemma SenderQuiet(st: State, a: SStep)
    requires EnabledS(st, a) && !a.LinkSlot? && !a.StoreSlot? && !st.haunted
    ensures SameAccounts(st, ApplyS(st, a))
  {
  }

  lemma LinkSlotTakes(st: State)
    requires EnabledS(st, LinkSlot) && !st.haunted
    ensures var st' := ApplyS(st, LinkSlot);
            && st'.book == Take(st.book, st.sender.o) && Uncounted(st') == Uncounted(st)
            && Beside(st') == Beside(st) + multiset{st.sender.o} && st'.buffer == st.buffer
  {
  }

  lemma StoreSlotDue(st: State)
    requires Shapes(st) && st.sender.Counted?
    ensures Due(DoStoreSlot(st)) == Due(st)
  {
    EndIsNull(st);
    NonNullFilled(st.buffer, st.end, st.sender.o);
  }

  lemma SenderAccounts(st: State, a: SStep)
    requires Shapes(st) && Accounted(st) && EnabledS(st, a)
    ensures Accounted(ApplyS(st, a))
  {
    var st' := ApplyS(st, a);
    match a
    case LinkSlot =>
      LinkSlotTakes(st);
      Takes(st, st', st.sender.o);
    case StoreSlot => StoreSlotDue(st);
    case _ =>
      SenderQuiet(st, a);
      AccountsStay(st, st');
  }

  // ----- the receiver's accounts

  lemma ReceiverQuiet(st: State, a: RStep)
    requires EnabledR(st, a) && (a.Look? || a.LogRoot? || a.LogDrop? || a.MoveStart? || a.OtherR?)
    ensures SameAccounts(st, ApplyR(st, a))
  {
  }

  lemma LinkRootTakes(st: State)
    requires EnabledR(st, LinkRoot)
    ensures var st' := ApplyR(st, LinkRoot);
            && st'.book == Take(st.book, st.receiver.o) && Uncounted(st') == Uncounted(st)
            && Beside(st') == Beside(st) + multiset{st.receiver.o} && st'.buffer == st.buffer
  {
  }

  lemma StoreRootDue(st: State)
    requires st.receiver.Linked?
    ensures Due(DoStoreRoot(st)) == Due(st)
  {
  }

  lemma UnlinkAccounts(st: State)
    requires Shapes(st) && Accounted(st) && EnabledR(st, UnlinkSlot)
    ensures Accounted(ApplyR(st, UnlinkSlot))
  {
    var st' := ApplyR(st, UnlinkSlot);
    StartIsHeld(st);
    NonNullAt(st.buffer, st.start);
    assert Beside(st') == Beside(st) && Uncounted(st) == multiset{} && Uncounted(st') == multiset{st.receiver.o};
    Unlinks(st.book.cnt, st.book.over, Due(st), st.receiver.o);
  }

  lemma ClearSlotAccounts(st: State)
    requires Shapes(st) && Accounted(st) && st.receiver.Dropped?
    ensures Accounted(DoClearSlot(st))
  {
    var st' := DoClearSlot(st);
    StartIsHeld(st);
    NonNullCleared(st.buffer, st.start);
    assert Uncounted(st) == Uncounted(st') + multiset{st.receiver.o};
    assert Due(st) == Due(st') + multiset{st.receiver.o};
    Clears(st.book.cnt, st.book.over, Uncounted(st'), Due(st'), st.receiver.o);
  }

  lemma ReceiverAccounts(st: State, a: RStep)
    requires Shapes(st) && Accounted(st) && EnabledR(st, a)
    ensures Accounted(ApplyR(st, a))
  {
    var st' := ApplyR(st, a);
    match a
    case LinkRoot =>
      LinkRootTakes(st);
      Takes(st, st', st.receiver.o);
    case StoreRoot => StoreRootDue(st);
    case UnlinkSlot => UnlinkAccounts(st);
    case ClearSlot => ClearSlotAccounts(st);
    case _ =>
      ReceiverQuiet(st, a);
      AccountsStay(st, st');
  }

  // ----- the monitor's accounts

  /** A slot that has lost its object is null. */
  lemma StaleIsNull(st: State)
    requires Shapes(st) && Stale(st) && !st.haunted
    ensures st.buffer[st.sNote.slot] == 0 && st.sNote.o != 0
  {
    var k := if Len(st) == 0 then MESSAGE_BUFFER_SIZE - 1 else Len(st) - 1;
    if !st.sender.Stored? {
      LastSent(st, k);
    }
    assert st.buffer[At(st.start, k)] == Held(st, k) && st.buffer[At(st.start, Len(st))] == Held(st, Len(st));
  }

  lemma StaleAccounts(st: State)
    requires Shapes(st) && Accounted(st) && EnabledM(st, ReplayS) && Stale(st)
    ensures Accounted(DoReplayS(st))
  {
    var st' := DoReplayS(st);
    StaleIsNull(st);
    NonNullFilled(st.buffer, st.sNote.slot, st.sNote.o);
    assert Beside(st') == Beside(st);
    assert Due(st') == Due(st) + multiset{st.sNote.o};
    assert Uncounted(st') == Uncounted(st) + multiset{st.sNote.o};
    Grows(st.book.cnt, st.book.over, Uncounted(st), Due(st), st.sNote.o);
  }

  lemma ReplaySAccounts(st: State)
    requires Shapes(st) && Accounted(st) && EnabledM(st, ReplayS)
    ensures Accounted(DoReplayS(st))
  {
    var st' := DoReplayS(st);
    if st.sender.Counted? {
      StoreSlotDue(st);
    } else if Stale(st) {
      StaleAccounts(st);
    } else {
      assert st'.buffer == st.buffer;
    }
  }

  /** The slot that the receiver's completed record names is null, unless an object was put back there. */
  lemma NotedIsNull(st: State)
    requires Shapes(st) && st.rNote.SlotNote? && st.rNote.done && !st.receiver.Dropped?
    ensures st.rNote.slot < |st.buffer|
    ensures st.haunted && st.rNote.slot == st.sNote.slot ==> st.buffer[st.rNote.slot] == st.sNote.o != 0
    ensures !(st.haunted && st.rNote.slot == st.sNote.slot) ==> st.buffer[st.rNote.slot] == 0
  {
    assert At(st.start, 0) == st.start && At(st.start, MESSAGE_BUFFER_SIZE - 1) == Prev(st.start);
    var k := if st.receiver.Cleared? then 0 else MESSAGE_BUFFER_SIZE - 1;
    assert st.buffer[At(st.start, k)] == Held(st, k);
  }

  /** The receiver's replay takes away an object that the sender's replay put back there. */
  lemma CureAccounts(st: State)
    requires Shapes(st) && Accounted(st) && EnabledM(st, ReplayR) && st.rNote.SlotNote? && st.rNote.done
    requires !st.receiver.Dropped? && st.haunted && st.rNote.slot == st.sNote.slot
    ensures Accounted(DoReplayR(st))
  {
    var st' := DoReplayR(st);
    NotedIsNull(st);
    NonNullCleared(st.buffer, st.rNote.slot);
    assert Beside(st') == Beside(st);
    assert Uncounted(st) == Uncounted(st') + multiset{st.sNote.o};
    Clears(st.book.cnt, st.book.over, Uncounted(st'), Due(st'), st.sNote.o);
  }

  /** The receiver died between the CAS of its unlink and the clearing of the slot. */
  lemma ReplayClears(st: State)
    requires Shapes(st) && Accounted(st) && EnabledM(st, ReplayR) && st.receiver.Dropped?
    ensures Accounted(DoReplayR(st))
  {
    ClearSlotAccounts(st);
    StartIsHeld(st);
  }

  lemma ReplayRAccounts(st: State)
    requires Shapes(st) && Accounted(st) && EnabledM(st, ReplayR)
    ensures Accounted(DoReplayR(st))
  {
    var st' := DoReplayR(st);
    if st.receiver.Linked? {
      StoreRootDue(st);
    } else if st.receiver.Dropped? {
      ReplayClears(st);
    } else if st.rNote.SlotNote? && st.rNote.done {
      if st.haunted && st.rNote.slot == st.sNote.slot {
        CureAccounts(st);
      } else {
        NotedIsNull(st);
        assert st'.buffer == st.buffer;
      }
    }
  }

  /** A sweep gives back what it takes out; if it takes out the object put back, one count too many. */
  lemma ReleasedAccounts(st: State, r: Counts)
    requires Accounted(st) && HauntOk(st)
    requires r.cnt + NonNull(st.buffer) == st.book.cnt + NonNull(r.buffer) && |r.buffer| == |st.buffer|
    ensures Accounted(Released(st, r))
  {
    var st' := Released(st, r);
    assert Beside(st') == Beside(st);
    assert st'.book.over + Uncounted(st') == st.book.over + Uncounted(st);
    assert Due(st') + NonNull(st.buffer) == Due(st) + NonNull(st'.buffer);
    Sweeps(st.book.cnt, st.book.over, Uncounted(st), Due(st), NonNull(st.buffer),
           st'.book.cnt, st'.book.over, Uncounted(st'), Due(st'), NonNull(st'.buffer));
  }

  lemma SweepSAccounts(st: State)
    requires Shapes(st) && Accounted(st) && EnabledM(st, SweepS)
    ensures Accounted(DoSweepS(st))
  {
    var n := if st.attached then Stop(st.start, st.end, |st.buffer|) else |st.buffer|;
    OutsideIs(st.start, st.end, |st.buffer|, 0);
    VisitsDo(Counts(st.buffer, st.book.cnt), st.end, n);
    ReleasedAccounts(st, Visits(Counts(st.buffer, st.book.cnt), st.end, n));
  }

  lemma SweepRAccounts(st: State)
    requires Shapes(st) && Accounted(st) && EnabledM(st, SweepR)
    ensures Accounted(DoSweepR(st))
  {
    var n := Off(st.start, st.end, |st.buffer|);
    VisitsDo(Counts(st.buffer, st.book.cnt), st.start, n);
    if st.attached {
      ReleasedAccounts(st, Visits(Counts(st.buffer, st.book.cnt), st.start, n));
    }
  }

  lemma MonitorAccounts(st: State, a: MStep)
    requires Shapes(st) && Accounted(st) && EnabledM(st, a)
    ensures Accounted(ApplyM(st, a))
  {
    match a
    case ReplayS => ReplaySAccounts(st);
    case ReplayR => ReplayRAccounts(st);
    case SweepS => SweepSAccounts(st);
    case SweepR => SweepRAccounts(st);
    case _ =>
  }

  lemma StepKeeps(st: State, a: Step)
    requires Inv(st) && Enabled(st, a)
    ensures Inv(Apply(st, a))
  {
    match a
    case S(s) =>
      SenderShapes(st, s);
      SenderAccounts(st, s);
    case R(r) =>
      ReceiverShapes(st, r);
      ReceiverAccounts(st, r);
    case M(m) =>
      MonitorShapes(st, m);
      MonitorAccounts(st, m);
    case H(h) =>
      HolderShapes(st, h);
      HolderAccounts(st, h);
  }
}
