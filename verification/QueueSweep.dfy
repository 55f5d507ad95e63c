/** The monitor's recovery of a queue whose sender or receiver crashed: the replay's write, the
    scan of the roots, and the loops of the sweeps. */
module QueueSweep {
  import opened RedoLog
  import opened SpscQueue
  import opened SpscSteps
  import opened SpscTheorems

  lemma RingNext(i: nat, size: nat)
    requires i < size
    ensures (i + 1) % size == if i + 1 == size then 0 else i + 1
  {
  }

  /** The ring after `redo_ref_cnt` wrote what the newest record says. */
  function Redone(buffer: seq<Obj>, need: bool, slot: nat, val: Obj): (r: seq<Obj>)
    requires need ==> slot < |buffer|
    ensures |r| == |buffer|
  {
    if need then buffer[slot := val] else buffer
  }

  class MessageQueue {
    var start: nat
    var end: nat
    var senderId: nat
    var receiverId: nat
    const buffer: array<Obj>
    var cnt: multiset<Obj>  // the counts of all objects
    var sRoots: seq<Obj>    // the sender's roots; 0 is a root that holds nothing yet
    var rRoots: seq<Obj>

    ghost predicate Valid()
      reads this
    {
      0 < buffer.Length && start < buffer.Length && end < buffer.Length
    }

    constructor (size: nat)
      requires size > 0
      ensures Valid() && fresh(buffer) && buffer.Length == size && cnt == multiset{} && sRoots == rRoots == []
    {
      buffer := new Obj[size](_ => 0);
      start, end, senderId, receiverId, cnt, sRoots, rRoots := 0, 0, 0, 0, multiset{}, [], [];
    }

    ghost function Now(): Counts
      reads this, buffer
    {
      Counts(buffer[..], cnt)
    }

    /** k slots have been visited, from `from` on. */
    ghost predicate Visited(was: Counts, from: nat, k: nat)
      reads this, buffer
    {
      |was.buffer| == buffer.Length && from < buffer.Length && k <= buffer.Length && Now() == Visits(was, from, k)
    }

    lemma NoneVisited(from: nat)
      requires from < buffer.Length
      ensures Visited(Now(), from, 0) && Place(from, 0, buffer.Length) == from
    {
      NotVisited(Now(), from);
    }

    /** `recovery_test_free` on a slot: nothing when it is null or its object has no count,
        otherwise one count is given back and the slot cleared. */
    method Visit(i: nat)
      requires i < buffer.Length
      modifies buffer, this`cnt
      ensures Now() == VisitSlot(old(Now()), i)
    {
      if buffer[i] != 0 {
        if cnt[buffer[i]] != 0 {
          cnt := cnt - multiset{buffer[i]};
          ghost var before := buffer[..];
          buffer[i] := 0;
          assert buffer[..] == before[i := 0];
        }
      }
    }

    /** The body of each sweep: visit a slot and go on to the next. */
    method VisitNext(i: nat, ghost was: Counts, ghost from: nat, ghost k: nat) returns (next: nat)
      requires k < buffer.Length && i == Place(from, k, buffer.Length) && Visited(was, from, k)
      modifies buffer, this`cnt
      ensures next == Place(from, k + 1, buffer.Length) && Visited(was, from, k + 1)
    {
      Visit(i);
      RingNext(i, buffer.Length);
      next := (i + 1) % buffer.Length;
    }

    /** The second loop of the sender's sweep, over the window. */
    method SweepRest(first: nat, ghost was: Counts, ghost k0: nat)
      requires Valid() && 0 < k0 <= buffer.Length && first == Place(end, k0, buffer.Length) && Visited(was, end, k0)
      modifies buffer, this`cnt
      ensures Visited(was, end, buffer.Length)
    {
      ghost var k := k0;
      var i := first;
      while i != end
        invariant 0 < k <= buffer.Length && i == Place(end, k, buffer.Length) && Visited(was, end, k)
        decreases buffer.Length - k
      {
        i := VisitNext(i, was, end, k);
        k := k + 1;
      }
    }

    /** The first loop of the sender's sweep, over the slots outside the window, or over all if
        the window is empty. */
    method SweepFirst() returns (next: nat)
      requires Valid()
      modifies buffer, this`cnt
      ensures next == Place(end, Stop(start, end, buffer.Length), buffer.Length)
      ensures 0 < Stop(start, end, buffer.Length) <= buffer.Length
      ensures Visited(old(Now()), end, Stop(start, end, buffer.Length))
    {
      ghost var was, stop := Now(), Stop(start, end, buffer.Length);
      OutsideIs(start, end, buffer.Length, start);
      NoneVisited(end);
      ghost var k := 0;
      next := end;
      var again := true;
      while again
        invariant 0 <= k <= stop && next == Place(end, k, buffer.Length)
        invariant again <==> k < stop
        invariant Visited(was, end, k)
        decreases stop - k
      {
        next := VisitNext(next, was, end, k);
        k := k + 1;
        MeetsStart(start, end, buffer.Length, k);
        again := next != start;
      }
    }

    /** The sender crashed: the slots outside the window are visited, and the window too when
        no receiver is attached. Each visited slot is null afterwards unless its object has no
        count left, the others are untouched, and the counts taken are those of the slots emptied. */
    method SweepSender()
      requires Valid()
      modifies buffer, this`cnt, this`senderId
      ensures Valid() && senderId == 0 && Now() == SweepOutside(old(Now()), start, end, receiverId != 0)
      ensures OutsideEmptied(old(Now()), Now(), start, end, receiverId != 0)
    {
      ghost var was := Now();
      var i := SweepFirst();
      if receiverId == 0 {
        SweepRest(i, was, Stop(start, end, buffer.Length));
      }
      senderId := 0;
      OutsideDone(was, Now(), start, end, receiverId != 0);
    }

    /** The receiver crashed: the slots of the window are visited. */
    method SweepReceiver()
      requires Valid()
      modifies buffer, this`cnt, this`receiverId
      ensures Valid() && receiverId == 0 && Now() == SweepWindow(old(Now()), start, end)
      ensures WindowEmptied(old(Now()), Now(), start, end)
    {
      ghost var was := Now();
      VisitWindow();
      receiverId := 0;
      WindowMeans(was, start, end);
    }

    /** Its loop. */
    method VisitWindow()
      requires Valid()
      modifies buffer, this`cnt
      ensures Visited(old(Now()), start, Off(start, end, buffer.Length))
    {
      ghost var was, stop := Now(), Off(start, end, buffer.Length);
      NoneVisited(start);
      ghost var k := 0;
      var i := start;
      MeetsEnd(start, end, buffer.Length, k);
      while i != end
        invariant 0 <= k <= stop < buffer.Length && i == Place(start, k, buffer.Length) && Visited(was, start, k)
        invariant i == end <==> k == stop
        decreases stop - k
      {
        i := VisitNext(i, was, start, k);
        k := k + 1;
        MeetsEnd(start, end, buffer.Length, k);
      }
    }

    /** Both sides crashed, whichever is swept first: in the end every slot is null or holds an
        object that has no count, each slot emptied has given back one count, and all slots are
        null when each object in the ring has a count for each of its slots. */
    method SweepBoth(senderFirst: bool)
      requires Valid()
      modifies buffer, this`cnt, this`senderId, this`receiverId
      ensures Valid() && senderId == 0 && receiverId == 0
      ensures AllEmptied(old(Now()), Now()) && NullIfCounted(old(Now()), Now())
    {
      ghost var was, attached := Now(), receiverId != 0;
      if senderFirst {
        SweepSender();
      } else {
        SweepReceiver();
      }
      ghost var mid := Now();
      if senderFirst {
        SweepReceiver();
      } else {
        SweepSender();
      }
      BothEmptied(was, mid, Now(), start, end, senderFirst, attached);
    }

    /** The root scan: each root gives back a count if its object has one. */
    method ScanRoots(roots: seq<Obj>)
      modifies this`cnt
      ensures cnt == old(cnt) - NonNull(roots)
    {
      NoneScanned(cnt, roots);
      for i := 0 to |roots|
        invariant ScannedTo(old(cnt), cnt, roots, i)
      {
        ScannedNext(old(cnt), cnt, roots, i);
        if roots[i] != 0 {
          if cnt[roots[i]] != 0 {
            cnt := cnt - multiset{roots[i]};
          }
        }
      }
      AllScanned(old(cnt), cnt, roots);
    }

    /** Replay, root scan and sweep for a crashed sender. */
    method RedoSweepSender(need: bool, slot: nat, o: Obj)
      requires Valid() && (need ==> slot < buffer.Length)
      modifies buffer, this`cnt, this`senderId, this`sRoots
      ensures Valid() && senderId == 0 && sRoots == []
      ensures var b, c := Redone(old(buffer[..]), need, slot, o), old(cnt) - NonNull(old(sRoots));
              Now() == SweepOutside(Counts(b, c), start, end, receiverId != 0)
    {
      if need {
        buffer[slot] := o;
      }
      ScanRoots(sRoots);
      sRoots := [];
      assert buffer[..] == Redone(old(buffer[..]), need, slot, o);
      SweepSender();
    }

    /** Replay, root scan and sweep for a crashed receiver; the newest record may be that of a
        root. The sweep finds the queue in the receiver's list only if it is attached. */
    method RedoSweepReceiver(rootNeed: bool, root: nat, o: Obj, need: bool, slot: nat)
      requires Valid() && (need ==> slot < buffer.Length) && (rootNeed ==> root < |rRoots|)
      modifies buffer, this`cnt, this`receiverId, this`rRoots
      ensures Valid() && receiverId == 0 && rRoots == []
      ensures var b := Redone(old(buffer[..]), need, slot, 0);
              var c := old(cnt) - NonNull(Redone(old(rRoots), rootNeed, root, o));
              Now() == if old(receiverId) == 0 then Counts(b, c) else SweepWindow(Counts(b, c), start, end)
    {
      if need {
        buffer[slot] := 0;
      }
      if rootNeed {
        rRoots := rRoots[root := o];
      }
      ScanRoots(rRoots);
      rRoots := [];
      assert buffer[..] == Redone(old(buffer[..]), need, slot, 0);
      if receiverId != 0 {
        SweepReceiver();
      }
    }

    /** The ring, the counts and the roots are those of the protocol state. */
    ghost predicate Mirrors(st: State)
      reads this, buffer
    {
      && start == st.start && end == st.end && st.attached == (receiverId != 0)
      && Now() == Counts(st.buffer, st.book.cnt)
      && NonNull(sRoots) == st.book.sHeld && NonNull(rRoots) == st.book.rHeld
    }

    /** The sender's recovery is that of the protocol. */
    method RecoverSender(need: bool, slot: nat, o: Obj, ghost st: State, ghost last: State)
      requires Valid() && Mirrors(st) && NoteInRing(st.sNote, st.buffer) && InRing(st)
      requires SenderSays(st, need, slot, o) && SenderRecovered(st, last)
      modifies buffer, this`cnt, this`senderId, this`sRoots
      ensures Valid() && senderId == 0 && Mirrors(last)
    {
      RedoSweepSender(need, slot, o);
      AllNull([]);
    }

    /** The receiver's recovery is that of the protocol. */
    method RecoverReceiver(rootNeed: bool, root: nat, r: Obj, need: bool, slot: nat, ghost st: State, ghost last: State)
      requires Valid() && Mirrors(st) && NoteInRing(st.rNote, st.buffer) && InRing(st)
      requires ReceiverSays(st, need, slot) && RootSays(st, rRoots, rootNeed, root, r)
      requires LinkNoted(st) && ReceiverRecovered(st, last)
      modifies buffer, this`cnt, this`receiverId, this`rRoots
      ensures Valid() && receiverId == 0 && Mirrors(last)
    {
      RootRedone(st, rRoots, rootNeed, root, r);
      RedoSweepReceiver(rootNeed, root, r, need, slot);
      AllNull([]);
    }

    /** Both sides have crashed, at any point of any run; the monitor recovers one after the
        other. In the end the ring is empty exactly unless `StaysFull`, and the counts are those
        of the other clients exactly unless `GivenTwice`, and then one is missing. The arguments
        are what the monitor reads from the two redo rings and decides about them. */
    method RecoverQueue(senderFirst: bool, sNeed: bool, sSlot: nat, o: Obj, rootNeed: bool, root: nat, r: Obj,
                        rNeed: bool, rSlot: nat, ghost st: State)
      requires Valid() && Reachable(st) && Mirrors(st) && st.sLife.Down? && st.rLife.Down?
      requires SenderSays(st, sNeed, sSlot, o)
      requires ReceiverSays(st, rNeed, rSlot) && RootSays(st, rRoots, rootNeed, root, r)
      modifies buffer, this`cnt, this`senderId, this`receiverId, this`sRoots, this`rRoots
      ensures (forall x | 0 <= x < buffer.Length :: buffer[x] == 0) <==> !StaysFull(st, senderFirst)
      ensures cnt == st.book.others <==> !GivenTwice(st, senderFirst)
      ensures cnt + (if GivenTwice(st, senderFirst) then multiset{st.sNote.o} else multiset{}) == st.book.others
    {
      ghost var mid, last := Recoveries(st, senderFirst);
      RecoverInOrder(senderFirst, sNeed, sSlot, o, rootNeed, root, r, rNeed, rSlot, st, mid, last);
      assert buffer[..] == Now().buffer;
    }

    /** The two recoveries, in either order. */
    method RecoverInOrder(senderFirst: bool, sNeed: bool, sSlot: nat, o: Obj, rootNeed: bool, root: nat, r: Obj,
                          rNeed: bool, rSlot: nat, ghost st: State, ghost mid: State, ghost last: State)
      requires Valid() && Mirrors(st)
      requires InRing(st) && NoteInRing(st.sNote, st.buffer) && NoteInRing(st.rNote, st.buffer)
      requires SenderSays(st, sNeed, sSlot, o)
      requires ReceiverSays(st, rNeed, rSlot) && RootSays(st, rRoots, rootNeed, root, r) && LinkNoted(st)
      requires RecoveredBy(st, mid, last, senderFirst)
      modifies buffer, this`cnt, this`senderId, this`receiverId, this`sRoots, this`rRoots
      ensures Valid() && Mirrors(last)
    {
      if senderFirst {
        RecoverSender(sNeed, sSlot, o, st, mid);
        RecoverReceiver(rootNeed, root, r, rNeed, rSlot, mid, last);
      } else {
        RecoverReceiver(rootNeed, root, r, rNeed, rSlot, st, mid);
        RecoverSender(sNeed, sSlot, o, mid, last);
      }
    }
  }

  // ----- what the sweeps mean

  /** A visited slot: null, or as it was and its object has no count. */
  predicate Emptied(was: Counts, now: Counts, x: nat)
    requires x < |was.buffer| == |now.buffer|
  {
    now.buffer[x] == 0 || (now.buffer[x] == was.buffer[x] && now.cnt[now.buffer[x]] == 0)
  }

  ghost predicate OutsideEmptied(was: Counts, now: Counts, start: nat, end: nat, attached: bool) {
    && |now.buffer| == |was.buffer| && Paid(was, now) && now.cnt <= was.cnt
    && forall x | 0 <= x < |was.buffer| ::
         if attached && InWindow(start, end, |was.buffer|, x) then now.buffer[x] == was.buffer[x]
         else Emptied(was, now, x)
  }

  ghost predicate WindowEmptied(was: Counts, now: Counts, start: nat, end: nat) {
    && |now.buffer| == |was.buffer| && Paid(was, now) && now.cnt <= was.cnt
    && forall x | 0 <= x < |was.buffer| ::
         if InWindow(start, end, |was.buffer|, x) then Emptied(was, now, x) else now.buffer[x] == was.buffer[x]
  }

  ghost predicate AllEmptied(was: Counts, now: Counts) {
    |now.buffer| == |was.buffer| && Paid(was, now) && forall x | 0 <= x < |was.buffer| :: Emptied(was, now, x)
  }

  lemma OutsideMeans(r: Counts, start: nat, end: nat, attached: bool)
    requires start < |r.buffer| && end < |r.buffer|
    ensures OutsideEmptied(r, SweepOutside(r, start, end, attached), start, end, attached)
  {
    OutsideIs(start, end, |r.buffer|, end);
    VisitsDo(r, end, if attached then Stop(start, end, |r.buffer|) else |r.buffer|);
    forall x | 0 <= x < |r.buffer|
      ensures Off(end, x, |r.buffer|) < |r.buffer|
      ensures Off(end, x, |r.buffer|) < Stop(start, end, |r.buffer|) <==> !InWindow(start, end, |r.buffer|, x)
    {
      OutsideIs(start, end, |r.buffer|, x);
    }
  }

  lemma OutsideDone(was: Counts, now: Counts, start: nat, end: nat, attached: bool)
    requires start < |was.buffer| && end < |was.buffer| && 0 < Stop(start, end, |was.buffer|) <= |was.buffer|
    requires now == Visits(was, end, if attached then Stop(start, end, |was.buffer|) else |was.buffer|)
    ensures now == SweepOutside(was, start, end, attached) && OutsideEmptied(was, now, start, end, attached)
  {
    OutsideMeans(was, start, end, attached);
  }

  lemma NotVisited(r: Counts, from: nat)
    requires from < |r.buffer|
    ensures Visits(r, from, 0) == r && Place(from, 0, |r.buffer|) == from
  {
  }

  lemma MeetsEnd(start: nat, end: nat, size: nat, k: nat)
    requires start < size && end < size
    ensures Off(start, end, size) < size
    ensures k <= Off(start, end, size) ==> (Place(start, k, size) == end <==> k == Off(start, end, size))
  {
  }

  lemma MeetsStart(start: nat, end: nat, size: nat, k: nat)
    requires start < size && end < size && 0 < k <= Stop(start, end, size)
    ensures Place(end, k, size) == start <==> k == Stop(start, end, size)
  {
  }

  lemma WindowMeans(r: Counts, start: nat, end: nat)
    requires start < |r.buffer| && end < |r.buffer|
    ensures WindowEmptied(r, SweepWindow(r, start, end), start, end)
  {
    VisitsDo(r, start, Off(start, end, |r.buffer|));
  }

  lemma BothEmptied(was: Counts, mid: Counts, now: Counts, start: nat, end: nat, senderFirst: bool, attached: bool)
    requires start < |was.buffer| && end < |was.buffer|
    requires if senderFirst then
               OutsideEmptied(was, mid, start, end, attached) && WindowEmptied(mid, now, start, end)
             else WindowEmptied(was, mid, start, end) && OutsideEmptied(mid, now, start, end, false)
    ensures AllEmptied(was, now) && NullIfCounted(was, now)
  {
    SumsTwice(was, mid, now);
    EnoughCounts(was, now);
  }

  /** All slots are null if the objects in the ring have as many counts as slots. */
  ghost predicate NullIfCounted(was: Counts, now: Counts) {
    NonNull(was.buffer) <= was.cnt ==> forall x | 0 <= x < |now.buffer| :: now.buffer[x] == 0
  }

  lemma EnoughCounts(was: Counts, now: Counts)
    requires AllEmptied(was, now)
    ensures NullIfCounted(was, now)
  {
    forall x | 0 <= x < |now.buffer| && NonNull(was.buffer) <= was.cnt ensures now.buffer[x] == 0 {
      if now.buffer[x] != 0 {
        var o := now.buffer[x];
        assert Emptied(was, now, x);
        NonNullAt(now.buffer, x);
        NotEnough(was, now, o);
      }
    }
  }

  lemma NotEnough(was: Counts, now: Counts, o: Obj)
    requires Paid(was, now) && NonNull(now.buffer)[o] >= 1 && now.cnt[o] == 0
    ensures !(NonNull(was.buffer) <= was.cnt)
  {
    assert (now.cnt + NonNull(was.buffer))[o] == (was.cnt + NonNull(now.buffer))[o];
  }

  /** What the scan of these roots does to the count of one object. */
  ghost predicate ScannedFor(was: multiset<Obj>, now: multiset<Obj>, roots: seq<Obj>, o: Obj) {
    now[o] == (was - NonNull(roots))[o]
  }

  /** The first i roots have been scanned. */
  ghost predicate ScannedTo(was: multiset<Obj>, now: multiset<Obj>, roots: seq<Obj>, i: nat) {
    i <= |roots| && forall o {:trigger ScannedFor(was, now, roots[..i], o)} :: ScannedFor(was, now, roots[..i], o)
  }

  lemma NoneScanned(cnt: multiset<Obj>, roots: seq<Obj>)
    ensures ScannedTo(cnt, cnt, roots, 0)
  {
  }

  lemma ScannedNext(was: multiset<Obj>, now: multiset<Obj>, roots: seq<Obj>, i: nat)
    requires i < |roots| && ScannedTo(was, now, roots, i)
    ensures ScannedTo(was, if roots[i] != 0 && now[roots[i]] != 0 then now - multiset{roots[i]} else now, roots, i + 1)
  {
    RootsNext(roots, i);
    var next := if roots[i] != 0 && now[roots[i]] != 0 then now - multiset{roots[i]} else now;
    var done := roots[..i + 1];
    forall o ensures ScannedFor(was, next, done, o) {
      assert ScannedFor(was, now, roots[..i], o);
    }
  }

  lemma AllScanned(was: multiset<Obj>, now: multiset<Obj>, roots: seq<Obj>)
    requires ScannedTo(was, now, roots, |roots|)
    ensures now == was - NonNull(roots)
  {
    assert roots[..|roots|] == roots;
    forall o ensures now[o] == (was - NonNull(roots))[o] {
      assert ScannedFor(was, now, roots[..|roots|], o);
    }
  }

  lemma RootsNext(roots: seq<Obj>, i: nat)
    requires i < |roots|
    ensures NonNull(roots[..i + 1])
         == NonNull(roots[..i]) + (if roots[i] != 0 then multiset{roots[i]} else multiset{})
  {
    assert roots[..i + 1] == roots[..i] + [roots[i]];
  }

  // ----- the recoveries in the terms of the loops

  /** What `redo_ref_cnt` finds out from the sender's newest record: whether to write, where and what. */
  predicate SenderSays(st: State, need: bool, slot: nat, o: Obj) {
    need == (st.sNote.SlotNote? && st.sNote.done) && (need ==> slot == st.sNote.slot && o == st.sNote.o)
  }

  predicate ReceiverSays(st: State, need: bool, slot: nat) {
    need == (st.rNote.SlotNote? && st.rNote.done) && (need ==> slot == st.rNote.slot)
  }

  /** When the newest record is that of a root, the root is null until the link has stored it. */
  predicate RootSays(st: State, roots: seq<Obj>, need: bool, root: nat, o: Obj) {
    && need == (st.rNote.RootNote? && st.rNote.done)
    && (need ==>
          && root < |roots| && !st.receiver.Idle? && o == st.receiver.o != 0
          && roots[root] == if st.receiver.Linked? then 0 else o)
  }

  function RootsAfter(st: State): multiset<Obj> {
    st.book.rHeld + (if st.rNote.RootNote? then RootDue(st.receiver) else multiset{})
  }

  lemma RootRedone(st: State, roots: seq<Obj>, need: bool, root: nat, o: Obj)
    requires RootSays(st, roots, need, root, o) && NonNull(roots) == st.book.rHeld
    requires LinkNoted(st)
    ensures NonNull(Redone(roots, need, root, o)) == RootsAfter(st)
  {
    if need {
      if st.receiver.Linked? {
        NonNullFilled(roots, root, o);
      } else {
        assert roots[root := o] == roots;
      }
    }
  }

  /** A counted link to a root has a record whose swap took effect. */
  predicate LinkNoted(st: State) {
    st.rNote.RootNote? && st.receiver.Linked? ==> st.rNote.done
  }

  lemma CrashReady(st: State)
    requires Reachable(st)
    ensures LinkNoted(st) && InRing(st) && NoteInRing(st.sNote, st.buffer) && NoteInRing(st.rNote, st.buffer)
  {
    ReachableInv(st);
    NotesInRing(st);
  }

  ghost predicate SenderRecovered(st: State, last: State)
    requires NoteInRing(st.sNote, st.buffer) && InRing(st)
  {
    var note := st.sNote;
    var b := if note.SlotNote? && note.done then st.buffer[note.slot := note.o] else st.buffer;
    var out := SweepOutside(Counts(b, st.book.cnt - st.book.sHeld), st.start, st.end, st.attached);
    && last.buffer == out.buffer && last.book.cnt == out.cnt && last.book.sHeld == multiset{}
    && ReceiverSame(st, last)
  }

  ghost predicate ReceiverRecovered(st: State, last: State)
    requires NoteInRing(st.rNote, st.buffer) && InRing(st)
  {
    var note := st.rNote;
    var b := if note.SlotNote? && note.done then st.buffer[note.slot := 0] else st.buffer;
    var c := st.book.cnt - RootsAfter(st);
    var out := if st.attached then SweepWindow(Counts(b, c), st.start, st.end) else Counts(b, c);
    && last.buffer == out.buffer && last.book.cnt == out.cnt && last.book.rHeld == multiset{}
    && SenderSame(st, last) && !last.attached
  }

  lemma RecoverSParts(st: State)
    requires NoteInRing(st.sNote, st.buffer) && InRing(st)
    ensures SenderRecovered(st, RecoverS(st))
  {
    var mid := DoReplayS(st);
    ReplaySFields(st);
    var note := st.sNote;
    assert mid.buffer == if note.SlotNote? && note.done then st.buffer[note.slot := note.o] else st.buffer;
    ScanLeaves(mid.book, true);
    SweepSFields(mid.(book := Scanned(mid.book, true)));
  }

  lemma RecoverRParts(st: State)
    requires NoteInRing(st.rNote, st.buffer) && InRing(st)
    ensures ReceiverRecovered(st, RecoverR(st))
  {
    var mid := DoReplayR(st);
    ReplayRFields(st);
    var note := st.rNote;
    assert mid.buffer == if note.SlotNote? && note.done then st.buffer[note.slot := 0] else st.buffer;
    ScanLeaves(mid.book, false);
    SweepRFields(mid.(book := Scanned(mid.book, false)));
  }

  /** The two recoveries one after the other, in the terms of the loops. */
  ghost predicate RecoveredBy(st: State, mid: State, last: State, senderFirst: bool)
    requires InRing(st) && NoteInRing(st.sNote, st.buffer) && NoteInRing(st.rNote, st.buffer)
  {
    && InRing(mid)
    && if senderFirst then
         SenderRecovered(st, mid) && NoteInRing(mid.rNote, mid.buffer) && ReceiverRecovered(mid, last)
       else
         ReceiverRecovered(st, mid) && NoteInRing(mid.sNote, mid.buffer) && SenderRecovered(mid, last)
  }

  lemma SecondParts(st: State, mid: State, senderFirst: bool)
    requires InRing(st) && NoteInRing(st.sNote, st.buffer) && NoteInRing(st.rNote, st.buffer)
    requires if senderFirst then SenderRecovered(st, mid) else ReceiverRecovered(st, mid)
    ensures InRing(mid)
    ensures if senderFirst then NoteInRing(mid.rNote, mid.buffer) && RecoveredBy(st, mid, RecoverR(mid), true)
            else NoteInRing(mid.sNote, mid.buffer) && RecoveredBy(st, mid, RecoverS(mid), false)
  {
    if senderFirst {
      RecoverRParts(mid);
    } else {
      RecoverSParts(mid);
    }
  }

  lemma BothParts(st: State, senderFirst: bool)
    requires InRing(st) && NoteInRing(st.sNote, st.buffer) && NoteInRing(st.rNote, st.buffer)
    ensures var mid := if senderFirst then RecoverS(st) else RecoverR(st);
            RecoveredBy(st, mid, BothRecovered(st, senderFirst), senderFirst)
  {
    if senderFirst {
      RecoverSParts(st);
      SecondParts(st, RecoverS(st), true);
    } else {
      RecoverRParts(st);
      SecondParts(st, RecoverR(st), false);
    }
  }

  lemma Recoveries(st: State, senderFirst: bool) returns (mid: State, last: State)
    requires Reachable(st) && st.sLife.Down? && st.rLife.Down?
    ensures LinkNoted(st) && InRing(st) && NoteInRing(st.sNote, st.buffer) && NoteInRing(st.rNote, st.buffer)
    ensures RecoveredBy(st, mid, last, senderFirst) && RightUnless(st, last, senderFirst)
  {
    CrashReady(st);
    BothParts(st, senderFirst);
    RecoveryExact(st, senderFirst);
    mid := if senderFirst then RecoverS(st) else RecoverR(st);
    last := BothRecovered(st, senderFirst);
  }

  // ----- runs in which the order matters

  /** An object is in the queue, the receiver is attached, and both sides die. With the sender
      recovered first the ring gets empty and the counts are right. The other way round, a count
      that other clients need is given back if they hold the object, and otherwise the slot stays full. */
  lemma OrderMatters(o: Obj, shared: bool) returns (st: State)
    requires o != 0
    ensures Reachable(st) && st.sLife.Down? && st.rLife.Down? && st.sent == [o] && st.got == []
    ensures !GivenTwice(st, true) && !StaysFull(st, true)
    ensures if shared then GivenTwice(st, false) else StaysFull(st, false)
  {
    AllTimes(o);
    st := SendOne(o, shared);
    st := Go(st, R(Look));
    st := Go(st, M(CrashS));
    st := Go(st, M(CrashR));
  }
}
