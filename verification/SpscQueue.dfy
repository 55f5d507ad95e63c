/** The reference queue between one sender and one receiver, interleaved at each access to
    shared memory. Either side may crash between two accesses; the monitor then replays its
    newest redo record and sweeps its part of the ring, while the other side keeps running. */
module SpscQueue {
  import opened RedoLog

  const MESSAGE_BUFFER_SIZE: nat := 16

  const SIZE_LIMIT: nat := 0x1_0000_0000_0000_0000 // size_t wraps here

  /** `sent_to`: object in hand, first half of the full test passed, both halves passed,
      count taken, slot written. */
  datatype Sender = Resting | Offering(o: Obj) | HalfChecked(o: Obj) | Ready(o: Obj) | Counted(o: Obj) | Stored(o: Obj)

  /** `cxl_unwrap`: object seen at the start of the window, counted for the root, stored in
      the root, taken off the count for the slot, slot cleared. */
  datatype Receiver = Idle | Seen(o: Obj) | Linked(o: Obj) | Rooted(o: Obj) | Dropped(o: Obj) | Cleared(o: Obj)

  /** Running, crashed, record replayed, swept. */
  datatype Life = Up | Down | Replayed | Gone

  /** The newest record in a client's redo ring, as far as it concerns the queue: none, a link
      to the receiver's root, or an operation on a slot of the ring. `done` tells whether its
      CAS took effect, which is what the monitor finds out (EraTheorems.RedoDecisionExact). */
  datatype Note = NoNote | RootNote(done: bool) | SlotNote(slot: nat, o: Obj, done: bool)

  datatype State = State(
    start: nat,
    end: nat,
    buffer: seq<Obj>,
    attached: bool,        // receiver_id is set
    sender: Sender,
    receiver: Receiver,
    sLife: Life,
    rLife: Life,
    sNote: Note,
    rNote: Note,
    book: Book,
    got: seq<Obj>,         // history: what the receiver's roots got from the queue, in order
    sent: seq<Obj>,        // history: objects published by moving `end`
    passed: nat,           // history: how often `start` moved
    swept: nat,            // history: how many of the objects sent a sweep of the window found
    haunted: bool)         // history: a replay put the object of `sNote` back, uncounted, and it is still there

  /** Counts and holders: the count of each object, what the roots of the sender and of the
      receiver hold, what all other slots hold, also those inside objects, and as history the
      counts that a sweep has given back though their holders are still there. */
  datatype Book = Book(cnt: multiset<Obj>, sHeld: multiset<Obj>, rHeld: multiset<Obj>, others: multiset<Obj>,
                       over: multiset<Obj>)

  /** Steps of `sent_to`; Other stands for another operation's record, or the clearing of the ring. */
  datatype SStep = Offer(o: Obj) | CheckNext | CheckWrap | LogPut | LinkSlot | StoreSlot | MoveEnd | OtherS

  /** Steps of `cxl_unwrap`. */
  datatype RStep = Look | LogRoot | LinkRoot | StoreRoot | LogDrop | UnlinkSlot | ClearSlot | MoveStart | OtherR

  /** Crashes, and the monitor's replays and sweeps. */
  datatype MStep = CrashS | ReplayS | SweepS | CrashR | ReplayR | SweepR

  /** Getting and losing holders: roots of the sender and the receiver, at work or in the root
      scan of the monitor, and what all other clients do, also what is freed inside objects. */
  datatype HStep = HoldS(o: Obj) | DropS(o: Obj) | ScanS(o: Obj) | HoldR(o: Obj) | DropR(o: Obj) | ScanR(o: Obj)
                 | HoldO(o: Obj) | DropO(o: Obj)

  datatype Step = S(s: SStep) | R(r: RStep) | M(m: MStep) | H(h: HStep)

  /** `end - start` on `size_t`. */
  function Minus(a: nat, b: nat): int {
    if a >= b then a - b else SIZE_LIMIT + a - b
  }

  // ----- the sweeps

  /** How far slot x lies behind slot `from`, going round the ring. */
  function Off(from: nat, x: nat, size: nat): int {
    if x >= from then x - from else x - from + size
  }

  /** The live window: from start up to, not including, end. */
  predicate InWindow(start: nat, end: nat, size: nat, x: nat) {
    Off(start, x, size) < Off(start, end, size)
  }

  function NonNull(buffer: seq<Obj>): multiset<Obj> {
    multiset(buffer)[0 := 0]
  }

  /** The k-th slot from `from` on, for k up to the ring size. */
  function Place(from: nat, k: nat, size: nat): int {
    if from + k < size then from + k else from + k - size
  }

  /** How many slots the sender's sweep visits before it meets the start: all if the window is empty. */
  function Stop(start: nat, end: nat, size: nat): int {
    if start == end then size else Off(end, start, size)
  }

  datatype Counts = Counts(buffer: seq<Obj>, cnt: multiset<Obj>)

  /** `recovery_test_free` on a slot: nothing when it is null or its object has no count,
      otherwise one count is given back and the slot cleared. */
  function VisitSlot(r: Counts, x: nat): Counts
    requires x < |r.buffer|
  {
    if r.buffer[x] == 0 || r.cnt[r.buffer[x]] == 0 then r
    else Counts(r.buffer[x := 0], r.cnt - multiset{r.buffer[x]})
  }

  /** Visits to n slots, from `from` on round the ring. */
  function Visits(r: Counts, from: nat, n: nat): (out: Counts)
    requires from < |r.buffer| && n <= |r.buffer|
    ensures |out.buffer| == |r.buffer|
  {
    if n == 0 then r else VisitSlot(Visits(r, from, n - 1), Place(from, n - 1, |r.buffer|))
  }

  /** The sender's sweep visits the slots outside the window, and all when no receiver is attached. */
  function SweepOutside(r: Counts, start: nat, end: nat, attached: bool): (out: Counts)
    requires start < |r.buffer| && end < |r.buffer|
    ensures |out.buffer| == |r.buffer|
  {
    Visits(r, end, if attached then Stop(start, end, |r.buffer|) else |r.buffer|)
  }

  /** The receiver's sweep visits the window. */
  function SweepWindow(r: Counts, start: nat, end: nat): (out: Counts)
    requires start < |r.buffer| && end < |r.buffer|
    ensures |out.buffer| == |r.buffer|
  {
    Visits(r, start, Off(start, end, |r.buffer|))
  }

  // ----- the steps

  predicate EnabledS(st: State, a: SStep) {
    && st.sLife.Up?
    && match a
       case Offer(o) => st.sender.Resting? && o != 0 && o in st.book.sHeld
       case CheckNext => st.sender.Offering?
       case CheckWrap => st.sender.HalfChecked?
       case LogPut => st.sender.Ready?
       case LinkSlot => st.sender.Ready? && st.sNote == SlotNote(st.end, st.sender.o, false)
       case StoreSlot => st.sender.Counted? && st.end < |st.buffer|
       case MoveEnd => st.sender.Stored?
       case OtherS => st.sender.Resting?
  }

  predicate EnabledR(st: State, a: RStep) {
    && st.rLife.Up?
    && match a
       case Look => st.receiver.Idle? && st.start < |st.buffer|
       case LogRoot => st.receiver.Seen?
       case LinkRoot => st.receiver.Seen? && st.rNote == RootNote(false)
       case StoreRoot => st.receiver.Linked?
       case LogDrop => st.receiver.Rooted?
       case UnlinkSlot => st.receiver.Rooted? && st.rNote == SlotNote(st.start, st.receiver.o, false)
       case ClearSlot => st.receiver.Dropped? && st.start < |st.buffer|
       case MoveStart => st.receiver.Cleared?
       case OtherR => st.receiver.Idle?
  }

  predicate InRing(st: State) {
    st.start < |st.buffer| && st.end < |st.buffer|
  }

  predicate EnabledM(st: State, a: MStep) {
    match a
    case CrashS => st.sLife.Up?
    case ReplayS => st.sLife.Down? && (st.sNote.SlotNote? ==> st.sNote.slot < |st.buffer|)
    case SweepS => st.sLife.Replayed? && st.book.sHeld == multiset{} && InRing(st)
    case CrashR => st.rLife.Up?
    case ReplayR => st.rLife.Down? && (st.rNote.SlotNote? ==> st.rNote.slot < |st.buffer|)
    case SweepR => st.rLife.Replayed? && st.book.rHeld == multiset{} && InRing(st)
  }

  predicate EnabledH(st: State, a: HStep) {
    match a
    case HoldS(o) => st.sLife.Up? && st.sender.Resting? && o != 0
    case DropS(o) => st.sLife.Up? && st.sender.Resting? && o in st.book.sHeld
    case ScanS(o) => st.sLife.Replayed? && o in st.book.sHeld
    case HoldR(o) => st.rLife.Up? && st.receiver.Idle? && o != 0
    case DropR(o) => st.rLife.Up? && st.receiver.Idle? && o in st.book.rHeld
    case ScanR(o) => st.rLife.Replayed? && o in st.book.rHeld
    case HoldO(o) => o != 0
    case DropO(o) => o in st.book.others
  }

  predicate Enabled(st: State, a: Step) {
    match a
    case S(s) => EnabledS(st, s)
    case R(r) => EnabledR(st, r)
    case M(m) => EnabledM(st, m)
    case H(h) => EnabledH(st, h)
  }

  /** A new count of o. */
  function Take(b: Book, o: Obj): Book {
    b.(cnt := b.cnt + multiset{o})
  }

  /** A holder of o goes and gives back its count, if there is one left. */
  function Give(b: Book, o: Obj): Book {
    if b.cnt[o] == 0 then b.(over := b.over - multiset{o}) else b.(cnt := b.cnt - multiset{o})
  }

  function DoStoreSlot(st: State): State
    requires st.sender.Counted? && st.end < |st.buffer|
  {
    st.(sender := Stored(st.sender.o), buffer := st.buffer[st.end := st.sender.o])
  }

  function DoStoreRoot(st: State): State
    requires st.receiver.Linked?
  {
    st.(receiver := Rooted(st.receiver.o), got := st.got + [st.receiver.o],
        book := st.book.(rHeld := st.book.rHeld + multiset{st.receiver.o}))
  }

  function DoClearSlot(st: State): State
    requires st.receiver.Dropped? && st.start < |st.buffer|
  {
    st.(receiver := Cleared(st.receiver.o), buffer := st.buffer[st.start := 0])
  }

  /** The sender's newest record is a link to a slot that was completed before the crash. */
  predicate Completed(st: State) {
    st.sNote.SlotNote? && st.sNote.done && !st.sender.Counted? && st.sNote.slot < |st.buffer|
  }

  /** The replay of that link finds its slot without the object: it has been received or swept. */
  predicate Stale(st: State) {
    Completed(st) && st.buffer[st.sNote.slot] != st.sNote.o
  }

  /** `redo_ref_cnt` for the sender: it writes the slot of the newest record if its CAS took
      effect, whether the operation was completed or not. */
  function DoReplayS(st: State): (r: State)
    requires st.sNote.SlotNote? ==> st.sNote.slot < |st.buffer|
    ensures |r.buffer| == |st.buffer| && r.rNote == st.rNote && r.rLife == st.rLife && r.receiver == st.receiver
  {
    var st1 := st.(sLife := Replayed);
    if !st.sNote.SlotNote? || !st.sNote.done then st1
    else if st.sender.Counted? then
      st1.(sender := Stored(st.sender.o), buffer := st.buffer[st.sNote.slot := st.sNote.o])
    else st1.(buffer := st.buffer[st.sNote.slot := st.sNote.o], haunted := Stale(st))
  }

  /** `redo_ref_cnt` for the receiver. */
  function DoReplayR(st: State): (r: State)
    requires st.rNote.SlotNote? ==> st.rNote.slot < |st.buffer|
    ensures |r.buffer| == |st.buffer| && r.sNote == st.sNote && r.sLife == st.sLife && r.sender == st.sender
  {
    var st1 := st.(rLife := Replayed);
    if st.rNote.RootNote? && st.receiver.Linked? then DoStoreRoot(st1)
    else if !st.rNote.SlotNote? || !st.rNote.done then st1
    else
      st1.(receiver := if st.receiver.Dropped? then Cleared(st.receiver.o) else st.receiver,
           buffer := st.buffer[st.rNote.slot := 0],
           haunted := st.haunted && !(st.sNote.SlotNote? && st.sNote.slot == st.rNote.slot))
  }

  /** The slot that a replay has put its object back to. */
  predicate Visited(st: State, buffer: seq<Obj>) {
    st.haunted && st.sNote.SlotNote? && st.sNote.slot < |buffer| && buffer[st.sNote.slot] == 0
  }

  /** After a sweep. It has given back a count too many if it took out the object put back. */
  function Released(st: State, r: Counts): State {
    var b := st.book;
    var over := if Visited(st, r.buffer) && st.sNote.SlotNote? then b.over + multiset{st.sNote.o} else b.over;
    st.(buffer := r.buffer, haunted := st.haunted && !Visited(st, r.buffer), book := b.(cnt := r.cnt, over := over))
  }

  function DoSweepS(st: State): (r: State)
    requires InRing(st)
    ensures |r.buffer| == |st.buffer| && r.rNote == st.rNote && r.rLife == st.rLife && r.receiver == st.receiver
  {
    Released(st, SweepOutside(Counts(st.buffer, st.book.cnt), st.start, st.end, st.attached))
    .(sLife := Gone, swept := if st.attached then st.swept else |st.sent|)
  }

  function DoSweepR(st: State): (r: State)
    requires InRing(st)
    ensures |r.buffer| == |st.buffer| && r.sNote == st.sNote && r.sLife == st.sLife && r.sender == st.sender
  {
    if st.attached then
      Released(st, SweepWindow(Counts(st.buffer, st.book.cnt), st.start, st.end))
      .(rLife := Gone, swept := |st.sent|, attached := false)
    else st.(rLife := Gone)
  }

  function ApplyS(st: State, a: SStep): State
    requires EnabledS(st, a)
  {
    match a
    case Offer(o) => st.(sender := Offering(o))
    // the two halves of the full test read `start` separately
    case CheckNext => st.(sender := if st.end + 1 == st.start then Resting else HalfChecked(st.sender.o))
    case CheckWrap =>
      st.(sender := if Minus(st.end, st.start) == MESSAGE_BUFFER_SIZE - 1 then Resting else Ready(st.sender.o))
    case LogPut => st.(sNote := SlotNote(st.end, st.sender.o, false))
    case LinkSlot =>
      st.(sender := Counted(st.sender.o), sNote := SlotNote(st.end, st.sender.o, true),
          book := Take(st.book, st.sender.o))
    case StoreSlot => DoStoreSlot(st)
    case MoveEnd =>
      st.(sender := Resting, end := (st.end + 1) % MESSAGE_BUFFER_SIZE, sent := st.sent + [st.sender.o])
    case OtherS => st.(sNote := NoNote)
  }

  function ApplyR(st: State, a: RStep): State
    requires EnabledR(st, a)
  {
    match a
    case Look =>
      var st1 := st.(attached := true);
      if st.start == st.end || st.buffer[st.start] == 0 then st1 else st1.(receiver := Seen(st.buffer[st.start]))
    case LogRoot => st.(rNote := RootNote(false))
    case LinkRoot =>
      st.(receiver := Linked(st.receiver.o), rNote := RootNote(true), book := Take(st.book, st.receiver.o))
    case StoreRoot => DoStoreRoot(st)
    case LogDrop => st.(rNote := SlotNote(st.start, st.receiver.o, false))
    case UnlinkSlot =>
      st.(receiver := Dropped(st.receiver.o), rNote := SlotNote(st.start, st.receiver.o, true),
          book := Give(st.book, st.receiver.o))
    case ClearSlot => DoClearSlot(st)
    case MoveStart => st.(receiver := Idle, start := (st.start + 1) % MESSAGE_BUFFER_SIZE, passed := st.passed + 1)
    case OtherR => st.(rNote := NoNote)
  }

  function ApplyM(st: State, a: MStep): State
    requires EnabledM(st, a)
  {
    match a
    case CrashS => st.(sLife := Down)
    case ReplayS => DoReplayS(st)
    case SweepS => DoSweepS(st)
    case CrashR => st.(rLife := Down)
    case ReplayR => DoReplayR(st)
    case SweepR => DoSweepR(st)
  }

  /** The books after a holder has come or gone. */
  function Booked(b: Book, a: HStep): Book {
    match a
    case HoldS(o) => Take(b, o).(sHeld := b.sHeld + multiset{o})
    case DropS(o) => Give(b, o).(sHeld := b.sHeld - multiset{o})
    case ScanS(o) => Give(b, o).(sHeld := b.sHeld - multiset{o})
    case HoldR(o) => Take(b, o).(rHeld := b.rHeld + multiset{o})
    case DropR(o) => Give(b, o).(rHeld := b.rHeld - multiset{o})
    case ScanR(o) => Give(b, o).(rHeld := b.rHeld - multiset{o})
    case HoldO(o) => Take(b, o).(others := b.others + multiset{o})
    case DropO(o) => Give(b, o).(others := b.others - multiset{o})
  }

  /** Dropping a root leaves another record. */
  function ApplyH(st: State, a: HStep): State {
    st.(book := Booked(st.book, a), sNote := if a.DropS? then NoNote else st.sNote,
        rNote := if a.DropR? then NoNote else st.rNote)
  }

  function Apply(st: State, a: Step): State
    requires Enabled(st, a)
  {
    match a
    case S(s) => ApplyS(st, s)
    case R(r) => ApplyR(st, r)
    case M(m) => ApplyM(st, m)
    case H(h) => ApplyH(st, h)
  }

  // ----- the invariant

  /** The k-th slot from the start of the window on. */
  function At(start: nat, k: nat): nat {
    if start + k < MESSAGE_BUFFER_SIZE then start + k else start + k - MESSAGE_BUFFER_SIZE
  }

  /** The slot before. */
  function Prev(i: nat): int {
    if i == 0 then MESSAGE_BUFFER_SIZE - 1 else i - 1
  }

  /** Objects in flight. */
  function Len(st: State): int {
    |st.sent| - st.passed
  }

  ghost predicate IndicesOk(st: State) {
    && |st.buffer| == MESSAGE_BUFFER_SIZE && st.start < MESSAGE_BUFFER_SIZE
    && 0 <= Len(st) <= MESSAGE_BUFFER_SIZE - 1 && st.end == At(st.start, Len(st))
    && (st.sender.HalfChecked? && st.end + 1 < MESSAGE_BUFFER_SIZE ==> Len(st) < MESSAGE_BUFFER_SIZE - 1)
    && (st.sender.Ready? || st.sender.Counted? || st.sender.Stored? ==> Len(st) < MESSAGE_BUFFER_SIZE - 1)
    && 0 !in st.sent && (!st.sender.Resting? ==> st.sender.o != 0)
  }

  /** The sender's newest record: the operation in progress, or the last object sent. */
  ghost predicate SenderNoteOk(st: State) {
    && !st.sNote.RootNote?
    && (st.sNote.SlotNote? && !st.sNote.done ==> st.sender.Ready? && st.sNote == SlotNote(st.end, st.sender.o, false))
    && (st.sender.Counted? || st.sender.Stored? ==> st.sNote == SlotNote(st.end, st.sender.o, true))
    && (st.sNote.SlotNote? && st.sNote.done && !st.sender.Counted? && !st.sender.Stored? ==>
          st.sent != [] && st.sNote.o == st.sent[|st.sent| - 1] && st.sNote.slot == Prev(st.end))
    && (st.sLife.Replayed? || st.sLife.Gone? ==> !st.sender.Counted?)
  }

  /** The receiver's newest record: the operation in progress, or the last slot emptied. */
  ghost predicate ReceiverNoteOk(st: State) {
    && (st.rNote.RootNote? ==> if st.rNote.done then st.receiver.Linked? || st.receiver.Rooted? else st.receiver.Seen?)
    && (st.receiver.Linked? ==> st.rNote == RootNote(true))
    && (st.receiver.Dropped? || st.receiver.Cleared? ==> st.rNote == SlotNote(st.start, st.receiver.o, true))
    && (st.rNote.SlotNote? && !st.rNote.done ==>
          st.receiver.Rooted? && st.rNote == SlotNote(st.start, st.receiver.o, false))
    && (st.rNote.SlotNote? && st.rNote.done && !st.receiver.Dropped? && !st.receiver.Cleared? ==>
          st.rNote.slot == Prev(st.start) && (st.receiver.Idle? || st.receiver.Seen?))
    && (st.rLife.Replayed? || st.rLife.Gone? ==> !st.receiver.Linked? && !st.receiver.Dropped?)
  }

  /** The receiver's root already holds the object at the start of the window. */
  predicate Has(r: Receiver) {
    r.Rooted? || r.Dropped? || r.Cleared?
  }

  ghost predicate ReceiverOk(st: State) {
    && (!st.receiver.Idle? ==>
          st.passed < |st.sent| && st.receiver.o == st.sent[st.passed] && (st.attached || st.rLife.Gone?))
    && st.passed <= |st.sent| && st.swept <= |st.sent|
    && st.got == st.sent[..st.passed] + (if Has(st.receiver) then [st.receiver.o] else [])
    && (st.attached ==> !st.rLife.Gone?)
    && (!st.attached && !st.rLife.Gone? ==> st.passed == 0 && st.receiver.Idle?)
    && (st.swept > st.passed ==> st.rLife.Gone? || (st.sLife.Gone? && st.receiver.Idle?))
  }

  /** Slots of the window hold what was sent, in order, but the first may be cleared already,
      and a sweep may have passed; all others are null, but for the one the sender has just written. */
  function Content(st: State, k: nat): Obj {
    if k < Len(st) then
      (if (k == 0 && st.receiver.Cleared?) || st.passed + k < st.swept then 0 else st.sent[st.passed + k])
    else if k == Len(st) && st.sender.Stored? && !st.sLife.Gone? then st.sender.o
    else 0
  }

  /** Nothing is in flight any more that the receiver could still take. */
  predicate Drained(st: State) {
    Len(st) == 0 || (Len(st) == 1 && st.receiver.Cleared?) || (st.rLife.Gone? && st.swept == |st.sent|)
  }

  /** An object put back lies in a slot that should be null, where nobody reads any more. */
  ghost predicate HauntOk(st: State) {
    && (st.haunted || st.book.over != multiset{} ==>
          (st.sLife.Replayed? || st.sLife.Gone?) && Drained(st) && !st.sender.Stored?)
    && (st.haunted ==> Completed(st) && st.book.over == multiset{})
  }

  /** What a side holds while it is at work, and after its recovery. */
  ghost predicate HoldsOk(st: State) {
    && (!st.sender.Resting? && st.sLife.Up? ==> st.sender.o in st.book.sHeld)
    && (st.sLife.Gone? ==> st.book.sHeld == multiset{}) && (st.rLife.Gone? ==> st.book.rHeld == multiset{})
    && (st.sLife.Gone? && !st.attached ==> st.swept == |st.sent|)
  }

  function Held(st: State, k: nat): Obj {
    if st.haunted && st.sNote.SlotNote? && At(st.start, k) == st.sNote.slot then st.sNote.o else Content(st, k)
  }

  ghost predicate SlotsOk(st: State)
    requires IndicesOk(st)
  {
    forall k: nat {:trigger At(st.start, k)} | k < MESSAGE_BUFFER_SIZE :: st.buffer[At(st.start, k)] == Held(st, k)
  }


  /** A link to a slot counted but not stored. */
  function SlotDue(s: Sender): multiset<Obj> {
    if s.Counted? then multiset{s.o} else multiset{}
  }

  /** A link to a root counted but not stored. */
  function RootDue(r: Receiver): multiset<Obj> {
    if r.Linked? then multiset{r.o} else multiset{}
  }

  /** A slot whose unlink is taken off but not cleared. */
  function SlotLeft(r: Receiver): multiset<Obj> {
    if r.Dropped? then multiset{r.o} else multiset{}
  }

  /** What the roots and other slots hold. */
  function Holders(b: Book): multiset<Obj> {
    b.sHeld + b.rHeld + b.others
  }

  /** What holds objects besides the slots of the ring. */
  function Beside(st: State): multiset<Obj> {
    Holders(st.book) + SlotDue(st.sender) + RootDue(st.receiver)
  }

  /** Everything that holds an object. */
  function Due(st: State): multiset<Obj> {
    Beside(st) + NonNull(st.buffer)
  }

  /** Slots without a count: one already unlinked, and one that a replay has filled again. */
  function Uncounted(st: State): multiset<Obj> {
    SlotLeft(st.receiver) + (if st.haunted && st.sNote.SlotNote? then multiset{st.sNote.o} else multiset{})
  }

  /** The promise: each object has as many counts as it has holders, an unlink taken off but not
      cleared being no holder any more. */
  ghost predicate Balanced(st: State) {
    st.book.cnt + SlotLeft(st.receiver) == Due(st)
  }

  predicate Sums(cnt: multiset<Obj>, over: multiset<Obj>, back: multiset<Obj>, due: multiset<Obj>) {
    cnt + over + back == due
  }

  /** What is true in every run: the balance, but for an object put back and for what a sweep
      has given back too much. */
  ghost predicate Accounted(st: State) {
    Sums(st.book.cnt, st.book.over, Uncounted(st), Due(st))
  }

  ghost predicate Shapes(st: State) {
    && IndicesOk(st) && SenderNoteOk(st) && ReceiverNoteOk(st) && ReceiverOk(st) && HauntOk(st) && HoldsOk(st)
    && SlotsOk(st)
  }

  ghost predicate Inv(st: State) {
    Shapes(st) && Accounted(st)
  }
}
