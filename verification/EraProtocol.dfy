/** The era-based reference-count protocol as a step relation. A step is one access
    to shared memory; a client may crash between any two of its steps, and the
    monitor then repairs what it left while the other clients keep running. */
module EraProtocol {
  import opened Common
  import opened RefInfo
  import opened RedoLog

  const MAX_THREAD := 1024

  /** Ids the monitor's row scan covers (rows are 1-based, the scan stops below MAX_THREAD). */
  predicate IsId(t: ClientId) {
    1 <= t < MAX_THREAD
  }

  /** Where a client stands.
      `link_reference` and `unlink_reference`: Begun, Saw (word read), Marked (era matrix
      updated), Logged (record written), Swapped (CAS done), Stored (slot written), and
      Freeing when the count reached 0.
      `cxl_ref_alloc`: Rooted (root points to the block), Popped (block off its free list),
      Stamping (era bumped, word not yet written). */
  datatype Pc = Idle | Begun | Saw | Marked | Logged | Swapped | Stored | Freeing
              | Rooted | Popped | Stamping
  {
    /** The CAS has not succeeded yet, and the word read is at hand. */
    predicate Sees() { Saw? || Marked? || Logged? }

    /** A reference operation whose CAS has not succeeded yet. */
    predicate Trying() { Begun? || Sees() }

    predicate Allocating() { Rooted? || Popped? || Stamping? }
  }

  /** Up, crashed, or how far the monitor has come with the crashed client. */
  datatype Phase = Up | Down | Scanning(row: nat, max: nat) | Decided(need: bool) | Recovered

  datatype Client = Client(
    phase: Phase,
    pc: Pc,
    link: bool,        // the operation in progress is a link
    ref: Slot,         // its slot
    refed: Obj,        // its object
    via: Slot,         // for a link: the counted slot through which the client knows the object
    saw: Word,         // the word last read (in Stamping: the word about to be written)
    torn: Slot,        // root of an unfinished allocation, 0 if none: it holds no count
    ring: Ring,        // the redo ring
    last: Rec,         // history: the newest record since the ring was cleared
    given: bool)       // history: the slot of `last` was handed to another client since

  datatype State = State(
    word: map<Obj, Word>,
    home: map<Obj, ClientId>,                  // owner of the block's segment
    pool: set<Obj>,                            // blocks on a free list
    heads: set<Obj>,                           // those at the head of their page's `free`
    slot: map<Slot, Obj>,                      // 0 is null
    owner: map<Slot, ClientId>,                // who may write the slot
    era: map<ClientId, map<ClientId, nat>>,     // era[j][t]: the largest era of t that j has seen
    client: map<ClientId, Client>)

  /** Steps of `link_reference` and `unlink_reference`, with the freeing of a dead object. */
  datatype RefAct =
    | BeginLink(s: Slot, o: Obj, via: Slot) | BeginUnlink(s: Slot)
    | Read | Mark | Log | CasOk | CasFail | Store | Bump | Zero

  /** Steps of `cxl_ref_alloc`, the refilling of a page's free list, the clearing of the
      ring on the slow path, and the hand-over of a slot (a message-queue index moves). */
  datatype OwnAct =
    | Root(s: Slot, o: Obj) | Pop(nxt: Obj) | Draw | Stamp
    | Refill(o: Obj) | ClearRing | Give(s: Slot, to: ClientId)

  /** A crash, and the monitor's steps for the crashed client. */
  datatype MonAct = Crash | RedoStart | RedoScan | RedoWrite | Skip(s: Slot) | Release(s: Slot)

  datatype Act = Ref(ref: RefAct) | Own(own: OwnAct) | Mon(mon: MonAct)

  /** The client, row and slot tables are there. Entries of a row never written are zero. */
  ghost predicate Shape(st: State) {
    && (forall t: nat | IsId(t) :: t in st.client && t in st.era)
    && st.owner.Keys == st.slot.Keys
    && (forall s | s in st.slot :: IsId(st.owner[s]))
  }

  predicate Owns(st: State, t: ClientId, s: Slot) {
    s in st.slot && s in st.owner && st.owner[s] == t
  }

  /** The block lies in a segment of t. */
  predicate Homed(st: State, o: Obj, t: ClientId) {
    o in st.home && st.home[o] == t
  }

  /** An entry of the era matrix. */
  function Era(st: State, j: ClientId, t: ClientId): nat {
    if j in st.era && t in st.era[j] then st.era[j][t] else 0
  }

  function SetEra(st: State, j: ClientId, t: ClientId, e: nat): map<ClientId, map<ClientId, nat>>
    requires j in st.era
  {
    var row: map<ClientId, nat> := st.era[j][t := e];
    st.era[j := row]
  }

  /** The word of an object; anything outside the table reads as zero. */
  function WordAt(st: State, o: Obj): Word {
    if o in st.word then st.word[o] else ZERO
  }

  // ----- steps

  function Ready(c: Client): bool { c.phase.Up? && c.pc.Idle? }

  function Running(c: Client): bool { c.phase.Up? || c.phase.Recovered? }

  /** A row of the column the monitor scans; row 0 lies outside the matrix and reads as zero. */
  function Row(st: State, j: nat, t: ClientId): nat {
    if j == 0 then 0 else Era(st, j, t)
  }

  /** The CAS follows the record; the monitor, which writes no record, goes without. */
  predicate AtCas(c: Client) {
    if c.phase.Up? then c.pc.Logged? else c.phase.Recovered? && c.pc.Marked?
  }

  predicate EnabledRef(st: State, t: ClientId, a: RefAct)
    requires t in st.client
  {
    var c := st.client[t];
    match a
    case BeginLink(s, o, via) =>
      // the slot is empty, and the client reaches the object through a counted slot of its own
      Ready(c) && Owns(st, t, s) && Owns(st, t, via) && s != via && st.slot[s] == 0 && st.slot[via] == o && o != 0
    case BeginUnlink(s) => Ready(c) && Owns(st, t, s) && st.slot[s] != 0
    case Read => Running(c) && c.pc.Begun?
    case Mark => Running(c) && c.pc.Saw?
    case Log => c.phase.Up? && c.pc.Marked?
    case CasOk => AtCas(c) && WordAt(st, c.refed) == c.saw
    case CasFail => AtCas(c) // also spuriously: the code uses the weak form
    case Store => Running(c) && c.pc.Swapped?
    case Bump => Running(c) && c.pc.Stored?
    case Zero => Running(c) && c.pc.Freeing?
  }

  predicate EnabledOwn(st: State, t: ClientId, a: OwnAct)
    requires t in st.client
  {
    var c := st.client[t];
    match a
    case Root(s, o) => // a fresh root: recycling keeps it off the ring
      Ready(c) && Owns(st, t, s) && st.slot[s] == 0 && Unlogged(c.ring, s) && o in st.heads && Homed(st, o, t)
    case Pop(nxt) =>
      && c.phase.Up? && c.pc.Rooted?
      && (nxt == 0 || (nxt in st.pool && nxt != c.refed && Homed(st, nxt, t)))
    case Draw => c.phase.Up? && c.pc.Popped?
    case Stamp => c.phase.Up? && c.pc.Stamping?
    case Refill(o) => Ready(c) && o in st.pool && Homed(st, o, t)
    case ClearRing => Ready(c)
    case Give(s, to) => Ready(c) && Owns(st, t, s) && IsId(to)
  }

  predicate EnabledMon(st: State, t: ClientId, a: MonAct)
    requires t in st.client
  {
    var c := st.client[t];
    match a
    case Crash => c.phase.Up?
    case RedoStart => c.phase.Down?
    case RedoScan => c.phase.Scanning?
    case RedoWrite => c.phase.Decided?
    case Skip(s) => Scannable(st, t, s) && (st.slot[s] in st.heads || WordAt(st, st.slot[s]).cnt == 0)
    case Release(s) => Scannable(st, t, s) && st.slot[s] !in st.heads && WordAt(st, st.slot[s]).cnt != 0
  }

  /** The root scan of a replayed client has reached a non-null root. */
  predicate Scannable(st: State, t: ClientId, s: Slot)
    requires t in st.client
  {
    st.client[t].phase.Recovered? && st.client[t].pc.Idle? && Owns(st, t, s) && st.slot[s] != 0
  }

  predicate Enabled(st: State, t: ClientId, a: Act)
    requires t in st.client
  {
    match a
    case Ref(r) => EnabledRef(st, t, r)
    case Own(w) => EnabledOwn(st, t, w)
    case Mon(m) => EnabledMon(st, t, m)
  }

  /** Link adds one to the count it saw, unlink takes one (wrapping at zero). */
  function SwappedCnt(c: Client): nat {
    if c.link then c.saw.cnt + 1 else if c.saw.cnt >= 1 then c.saw.cnt - 1 else CNT_LIMIT - 1
  }

  function OpRec(c: Client, era: nat): Rec {
    Rec(if c.link then LinkRef else UnlinkRef, c.saw.cnt, era, c.ref, c.refed)
  }

  function SetClient(st: State, t: ClientId, c: Client): State {
    st.(client := st.client[t := c])
  }

  function DoRead(st: State, t: ClientId, c: Client): State {
    SetClient(st, t, c.(pc := Saw, saw := WordAt(st, c.refed)))
  }

  /** Record the era seen in the own row, before the CAS can hide it. */
  function DoMark(st: State, t: ClientId, c: Client): State
    requires t in st.era
  {
    var marked := SetClient(st, t, c.(pc := Marked));
    if c.saw.era > Era(st, t, c.saw.cid) then marked.(era := SetEra(st, t, c.saw.cid, c.saw.era)) else marked
  }

  function DoLog(st: State, t: ClientId, c: Client): State {
    var r := OpRec(c, Era(st, t, t));
    SetClient(st, t, c.(pc := Logged, ring := WriteRing(c.ring, r), last := r, given := false))
  }

  function DoCas(st: State, t: ClientId, c: Client): State {
    SetClient(st, t, c.(pc := Swapped)).(word := st.word[c.refed := Word(t, SwappedCnt(c), Era(st, t, t))])
  }

  function DoStore(st: State, t: ClientId, c: Client): State {
    SetClient(st, t, c.(pc := Stored)).(slot := st.slot[c.ref := if c.link then c.refed else 0])
  }

  function DoBump(st: State, t: ClientId, c: Client): State
    requires t in st.era
  {
    var pc := if !c.link && c.saw.cnt == 1 then Freeing else Idle;
    SetClient(st, t, c.(pc := pc)).(era := SetEra(st, t, t, Era(st, t, t) + 1))
  }

  /** `cxl_free`: zero the header and put the block on a free list. */
  function DoZero(st: State, t: ClientId, c: Client): State {
    SetClient(st, t, c.(pc := Idle)).(word := st.word[c.refed := ZERO], pool := st.pool + {c.refed})
  }

  function DoRoot(st: State, t: ClientId, c: Client, s: Slot, o: Obj): State {
    SetClient(st, t, c.(pc := Rooted, ref := s, refed := o, torn := s)).(slot := st.slot[s := o])
  }

  function DoPop(st: State, t: ClientId, c: Client, nxt: Obj): State {
    SetClient(st, t, c.(pc := Popped))
    .(pool := st.pool - {c.refed}, heads := st.heads - {c.refed} + (if nxt == 0 then {} else {nxt}))
  }

  function DoDraw(st: State, t: ClientId, c: Client): State
    requires t in st.era
  {
    var own := Era(st, t, t);
    SetClient(st, t, c.(pc := Stamping, saw := Word(t, 1, own))).(era := SetEra(st, t, t, own + 1))
  }

  function DoStamp(st: State, t: ClientId, c: Client): State {
    SetClient(st, t, c.(pc := Idle, torn := 0)).(word := st.word[c.refed := c.saw])
  }

  function DoGive(st: State, t: ClientId, c: Client, s: Slot, to: ClientId): State {
    var given := c.given || (c.last != EMPTY && c.last.ref == s);
    SetClient(st, t, c.(given := given)).(owner := st.owner[s := to])
  }

  /** The monitor picks the newest record and looks at the object's stamp. */
  function DoRedoStart(st: State, t: ClientId, c: Client): State {
    var r := Newest(c.ring);
    var w := WordAt(st, r.refed);
    var phase :=
      if r.func.NoFunc? then Decided(false)
      else if w.cid == t && w.era == r.era then Decided(true)
      else Scanning(0, 0);
    SetClient(st, t, c.(phase := phase))
  }

  /** One row of the scan; past the last row the decision falls. */
  function DoRedoScan(st: State, t: ClientId, c: Client): State
    requires c.phase.Scanning?
  {
    var j := c.phase.row;
    var max := c.phase.max;
    var phase :=
      if j >= MAX_THREAD then Decided(Newest(c.ring).era <= max)
      else if j != t && Row(st, j, t) > max then Scanning(j + 1, Row(st, j, t))
      else Scanning(j + 1, max);
    SetClient(st, t, c.(phase := phase))
  }

  function DoRedoWrite(st: State, t: ClientId, c: Client): State
    requires c.phase.Decided?
  {
    var r := Newest(c.ring);
    var done := SetClient(st, t, c.(phase := Recovered, pc := Idle));
    if c.phase.need then done.(slot := st.slot[r.ref := r.Val()]) else done
  }

  /** The root scan clears a root whose object is uncounted, without touching a count. */
  function DoSkip(st: State, t: ClientId, c: Client, s: Slot): State {
    SetClient(st, t, c.(torn := if c.torn == s then 0 else c.torn)).(slot := st.slot[s := 0])
  }

  function ApplyRef(st: State, t: ClientId, a: RefAct): State
    requires t in st.client && t in st.era && EnabledRef(st, t, a)
  {
    var c := st.client[t];
    match a
    case BeginLink(s, o, via) => SetClient(st, t, c.(pc := Begun, link := true, ref := s, refed := o, via := via))
    case BeginUnlink(s) => SetClient(st, t, c.(pc := Begun, link := false, ref := s, refed := st.slot[s]))
    case Read => DoRead(st, t, c)
    case Mark => DoMark(st, t, c)
    case Log => DoLog(st, t, c)
    case CasOk => DoCas(st, t, c)
    case CasFail => SetClient(st, t, c.(pc := Begun))
    case Store => DoStore(st, t, c)
    case Bump => DoBump(st, t, c)
    case Zero => DoZero(st, t, c)
  }

  function ApplyOwn(st: State, t: ClientId, a: OwnAct): State
    requires t in st.client && t in st.era && EnabledOwn(st, t, a)
  {
    var c := st.client[t];
    match a
    case Root(s, o) => DoRoot(st, t, c, s, o)
    case Pop(nxt) => DoPop(st, t, c, nxt)
    case Draw => DoDraw(st, t, c)
    case Stamp => DoStamp(st, t, c)
    case Refill(o) => SetClient(st, t, c).(heads := st.heads + {o})
    case ClearRing => SetClient(st, t, c.(ring := CLEARED, last := EMPTY, given := false))
    case Give(s, to) => DoGive(st, t, c, s, to)
  }

  function ApplyMon(st: State, t: ClientId, a: MonAct): State
    requires t in st.client && t in st.era && EnabledMon(st, t, a)
  {
    var c := st.client[t];
    match a
    case Crash => SetClient(st, t, c.(phase := Down))
    case RedoStart => DoRedoStart(st, t, c)
    case RedoScan => DoRedoScan(st, t, c)
    case RedoWrite => DoRedoWrite(st, t, c)
    case Skip(s) => DoSkip(st, t, c, s)
    case Release(s) => SetClient(st, t, c.(pc := Begun, link := false, ref := s, refed := st.slot[s]))
  }

  function Apply(st: State, t: ClientId, a: Act): State
    requires t in st.client && t in st.era && Enabled(st, t, a)
  {
    match a
    case Ref(r) => ApplyRef(st, t, r)
    case Own(w) => ApplyOwn(st, t, w)
    case Mon(m) => ApplyMon(st, t, m)
  }

  // ----- counting

  /** What a slot is counted for: its content, except that a committed but unfinished
      operation already counts (link) or no longer counts (unlink), and the root of an
      unfinished allocation does not count yet. */
  function Credit(st: State, s: Slot): Obj
    requires Shape(st) && s in st.slot
  {
    var c := st.client[st.owner[s]];
    if c.torn == s then 0
    else if c.pc.Swapped? && c.ref == s then (if c.link then c.refed else 0)
    else st.slot[s]
  }

  function Credits(st: State): map<Slot, Obj>
    requires Shape(st)
  {
    map s | s in st.slot :: Credit(st, s)
  }

  function Holders(m: map<Slot, Obj>, o: Obj): set<Slot> {
    set s | s in m && m[s] == o
  }

  function CountOf(m: map<Slot, Obj>, o: Obj): nat {
    |Holders(m, o)|
  }
}
