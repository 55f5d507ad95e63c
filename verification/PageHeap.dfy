/** `cxl_free`, the taking of blocks and their collection, on the pages of one client, which may
    lie in several segments. */
module PageHeap {
  import opened Addresses
  import opened RedoLog
  import opened Pages

  type Metas = map<Page, Meta>

  // ----- blocks that the redo ring names

  /** Some line names a slot in the block. */
  predicate Names(ring: Ring, b: Block, size: nat) {
    exists i | 0 <= i < |ring| :: b <= ring[i].ref < b + size
  }

  /** The block is in use and the slot lies in it. */
  predicate Holds(place: Places, meta: Metas, b: Block, slot: Slot) {
    b in place && PageOf(b) in meta && b <= slot < b + meta[PageOf(b)].size
  }

  function Holding(place: Places, meta: Metas, slot: Slot): set<Block> {
    set b | b in place && Holds(place, meta, b, slot)
  }

  /** Every block of which the ring names a slot is logged. */
  ghost predicate RingLogged(ring: Ring, place: Places, meta: Metas, logged: set<Block>) {
    forall b | b in place && PageOf(b) in meta && Names(ring, b, meta[PageOf(b)].size) :: b in logged
  }

  lemma RecordLogs(ring: Ring, r: Rec, place: Places, meta: Metas, logged: set<Block>)
    requires RingLogged(ring, place, meta, logged)
    ensures RingLogged(WriteRing(ring, r), place, meta, logged + Holding(place, meta, r.ref))
  {
    forall b | b in place && PageOf(b) in meta && Names(WriteRing(ring, r), b, meta[PageOf(b)].size)
      ensures b in logged + Holding(place, meta, r.ref)
    {
      var i :| 0 <= i < |ring| && b <= WriteRing(ring, r)[i].ref < b + meta[PageOf(b)].size;
      if i != r.era % REDO_CACHELINE_CNT {
        assert Names(ring, b, meta[PageOf(b)].size);
      }
    }
  }

  /** Blocks and pages of the same sizes, or fewer of them. */
  lemma LoggedStays(ring: Ring, place: Places, meta: Metas, place': Places, meta': Metas,
                    logged: set<Block>)
    requires RingLogged(ring, place, meta, logged) && place'.Keys <= place.Keys
    requires forall p | p in meta' :: p in meta && meta'[p].size == meta[p].size
    ensures RingLogged(ring, place', meta', logged)
  {
  }

  lemma ClearedLogs(place: Places, meta: Metas)
    requires 0 !in place
    ensures RingLogged(CLEARED, place, meta, {})
  {
  }

  /** No line names any slot of a block that is not logged: such a slot may become a root or
      be linked (EraProtocol.EnabledOwn). */
  lemma NotNamed(ring: Ring, place: Places, meta: Metas, logged: set<Block>, b: Block, slot: Slot)
    requires RingLogged(ring, place, meta, logged) && Holds(place, meta, b, slot) && b !in logged
    ensures Unlogged(ring, slot)
  {
    if !Unlogged(ring, slot) {
      assert Names(ring, b, meta[PageOf(b)].size);
    }
  }

  /** The loop of `cxl_page_init`: every block is linked to the one after it, the last to
      nothing, and no other link changes. */
  method ThreadPage(next: Links, p: Page, size: nat) returns (links: Links)
    requires p > 0 && 0 < size <= PAGE_SIZE
    ensures Threaded(links, Grid(p, size, Capacity(size)), 0)
    ensures forall b | b in next && b !in Grid(p, size, Capacity(size)) :: b in links && links[b] == next[b]
  {
    ghost var grid := Grid(p, size, Capacity(size));
    GridGood(p, size);
    var last := BlockAt(p, size, PAGE_SIZE / size - 1);
    var block := BlockAt(p, size, 0);
    links := next;
    ghost var k := 0;
    while block < last
      invariant k < |grid| && block == grid[k] <= last
      invariant forall i | 0 <= i < k :: grid[i] in links && links[grid[i]] == grid[i + 1]
      invariant forall b | b in next && b !in grid :: b in links && links[b] == next[b]
      decreases |grid| - k
    {
      GridOrder(p, size, k);
      links := links[block := block + size];
      block := block + size;
      k := k + 1;
      GridOrder(p, size, k);
    }
    GridOrder(p, size, k);
    links := links[last := 0];
  }

  // ----- the operations on the values of all fields

  ghost predicate Sound(next: Links, meta: Metas, tops: Tops, ring: Ring, place: Places, sheets: Sheets,
                        stacks: Stacks, logged: set<Block>)
  {
    && Headers(meta, sheets) && HeapOk(next, place, sheets, tops, stacks, logged)
    && RingLogged(ring, place, meta, logged) && Homed(meta, tops)
  }

  /** The pages lie in segments of the client. */
  ghost predicate Homed(meta: Metas, tops: Tops) {
    forall p | p in meta :: p / PAGES_PER_SEGMENT in tops
  }

  lemma TakeSound(next: Links, meta: Metas, tops: Tops, ring: Ring, place: Places, sheets: Sheets, stacks: Stacks,
                  logged: set<Block>, p: Page)
    requires Sound(next, meta, tops, ring, place, sheets, stacks, logged) && p in meta && meta[p].free != 0
    ensures var b := meta[p].free;
            && p in sheets && sheets[p].meta.free in next && sheets[p].free != []
            && b in next && b in place && place[b].Free? && PageOf(b) == p && b !in logged
            && Sound(next, meta[p := meta[p].(free := next[b], used := meta[p].used + 1)], tops, ring,
                     place[b := Live], sheets[p := Pages.Take(next, sheets[p])], stacks, logged)
  {
    var b := meta[p].free;
    TakeKeeps(next, place, sheets, tops, stacks, logged, p);
    LoggedStays(ring, place, meta, place[b := Live], meta[p := meta[p].(free := next[b], used := meta[p].used + 1)],
                logged);
  }

  lemma PutSound(next: Links, meta: Metas, tops: Tops, ring: Ring, place: Places, sheets: Sheets, stacks: Stacks,
                 logged: set<Block>, b: Block)
    requires Sound(next, meta, tops, ring, place, sheets, stacks, logged) && b in place && place[b].Live?
    ensures var p := PageOf(b);
            && p in meta && p in sheets && meta[p].used > 0 && sheets[p].meta.used > 0
            && Sound(next[b := meta[p].localFree], meta[p := meta[p].(localFree := b, used := meta[p].used - 1)], tops,
                     ring, place[b := Local], sheets[p := Put(b, sheets[p])], stacks, logged)
  {
    var p := PageOf(b);
    PutKeeps(next, place, sheets, tops, stacks, logged, b);
    LoggedStays(ring, place, meta, place[b := Local], meta[p := meta[p].(localFree := b, used := meta[p].used - 1)],
                logged);
  }

  lemma PopSound(next: Links, meta: Metas, tops: Tops, ring: Ring, place: Places, sheets: Sheets, stacks: Stacks,
                 logged: set<Block>, g: SegId)
    requires Sound(next, meta, tops, ring, place, sheets, stacks, logged) && g in tops && tops[g] != 0
    ensures var b := tops[g];
            var p := PageOf(b);
            && b in next && b in place && place[b].Remote? && SegOf(b) == g && g in stacks && stacks[g] != []
            && p in meta && p in sheets && meta[p].used > 0 && sheets[p].meta.used > 0
            && Sound(next[b := meta[p].localFree], meta[p := meta[p].(localFree := b, used := meta[p].used - 1)],
                     tops[g := next[b]], ring, place[b := Local], sheets[p := Put(b, sheets[p])],
                     stacks[g := stacks[g][1..]], logged)
  {
    var b := tops[g];
    var p := PageOf(b);
    PopKeeps(next, place, sheets, tops, stacks, logged, g);
    LoggedStays(ring, place, meta, place[b := Local], meta[p := meta[p].(localFree := b, used := meta[p].used - 1)],
                logged);
  }

  lemma PushSound(next: Links, meta: Metas, tops: Tops, ring: Ring, place: Places, sheets: Sheets, stacks: Stacks,
                  logged: set<Block>, b: Block)
    requires Sound(next, meta, tops, ring, place, sheets, stacks, logged) && b in place && place[b].Live?
    ensures var g := SegOf(b);
            && g in tops && g in stacks
            && Sound(next[b := tops[g]], meta, tops[g := b], ring, place[b := Remote], sheets,
                     stacks[g := [b] + stacks[g]], logged)
  {
    PushKeeps(next, place, sheets, tops, stacks, logged, b);
    LoggedStays(ring, place, meta, place[b := Remote], meta, logged);
  }

  lemma RefillSound(next: Links, meta: Metas, tops: Tops, ring: Ring, place: Places, sheets: Sheets, stacks: Stacks,
                    p: Page)
    requires Sound(next, meta, tops, ring, place, sheets, stacks, {}) && p in meta && meta[p].free == 0
    ensures p in sheets
    ensures Sound(next, meta[p := meta[p].(free := meta[p].localFree, localFree := 0)], tops, ring,
                  Refilled(place, p), sheets[p := Refill(sheets[p])], stacks, {})
  {
    RefillKeeps(next, place, sheets, tops, stacks, p);
    LoggedStays(ring, place, meta, Refilled(place, p), meta[p := meta[p].(free := meta[p].localFree, localFree := 0)],
                {});
  }

  lemma CarveSound(next: Links, meta: Metas, tops: Tops, place: Places, sheets: Sheets, stacks: Stacks, links: Links,
                   p: Page, size: nat)
    requires Sound(next, meta, tops, CLEARED, place, sheets, stacks, {}) && p !in meta && p > 0
    requires 0 < size <= PAGE_SIZE && p / PAGES_PER_SEGMENT in tops
    requires Threaded(links, Grid(p, size, Capacity(size)), 0)
    requires forall b | b in next && b !in Grid(p, size, Capacity(size)) :: b in links && links[b] == next[b]
    ensures Sound(links, meta[p := NewMeta(p, size)], tops, CLEARED, Carved(place, Grid(p, size, Capacity(size))),
                  sheets[p := NewSheet(p, size)], stacks, {})
  {
    CarveKeeps(next, place, sheets, tops, stacks, links, p, size);
    ClearedLogs(Carved(place, Grid(p, size, Capacity(size))), meta[p := NewMeta(p, size)]);
  }

  /** A segment with no page in use. */
  lemma DropSound(next: Links, meta: Metas, tops: Tops, ring: Ring, place: Places, sheets: Sheets, stacks: Stacks,
                  logged: set<Block>, g: SegId)
    requires Sound(next, meta, tops, ring, place, sheets, stacks, logged)
    requires forall p | p in meta :: p / PAGES_PER_SEGMENT != g
    ensures Sound(next, meta, tops - {g}, ring, place, sheets, stacks - {g}, logged)
  {
    var tops', stacks' := tops - {g}, stacks - {g};
    forall q | q in tops' ensures StackOk(next, place, q, tops'[q], stacks'[q]) {
      assert StackOk(next, place, q, tops[q], stacks[q]);
    }
  }

  /** No block of the page is live or waiting to be collected. */
  ghost predicate Unused(place: Places, p: Page) {
    forall b | b in place && PageOf(b) == p :: !place[b].Out()
  }

  /** No other block of its page is. */
  ghost predicate NoOtherOut(place: Places, b: Block) {
    forall x | x in place && x != b && PageOf(x) == PageOf(b) :: !place[x].Out()
  }

  lemma NoneOut(place: Places, b: Block)
    requires b in place
    ensures Unused(place[b := Local], PageOf(b)) <==> NoOtherOut(place, b)
  {
    var place' := place[b := Local];
    if Unused(place', PageOf(b)) {
      forall x | x in place && x != b && PageOf(x) == PageOf(b) ensures !place[x].Out() {
        assert x in place' && place'[x] == place[x];
      }
    }
  }

  /** `used` falls to 0 exactly when no other block of the page is out. */
  lemma OnlyOneOut(next: Links, meta: Metas, tops: Tops, ring: Ring, place: Places, sheets: Sheets, stacks: Stacks,
                   logged: set<Block>, b: Block)
    requires Sound(next, meta, tops, ring, place, sheets, stacks, logged) && b in place && place[b].Live?
    ensures PageOf(b) in meta && meta[PageOf(b)].used > 0
    ensures meta[PageOf(b)].used == 1 <==> NoOtherOut(place, b)
  {
    var p := PageOf(b);
    PutSound(next, meta, tops, ring, place, sheets, stacks, logged, b);
    UsedIsOut(next[b := meta[p].localFree], place[b := Local], p, Put(b, sheets[p]),
              sheets[p := Put(b, sheets[p])]);
    NoneOut(place, b);
  }

  lemma UsedIsOut(next: Links, place: Places, p: Page, s: Sheet, sheets: Sheets)
    requires PagesOk(next, place, sheets) && Whole(place, sheets) && p in sheets && s == sheets[p]
    ensures s.meta.used == 0 <==> Unused(place, p)
  {
    assert PageOk(next, place, p, sheets[p]) && Covers(place, p, sheets[p].meta.size);
    Conservation(next, place, p, s);
  }

  /** The same pages are in use, with the same block sizes. */
  predicate SameSizes(meta: Metas, meta': Metas) {
    meta'.Keys == meta.Keys && forall p | p in meta :: meta'[p].size == meta[p].size
  }

  predicate SizesWithout(meta: Metas, meta': Metas, gone: set<Page>) {
    meta'.Keys == meta.Keys - gone && forall p | p in meta' :: meta'[p].size == meta[p].size
  }

  lemma WithoutPage(meta: Metas, p: Page, m: Meta)
    ensures meta[p := m] - {p} == meta - {p}
  {
  }

  /** A page with both lists empty after collecting has only live blocks. */
  lemma SpentSound(next: Links, meta: Metas, tops: Tops, ring: Ring, place: Places, sheets: Sheets, stacks: Stacks,
                   logged: set<Block>, p: Page)
    requires Sound(next, meta, tops, ring, place, sheets, stacks, logged) && p in meta
    requires p / PAGES_PER_SEGMENT in tops && tops[p / PAGES_PER_SEGMENT] == 0
    ensures meta[p].free == 0 && meta[p].localFree == 0 ==> AllLive(place, p)
  {
    var g := p / PAGES_PER_SEGMENT;
    assert StackOk(next, place, g, tops[g], stacks[g]);
    NothingFree(next, place, sheets, stacks[g], p);
  }

  class Heap {
    var next: Links                 // b->next of every block
    var meta: Metas                 // headers of the pages in use
    var threadFree: map<SegId, Block> // for each segment the top of its stack of remote frees
    var ring: Ring                  // the redo ring of the client
    ghost var place: Places
    ghost var sheets: Sheets
    ghost var stacks: Stacks
    ghost var logged: set<Block>    // blocks holding a slot that the redo ring may name

    ghost predicate Valid()
      reads this
    {
      Sound(next, meta, threadFree, ring, place, sheets, stacks, logged)
    }

    constructor ()
      ensures Valid() && meta == map[] && threadFree == map[] && ring == CLEARED
    {
      next, meta, threadFree, ring := map[], map[], map[], CLEARED;
      place, sheets, stacks, logged := map[], map[], map[], {};
    }

    /** The part of `cxl_segment_alloc` that concerns the stack. */
    method Claim(g: SegId)
      requires Valid() && g !in threadFree
      modifies this`threadFree, this`stacks
      ensures Valid() && threadFree == old(threadFree)[g := 0]
    {
      ClaimKeeps(next, place, sheets, threadFree, stacks, logged, g);
      threadFree, stacks := threadFree[g := 0], stacks[g := []];
    }

    /** The segment is given back. */
    method Drop(g: SegId)
      requires Valid() && forall p | p in meta :: p / PAGES_PER_SEGMENT != g
      modifies this`threadFree, this`stacks
      ensures Valid() && threadFree == old(threadFree) - {g}
    {
      DropSound(next, meta, threadFree, ring, place, sheets, stacks, logged, g);
      threadFree, stacks := threadFree - {g}, stacks - {g};
    }

    /** The first lines of `cxl_malloc_generic`. */
    method ClearRing()
      requires Valid()
      modifies this`ring, this`logged
      ensures Valid() && ring == CLEARED && logged == {}
    {
      ClearedLogs(place, meta);
      ring, logged := CLEARED, {};
    }

    /** A reference operation writes a record: its slot lies in a block in use, or in none of
        this client's. */
    method Record(r: Rec)
      requires Valid() && forall b | Holds(place, meta, b, r.ref) :: place[b].Live?
      modifies this`ring, this`logged
      ensures Valid() && ring == WriteRing(old(ring), r)
    {
      RecordLogs(ring, r, place, meta, logged);
      ring := WriteRing(ring, r);
      logged := logged + Holding(place, meta, r.ref);
    }

    /** The first lines of `block_to_cxlobj` and `block_to_tbr`. The block taken is on no
        list, and the redo ring names no slot in it. */
    method Take(p: Page) returns (b: Block)
      requires Valid() && p in meta && meta[p].free != 0
      modifies this`meta, this`place, this`sheets
      ensures Valid() && b == old(meta[p].free) && PageOf(b) == p
      ensures b in old(place) && old(place[b]).Free? && b in next
      ensures forall slot | b <= slot < b + old(meta[p]).size :: Unlogged(ring, slot)
      ensures place == old(place)[b := Live]
      ensures meta == old(meta)[p := old(meta)[p].(free := next[b], used := old(meta)[p].used + 1)]
    {
      TakeSound(next, meta, threadFree, ring, place, sheets, stacks, logged, p);
      b := meta[p].free;
      forall slot | b <= slot < b + meta[p].size ensures Unlogged(ring, slot) {
        NotNamed(ring, place, meta, logged, b, slot);
      }
      meta := meta[p := meta[p].(used := meta[p].used + 1)];
      meta := meta[p := meta[p].(free := next[b])];
      place, sheets := place[b := Live], sheets[p := Pages.Take(next, sheets[p])];
    }

    /** Putting a block on its page's local list. */
    method PutLocal(b: Block)
      requires Valid() && b in place && place[b].Live?
      modifies this`next, this`meta, this`place, this`sheets
      ensures Valid() && place == old(place)[b := Local]
      ensures PageOf(b) in old(meta) && old(meta)[PageOf(b)].used > 0
      ensures next == old(next)[b := old(meta)[PageOf(b)].localFree]
      ensures var m := old(meta)[PageOf(b)]; meta == old(meta)[PageOf(b) := m.(localFree := b, used := m.used - 1)]
    {
      var p := PageOf(b);
      PutSound(next, meta, threadFree, ring, place, sheets, stacks, logged, b);
      next := next[b := meta[p].localFree];
      meta := meta[p := meta[p].(localFree := b)];
      meta := meta[p := meta[p].(used := meta[p].used - 1)];
      place, sheets := place[b := Local], sheets[p := Put(b, sheets[p])];
    }

    /** `cxl_page_free`: the header is wiped. */
    method RetirePage(p: Page)
      requires Valid() && p in meta && meta[p].used == 0
      modifies this`meta, this`place, this`sheets
      ensures Valid() && meta == old(meta) - {p} && place == Retired(old(place), p)
    {
      RetireKeeps(next, place, sheets, threadFree, stacks, logged, p);
      meta := meta - {p};
      place, sheets := Retired(place, p), sheets - {p};
      LoggedStays(ring, old(place), old(meta), place, meta, logged);
    }

    /** `cxl_free` by the owner of the segment. The page is given back exactly when none of
        its other blocks is live or waiting to be collected. */
    method FreeLocally(b: Block)
      requires Valid() && b in place && place[b].Live?
      modifies this`next, this`meta, this`place, this`sheets
      ensures Valid()
      ensures PageOf(b) !in meta <==> NoOtherOut(old(place), b)
      ensures place == if PageOf(b) in meta then old(place)[b := Local] else Retired(old(place), PageOf(b))
      ensures PageOf(b) in old(meta) && old(meta)[PageOf(b)].used > 0
      ensures next == old(next)[b := old(meta)[PageOf(b)].localFree]
      ensures var p, m := PageOf(b), old(meta)[PageOf(b)];
              meta == if p in meta then old(meta)[p := m.(localFree := b, used := m.used - 1)] else old(meta) - {p}
      ensures SizesWithout(old(meta), meta, if PageOf(b) in meta then {} else {PageOf(b)})
    {
      OnlyOneOut(next, meta, threadFree, ring, place, sheets, stacks, logged, b);
      ghost var was := meta;
      PutLocal(b);
      WithoutPage(was, PageOf(b), meta[PageOf(b)]);
      if meta[PageOf(b)].used == 0 {
        RetirePage(PageOf(b));
      }
    }

    /** `cxl_free` by another client, whose CAS on the stack of the block's segment succeeds. */
    method FreeRemotely(b: Block)
      requires Valid() && b in place && place[b].Live?
      modifies this`next, this`threadFree, this`place, this`stacks
      ensures Valid() && SegOf(b) in old(threadFree) && SegOf(b) in old(stacks)
      ensures threadFree == old(threadFree)[SegOf(b) := b]
      ensures stacks == old(stacks)[SegOf(b) := [b] + old(stacks)[SegOf(b)]]
      ensures place == old(place)[b := Remote]
    {
      PushSound(next, meta, threadFree, ring, place, sheets, stacks, logged, b);
      next := next[b := threadFree[SegOf(b)]];
      threadFree := threadFree[SegOf(b) := b];
      place, stacks := place[b := Remote], stacks[SegOf(b) := [b] + stacks[SegOf(b)]];
    }

    /** Valid, but with the stack of segment g in hand starting at `top`. */
    ghost predicate Detached(g: SegId, top: Block)
      reads this
    {
      && g in threadFree && threadFree[g] == 0
      && Sound(next, meta, threadFree[g := top], ring, place, sheets, stacks, logged)
    }

    /** One round of the collecting loop. */
    method PutCollected(g: SegId, b: Block) returns (rest: Block)
      requires Detached(g, b) && b != 0 && g in stacks
      modifies this`next, this`meta, this`place, this`sheets, this`stacks
      ensures Detached(g, rest) && SameSizes(old(meta), meta) && g in stacks
      ensures |stacks[g]| < |old(stacks)[g]| && b in old(place) && old(place[b]).Remote? && SegOf(b) == g
      ensures place == old(place)[b := Local]
    {
      ghost var tops := threadFree[g := b];
      PopSound(next, meta, tops, ring, place, sheets, stacks, logged, g);
      rest := next[b];
      assert tops[g := rest] == threadFree[g := rest];
      var p := PageOf(b);
      next := next[b := meta[p].localFree];
      meta := meta[p := meta[p].(localFree := b)];
      meta := meta[p := meta[p].(used := meta[p].used - 1)];
      place, sheets, stacks := place[b := Local], sheets[p := Put(b, sheets[p])], stacks[g := stacks[g][1..]];
    }

    /** `cxl_thread_free_collect`: take the whole stack of a segment, then put each block on
        the local list of its own page. */
    method Collect(g: SegId)
      requires Valid() && g in threadFree
      modifies this`next, this`meta, this`threadFree, this`place, this`sheets, this`stacks
      ensures Valid() && threadFree == old(threadFree)[g := 0] && g in stacks && stacks[g] == []
      ensures SameSizes(old(meta), meta) && place == Collected(old(place), g)
    {
      var head := threadFree[g];
      threadFree := threadFree[g := 0];
      assert threadFree[g := head] == old(threadFree);
      while head != 0
        invariant Detached(g, head) && threadFree == old(threadFree)[g := 0] && SameSizes(old(meta), meta)
        invariant g in stacks && Collected(place, g) == Collected(old(place), g)
        decreases |stacks[g]|
      {
        ghost var before := place;
        ghost var b := head;
        head := PutCollected(g, head);
        CollectedStep(before, b);
      }
      assert threadFree[g := 0] == threadFree;
      assert StackOk(next, place, g, threadFree[g], stacks[g]);
      CollectedDone(next, place, g, stacks[g]);
    }

    /** The second half of `cxl_page_free_collect`: the local list becomes the free list if
        that one is empty. */
    method RefillPage(p: Page)
      requires Valid() && p in meta && logged == {}
      modifies this`meta, this`place, this`sheets
      ensures Valid() && SameSizes(old(meta), meta) && (place == old(place) || place == Refilled(old(place), p))
      ensures var m := old(meta)[p];
              meta[p] == if m.free == 0 then m.(free := m.localFree, localFree := 0) else m
    {
      if meta[p].localFree != 0 {
        if meta[p].free == 0 {
          RefillSound(next, meta, threadFree, ring, place, sheets, stacks, p);
          meta := meta[p := meta[p].(free := meta[p].localFree)];
          meta := meta[p := meta[p].(localFree := 0)];
          place, sheets := Refilled(place, p), sheets[p := Refill(sheets[p])];
        }
      }
    }

    /** `cxl_page_free_collect`. A page left without a free block has no block to give. */
    method FreeCollect(p: Page)
      requires Valid() && p in meta && logged == {}
      modifies this`next, this`meta, this`threadFree, this`place, this`sheets, this`stacks
      ensures Valid() && SameSizes(old(meta), meta) && threadFree == old(threadFree)[p / PAGES_PER_SEGMENT := 0]
      ensures var all := Collected(old(place), p / PAGES_PER_SEGMENT); place == all || place == Refilled(all, p)
      ensures meta[p].free == 0 ==> AllLive(place, p)
    {
      Collect(p / PAGES_PER_SEGMENT);
      RefillPage(p);
      SpentSound(next, meta, threadFree, ring, place, sheets, stacks, logged, p);
    }

    /** `cxl_page_init` on a page not in use, whose header is zero: thread its blocks in
        address order. */
    method Carve(p: Page, size: nat)
      requires Valid() && logged == {} && ring == CLEARED && p !in meta && p > 0 && 0 < size <= PAGE_SIZE
      requires p / PAGES_PER_SEGMENT in threadFree
      modifies this`next, this`meta, this`place, this`sheets
      ensures Valid() && meta == old(meta)[p := NewMeta(p, size)]
      ensures place == Carved(old(place), Grid(p, size, Capacity(size)))
    {
      var links := ThreadPage(next, p, size);
      CarveSound(next, meta, threadFree, place, sheets, stacks, links, p, size);
      next := links;
      meta := meta[p := NewMeta(p, size)];
      place, sheets := Carved(place, Grid(p, size, Capacity(size))), sheets[p := NewSheet(p, size)];
    }

    /** In every state: the blocks of a page are on its two lists or in use, so a page whose
        `used` is 0 has no block live or waiting to be collected. */
    lemma Conserved(p: Page)
      requires Valid() && p in meta
      ensures meta[p].size > 0 && meta[p].used + |sheets[p].free| + |sheets[p].local| == Capacity(meta[p].size)
      ensures meta[p].used == 0 <==> forall b | b in place && PageOf(b) == p :: !place[b].Out()
    {
      assert PageOk(next, place, p, sheets[p]) && Covers(place, p, sheets[p].meta.size);
      Conservation(next, place, p, sheets[p]);
    }
  }
}
