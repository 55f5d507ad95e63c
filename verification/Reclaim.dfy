/** The segments of a dead client: those that still hold counted blocks or one of its
    message queues are kept as abandoned, all others are given back. */
module Reclaim {
  import opened Common
  import opened Addresses
  import PageQueue
  import Segments
  import Allocator

  type Block = nat
  type Page = nat
  type SegId = nat

  datatype SegState = NORMAL | ABANDON | POTENTIAL_LEAKING

  /** What the sweep reads of a page header; a wiped header has block size 0. */
  datatype Header = Header(free: Block, size: nat)

  const WIPED := Header(0, 0)

  function SegOf(b: Block): SegId {
    b / SEGMENT_SIZE
  }

  function SegOfPage(p: Page): SegId {
    p / PAGES_PER_SEGMENT
  }

  function Count(cnt: map<Block, nat>, b: Block): nat {
    if b in cnt then cnt[b] else 0
  }

  type Headers = map<Page, Header>
  type States = map<SegId, SegState>
  type Counts = map<Block, nat>

  ghost predicate BlockOf(p: Page, size: nat, b: Block) {
    size > 0 && exists k: nat :: k < PAGE_SIZE / size && b == BlockAt(p, size, k)
  }

  /** Some block of the page is counted. */
  ghost predicate HasCounted(cnt: Counts, p: Page, size: nat) {
    exists b :: BlockOf(p, size, b) && Count(cnt, b) > 0
  }

  /** A counted block of the page, other than the first of its free list: that one belongs to
      an allocation that was not finished. */
  ghost predicate Lives(header: Headers, cnt: Counts, p: Page, b: Block) {
    p in header && BlockOf(p, header[p].size, b) && b != header[p].free && Count(cnt, b) > 0
  }

  /** The page holds such a block. */
  ghost predicate Keeps(header: Headers, cnt: Counts, p: Page) {
    exists b :: Lives(header, cnt, p, b)
  }

  ghost function Heads(header: Headers, swept: set<Page>): set<Block> {
    set p | p in swept && p in header && header[p].free != 0 :: header[p].free
  }

  /** The counts after a set of pages has been swept: those of their first free blocks are cleared. */
  ghost function CountsAfter(header: Headers, cnt: Counts, swept: set<Page>): Counts {
    map b | b in cnt.Keys + Heads(header, swept) :: if b in Heads(header, swept) then 0 else cnt[b]
  }

  /** The headers after a set of pages has been swept: those without a counted block are wiped. */
  ghost function HeadersAfter(header: Headers, cnt: Counts, swept: set<Page>): Headers {
    map p | p in header :: if p in swept && !Keeps(header, cnt, p) then WIPED else header[p]
  }

  /** A page of the set keeps the segment. */
  ghost predicate KeptBy(header: Headers, cnt: Counts, swept: set<Page>, s: SegId) {
    exists p :: p in swept && SegOfPage(p) == s && Keeps(header, cnt, p)
  }

  ghost function StatesAfter(state: States, header: Headers, cnt: Counts, swept: set<Page>): States {
    map s | s in state :: if KeptBy(header, cnt, swept, s) then ABANDON else state[s]
  }

  /** Sweeping one more page. */
  lemma SweptOneMore(header: Headers, cnt: Counts, state: States, swept: set<Page>, p: Page)
    requires p in header && p !in swept
    ensures HeadersAfter(header, cnt, swept)[p] == header[p]
    ensures HeadersAfter(header, cnt, swept + {p})
         == (if Keeps(header, cnt, p) then HeadersAfter(header, cnt, swept)
             else HeadersAfter(header, cnt, swept)[p := WIPED])
    ensures SegOfPage(p) in state ==>
              StatesAfter(state, header, cnt, swept + {p})
              == (if Keeps(header, cnt, p) then StatesAfter(state, header, cnt, swept)[SegOfPage(p) := ABANDON]
                  else StatesAfter(state, header, cnt, swept))
  {
    forall s | s in state
      ensures KeptBy(header, cnt, swept + {p}, s)
              <==>
              KeptBy(header, cnt, swept, s) || (SegOfPage(p) == s && Keeps(header, cnt, p))
    {
      if KeptBy(header, cnt, swept, s) {
        var q :| q in swept && SegOfPage(q) == s && Keeps(header, cnt, q);
        assert q in swept + {p};
      }
      if SegOfPage(p) == s && Keeps(header, cnt, p) {
        assert p in swept + {p};
      }
    }
  }

  /** The pages of the first i queues. */
  function Queued(bins: seq<seq<Page>>, i: nat): set<Page>
    requires i <= |bins|
  {
    if i == 0 then {} else Queued(bins, i - 1) + Elems(bins[i - 1])
  }

  /** These, and the first j pages of the next queue. */
  function Pages(bins: seq<seq<Page>>, i: nat, j: nat): set<Page>
    requires i < |bins| && j <= |bins[i]|
  {
    Queued(bins, i) + Elems(bins[i][..j])
  }

  lemma {:induction false} QueuedAt(bins: seq<seq<Page>>, i: nat, p: Page)
    requires i <= |bins|
    ensures p in Queued(bins, i) <==> exists x, y :: 0 <= x < i && 0 <= y < |bins[x]| && p == bins[x][y]
  {
    if i > 0 {
      QueuedAt(bins, i - 1, p);
      if p in bins[i - 1] {
        var y :| 0 <= y < |bins[i - 1]| && p == bins[i - 1][y];
      }
    }
  }

  /** No page is on two queues or twice on one. */
  ghost predicate Distinct(bins: seq<seq<Page>>) {
    forall i, j, x, y | 0 <= i < |bins| && 0 <= j < |bins[i]| && 0 <= x < |bins| && 0 <= y < |bins[x]|
        && bins[i][j] == bins[x][y] ::
      i == x && j == y
  }

  /** A page in use: it has a block size, and its first free block lies in it. */
  predicate Sweepable(p: Page, h: Header) {
    p > 0 && 0 < h.size <= PAGE_SIZE && (h.free == 0 || PageOf(h.free) == p)
  }

  /** Queued pages are in use and lie in known segments. */
  ghost predicate Ready(bins: seq<seq<Page>>, header: Headers, state: States) {
    forall i, j | 0 <= i < |bins| && 0 <= j < |bins[i]| ::
      bins[i][j] in header && Sweepable(bins[i][j], header[bins[i][j]]) && SegOfPage(bins[i][j]) in state
  }

  lemma BlockInPage(p: Page, size: nat, b: Block)
    requires BlockOf(p, size, b)
    ensures PageOf(b) == p && SegOf(b) == SegOfPage(p)
  {
    var k: nat :| k < PAGE_SIZE / size && b == BlockAt(p, size, k);
    BlockFits(size, k);
  }

  /** The sweep of a page sees the counts that were there, but for its own first free block. */
  lemma SeenCounts(header: Headers, cnt: Counts, swept: set<Page>, p: Page)
    requires p in header && p in swept && forall q | q in swept && q in header :: Sweepable(q, header[q])
    ensures HasCounted(CountsAfter(header, cnt, swept), p, header[p].size) <==> Keeps(header, cnt, p)
  {
    var after := CountsAfter(header, cnt, swept);
    forall b | BlockOf(p, header[p].size, b) ensures Count(after, b) > 0 <==> Lives(header, cnt, p, b) {
      BlockInPage(p, header[p].size, b);
      if b in Heads(header, swept) {
        var q :| q in swept && q in header && header[q].free != 0 && b == header[q].free;
        assert q == p;
      }
    }
  }

  lemma SweptCounts(header: Headers, cnt: Counts, swept: set<Page>, p: Page)
    requires p in header && p !in swept
    ensures CountsAfter(header, cnt, swept + {p})
         == (if header[p].free != 0 then CountsAfter(header, cnt, swept)[header[p].free := 0]
             else CountsAfter(header, cnt, swept))
  {
    assert Heads(header, swept + {p}) == Heads(header, swept) + (if header[p].free != 0 then {header[p].free} else {});
  }

  lemma PagesNext(bins: seq<seq<Page>>, i: nat, j: nat)
    requires Distinct(bins) && i < |bins| && j < |bins[i]|
    ensures Pages(bins, i, j + 1) == Pages(bins, i, j) + {bins[i][j]} && bins[i][j] !in Pages(bins, i, j)
  {
    QueuedAt(bins, i, bins[i][j]);
    assert bins[i][..j + 1] == bins[i][..j] + [bins[i][j]];
  }

  lemma PagesDone(bins: seq<seq<Page>>, i: nat)
    requires i < |bins|
    ensures Pages(bins, i, 0) == Queued(bins, i) && Pages(bins, i, |bins[i]|) == Queued(bins, i + 1)
  {
    assert bins[i][..|bins[i]|] == bins[i];
  }

  class Monitor {
    var owner: map<SegId, ClientId>   // sas->thread_id
    var state: States                 // sas->info.state
    var header: Headers
    var cnt: Counts                   // ref_info counts

    constructor ()
    {
      owner, state, header, cnt := map[], map[], map[], map[];
    }

    /** The segments of the dead sender's queues. */
    method MarkQueues(queues: seq<Block>)
      requires forall q | q in queues :: SegOf(q) in state
      modifies this`state
      ensures state.Keys == old(state).Keys
      ensures forall s | s in state ::
                state[s] == if exists q :: q in queues && SegOf(q) == s then ABANDON else old(state)[s]
    {
      for i := 0 to |queues|
        invariant state.Keys == old(state).Keys
        invariant forall s | s in state ::
                    state[s] == if exists q :: q in queues[..i] && SegOf(q) == s then ABANDON else old(state)[s]
      {
        assert queues[..i + 1] == queues[..i] + [queues[i]];
        state := state[SegOf(queues[i]) := ABANDON];
      }
    }

    /** The walk over the blocks of a page, up to the first counted one. */
    method FindCounted(p: Page, size: nat) returns (found: bool)
      requires 0 < size <= PAGE_SIZE
      ensures found <==> HasCounted(cnt, p, size)
    {
      var k := 0;
      found := false;
      while k < PAGE_SIZE / size
        invariant k <= PAGE_SIZE / size
        invariant forall j: nat | j < k :: Count(cnt, BlockAt(p, size, j)) == 0
      {
        if Count(cnt, BlockAt(p, size, k)) > 0 {
          assert BlockOf(p, size, BlockAt(p, size, k));
          return true;
        }
        k := k + 1;
      }
    }

    /** One object page: clear the count word of the first free block, then wipe the page or
        mark its segment. */
    method SweepPage(p: Page)
      requires p in header && Sweepable(p, header[p]) && SegOfPage(p) in state
      modifies this`header, this`state, this`cnt
      ensures cnt == if old(header)[p].free != 0 then old(cnt)[old(header)[p].free := 0] else old(cnt)
      ensures header == if HasCounted(cnt, p, old(header)[p].size) then old(header) else old(header)[p := WIPED]
      ensures state == if HasCounted(cnt, p, old(header)[p].size) then old(state)[SegOfPage(p) := ABANDON]
                       else old(state)
    {
      if header[p].free != 0 {
        cnt := cnt[header[p].free := 0];
      }
      var found := FindCounted(p, header[p].size);
      if found {
        state := state[SegOfPage(p) := ABANDON];
      } else {
        header := header[p := WIPED];
      }
    }

    /** The pages of a set have been swept. */
    ghost predicate Swept(header0: Headers, state0: States, cnt0: Counts, swept: set<Page>)
      reads this
    {
      && cnt == CountsAfter(header0, cnt0, swept)
      && header == HeadersAfter(header0, cnt0, swept) && state == StatesAfter(state0, header0, cnt0, swept)
    }

    method SweepNext(bins: seq<seq<Page>>, i: nat, j: nat, ghost header0: Headers, ghost state0: States,
                     ghost cnt0: Counts)
      requires i < |bins| && j < |bins[i]| && Distinct(bins) && Ready(bins, header0, state0)
      requires Swept(header0, state0, cnt0, Pages(bins, i, j))
      modifies this`header, this`state, this`cnt
      ensures Swept(header0, state0, cnt0, Pages(bins, i, j + 1))
    {
      PagesNext(bins, i, j);
      SweptOneMore(header0, cnt0, state0, Pages(bins, i, j), bins[i][j]);
      SweptCounts(header0, cnt0, Pages(bins, i, j), bins[i][j]);
      forall p | p in Pages(bins, i, j + 1) ensures p in header0 && Sweepable(p, header0[p]) {
        if p in Queued(bins, i) {
          QueuedReady(bins, i, header0, state0, p);
        }
      }
      SeenCounts(header0, cnt0, Pages(bins, i, j + 1), bins[i][j]);
      SweepPage(bins[i][j]);
    }

    /** One queue of object pages. */
    method SweepQueue(bins: seq<seq<Page>>, i: nat, ghost header0: Headers, ghost state0: States, ghost cnt0: Counts)
      requires i < |bins| && Distinct(bins) && Ready(bins, header0, state0)
      requires Swept(header0, state0, cnt0, Queued(bins, i))
      modifies this`header, this`state, this`cnt
      ensures Swept(header0, state0, cnt0, Queued(bins, i + 1))
    {
      PagesDone(bins, i);
      var j := 0;
      while j < |bins[i]|
        invariant j <= |bins[i]| && Swept(header0, state0, cnt0, Pages(bins, i, j))
      {
        SweepNext(bins, i, j, header0, state0, cnt0);
        j := j + 1;
      }
    }

    /** All object pages, queue by queue. */
    method SweepPages(bins: seq<seq<Page>>)
      requires Distinct(bins) && Ready(bins, header, state)
      modifies this`header, this`state, this`cnt
      ensures Swept(old(header), old(state), old(cnt), Queued(bins, |bins|))
    {
      NothingSwept(header, state, cnt);
      for i := 0 to |bins|
        invariant Swept(old(header), old(state), old(cnt), Queued(bins, i))
      {
        SweepQueue(bins, i, old(header), old(state), old(cnt));
      }
    }

    /** Every segment of the client that is not abandoned is wiped and given back. */
    method FreeSegments(t: ClientId, segments: nat)
      requires t != 0 && forall s: SegId | s < segments :: s in owner && s in state
      modifies this`owner, this`header
      ensures owner == OwnersAfter(old(owner), state, t, segments)
      ensures header == HeadersFreed(old(header), old(owner), state, t, segments)
    {
      var s := 0;
      while s < segments
        invariant s <= segments && owner == OwnersAfter(old(owner), state, t, s)
        invariant header == HeadersFreed(old(header), old(owner), state, t, s)
      {
        FreedOneMore(old(header), old(owner), state, t, s);
        if owner[s] == t && state[s] != ABANDON {
          header := map p | p in header :: if SegOfPage(p) == s then WIPED else header[p];
          owner := owner[s := 0];
        }
        s := s + 1;
      }
    }

    /** The segment part of `recovery_garbage_collection` for a dead client. Of its segments
        it gives back exactly those that were not abandoned before, hold none of its queues, and
        hold no live block on a queued page. When all counted blocks of the client lie on queued
        pages, every live block keeps its count, its page header and its segment. */
    method CollectSegments(t: ClientId, segments: nat, queues: seq<Block>, bins: seq<seq<Page>>)
      requires t != 0 && (forall s: SegId | s < segments :: s in owner && s in state)
      requires Distinct(bins) && Ready(bins, header, state) && forall q | q in queues :: SegOf(q) in state
      modifies this
      ensures cnt == CountsAfter(old(header), old(cnt), Queued(bins, |bins|))
      ensures owner == OwnersKept(old(owner), old(state), old(header), old(cnt), queues, Queued(bins, |bins|), t,
                                  segments)
      ensures state == StatesMarked(old(state), old(header), old(cnt), queues, Queued(bins, |bins|))
      ensures header.Keys == old(header).Keys
      ensures forall p | p in header ::
                header[p] == if (p in Queued(bins, |bins|) && !Keeps(old(header), old(cnt), p))
                                || (SegOfPage(p) < segments && old(owner)[SegOfPage(p)] == t
                                    && owner[SegOfPage(p)] == 0)
                             then WIPED else old(header)[p]
      ensures forall p | p in Queued(bins, |bins|) && Keeps(old(header), old(cnt), p) && p in header ::
                header[p] == old(header)[p]
      ensures AllQueued(old(owner), old(header), old(cnt), Queued(bins, |bins|), t) ==>
                LiveKept(old(owner), old(header), old(cnt), owner, header, cnt, t)
    {
      MarkQueues(queues);
      ghost var state1 := state;
      SweepPages(bins);
      ghost var state2 := state;
      FreeSegments(t, segments);
      ghost var pages := Queued(bins, |bins|);
      MarkedStates(old(state), state1, state2, old(header), old(cnt), queues, pages);
      OwnersMatch(old(owner), old(state), state2, old(header), old(cnt), queues, pages, t, segments);
      forall p | p in pages ensures p in old(header) && Sweepable(p, old(header)[p]) {
        QueuedReady(bins, |bins|, old(header), old(state), p);
      }
      forall p | p in pages && Keeps(old(header), old(cnt), p) ensures header[p] == old(header)[p] {
        assert KeptBy(old(header), old(cnt), pages, SegOfPage(p));
      }
      if AllQueued(old(owner), old(header), old(cnt), pages, t) {
        LiveStays(old(owner), old(state), old(header), old(cnt), queues, pages, t, segments, header);
      }
    }

    /** The same on what a client left at a crash: every live block of it keeps its count, its
        page header and its segment. */
    method CollectDead(alloc: Allocator.Allocator, queues: seq<Block>, bins: seq<seq<Page>>)
      requires alloc.Valid() && LeftBy(alloc, owner, header, cnt) && bins == ObjectQueues(alloc.client)
      requires forall s: SegId | s < alloc.client.vec.Length :: s in owner && s in state
      requires forall q | q in queues :: SegOf(q) in state
      modifies this
      ensures LiveKept(old(owner), old(header), old(cnt), owner, header, cnt, alloc.client.id)
      ensures cnt == CountsAfter(old(header), old(cnt), Queued(bins, |bins|))
    {
      BooksSuffice(alloc, owner, header, state, cnt);
      CollectSegments(alloc.client.id, alloc.client.vec.Length, queues, bins);
    }
  }

  lemma QueuedReady(bins: seq<seq<Page>>, i: nat, header: Headers, state: States, p: Page)
    requires i <= |bins| && Ready(bins, header, state) && p in Queued(bins, i)
    ensures p in header && Sweepable(p, header[p]) && SegOfPage(p) in state
  {
    QueuedAt(bins, i, p);
  }

  /** Every counted block of the client, in its segments, lies on a queued page. */
  ghost predicate AllQueued(owner: map<SegId, ClientId>, header: Headers, cnt: Counts, pages: set<Page>, t: ClientId) {
    forall b | Count(cnt, b) > 0 && SegOf(b) in owner && owner[SegOf(b)] == t ::
      PageOf(b) in pages && PageOf(b) in header && BlockOf(PageOf(b), header[PageOf(b)].size, b)
  }

  /** Every live block of the client is still there: its count, its page and its segment. */
  ghost predicate LiveKept(owner: map<SegId, ClientId>, header: Headers, cnt: Counts, owner': map<SegId, ClientId>,
                           header': Headers, cnt': Counts, t: ClientId)
  {
    forall b | SegOf(b) in owner && owner[SegOf(b)] == t && Lives(header, cnt, PageOf(b), b) ::
      && Count(cnt', b) == Count(cnt, b)
      && PageOf(b) in header' && header'[PageOf(b)] == header[PageOf(b)]
      && SegOf(b) in owner' && owner'[SegOf(b)] == t
  }

  ghost function OwnersKept(owner: map<SegId, ClientId>, state: States, header: Headers, cnt: Counts,
                            queues: seq<Block>, pages: set<Page>, t: ClientId, n: nat): map<SegId, ClientId>
  {
    map s | s in owner ::
      if s < n && owner[s] == t && !MustStay(state, header, cnt, queues, pages, s) then 0 else owner[s]
  }

  ghost function StatesMarked(state: States, header: Headers, cnt: Counts, queues: seq<Block>,
                              pages: set<Page>): States
  {
    map s | s in state :: if MustStay(state, header, cnt, queues, pages, s) then ABANDON else state[s]
  }

  /** The queues of the size classes for objects, as the monitor walks them. */
  ghost function ObjectQueues(c: Segments.Client): seq<seq<Page>>
    requires |c.bins| == CXL_BIN_SIZE
    reads c, c.bins
  {
    seq(CXL_BIN_SIZE - 2, i requires 0 <= i < CXL_BIN_SIZE - 2 reads c, c.bins => c.bins[i + 2].list)
  }

  /** The words the monitor finds are those the client left: headers of the pages in use, and
      count words of its objects. An allocation may have been cut short: then the first free
      block of a page has a count already. */
  ghost predicate LeftBy(alloc: Allocator.Allocator, owner: map<SegId, ClientId>, header: Headers, cnt: Counts)
    reads alloc, alloc.client, alloc.client.bins, alloc.heap
  {
    && (forall p | p in alloc.heap.meta ::
          p in header && header[p] == Header(alloc.heap.meta[p].free, alloc.heap.meta[p].size))
    && forall b | Count(cnt, b) > 0 && SegOf(b) in owner && owner[SegOf(b)] == alloc.client.id ::
         || b in Allocator.Counted(alloc.cnt)
         || (alloc.client.ObjectPage(PageOf(b)) && PageOf(b) in header && header[PageOf(b)].free == b != 0)
  }

  /** The queues and pages of a client, as it left them at a crash, are what the monitor needs:
      no page is queued twice, queued pages are in use, and every counted block of the client is
      a block of a queued page. */
  lemma BooksSuffice(alloc: Allocator.Allocator, owner: map<SegId, ClientId>, header: Headers, state: States,
                     cnt: Counts)
    requires alloc.Valid() && LeftBy(alloc, owner, header, cnt)
    requires forall s: SegId | s < alloc.client.vec.Length :: s in state
    ensures var queues := ObjectQueues(alloc.client);
            && Distinct(queues) && Ready(queues, header, state)
            && AllQueued(owner, header, cnt, Queued(queues, |queues|), alloc.client.id)
  {
    var c, queues := alloc.client, ObjectQueues(alloc.client);
    QueuesDistinct(c);
    forall i, j | 0 <= i < |queues| && 0 <= j < |queues[i]|
      ensures queues[i][j] in header && Sweepable(queues[i][j], header[queues[i][j]])
      ensures SegOfPage(queues[i][j]) in state
    {
      var p := queues[i][j];
      assert p in c.Lists()[i + 2];
      Allocator.PageInUse(alloc.heap, c.Lists(), alloc.cnt, c.vec[..], c.id, i + 2, p);
    }
    forall b | Count(cnt, b) > 0 && SegOf(b) in owner && owner[SegOf(b)] == c.id
      ensures PageOf(b) in Queued(queues, |queues|) && PageOf(b) in header
      ensures BlockOf(PageOf(b), header[PageOf(b)].size, b)
    {
      var i :| 2 <= i < |c.bins| && PageOf(b) in c.bins[i].list;
      assert queues[i - 2] == c.bins[i].list == c.Lists()[i];
      QueuedAt(queues, |queues|, PageOf(b));
      Allocator.PageInUse(alloc.heap, c.Lists(), alloc.cnt, c.vec[..], c.id, i, PageOf(b));
      Allocator.Unpack(alloc.heap, c.Lists(), alloc.cnt, c.vec[..], c.id);
      var k := Allocator.BlockInUse(alloc.heap, b);
    }
  }

  lemma QueuesDistinct(c: Segments.Client)
    requires c.Valid()
    ensures Distinct(ObjectQueues(c))
  {
    var queues := ObjectQueues(c);
    forall i, j, x, y | 0 <= i < |queues| && 0 <= j < |queues[i]| && 0 <= x < |queues| && 0 <= y < |queues[x]|
        && queues[i][j] == queues[x][y]
      ensures i == x && j == y
    {
      assert Segments.BinOk(c.bins, c.headers, c.taken, i + 2) && Segments.BinOk(c.bins, c.headers, c.taken, x + 2);
      assert queues[i][j] in Elems(queues[i]) && queues[x][y] in Elems(queues[x]);
      assert i == x;
      PageQueue.NoRepetition(c.headers.next, c.headers.prev, 0, c.bins[i + 2].first, queues[i], j, y);
    }
  }

  lemma MarkedStates(state: States, state1: States, state2: States, header: Headers, cnt: Counts, queues: seq<Block>,
                     pages: set<Page>)
    requires state1.Keys == state.Keys && state2 == StatesAfter(state1, header, cnt, pages)
    requires forall s | s in state1 ::
               state1[s] == if exists q :: q in queues && SegOf(q) == s then ABANDON else state[s]
    ensures state2 == StatesMarked(state, header, cnt, queues, pages)
  {
  }

  lemma OwnersMatch(owner: map<SegId, ClientId>, state: States, state2: States, header: Headers, cnt: Counts,
                    queues: seq<Block>, pages: set<Page>, t: ClientId, n: nat)
    requires state2 == StatesMarked(state, header, cnt, queues, pages)
    ensures OwnersAfter(owner, state2, t, n) == OwnersKept(owner, state, header, cnt, queues, pages, t, n)
  {
  }

  lemma LiveStays(owner: map<SegId, ClientId>, state: States, header: Headers, cnt: Counts, queues: seq<Block>,
                  pages: set<Page>, t: ClientId, n: nat, header': Headers)
    requires t != 0 && AllQueued(owner, header, cnt, pages, t)
    requires forall p | p in pages && p in header :: Sweepable(p, header[p])
    requires header'.Keys == header.Keys
    requires var owner' := OwnersKept(owner, state, header, cnt, queues, pages, t, n);
             forall p | p in header && SegOfPage(p) in owner && Keeps(header, cnt, p) && owner'[SegOfPage(p)] != 0 ::
               header'[p] == header[p]
    ensures LiveKept(owner, header, cnt, OwnersKept(owner, state, header, cnt, queues, pages, t, n), header',
                     CountsAfter(header, cnt, pages), t)
  {
    forall b | SegOf(b) in owner && owner[SegOf(b)] == t && Lives(header, cnt, PageOf(b), b)
      ensures b !in Heads(header, pages) && Keeps(header, cnt, PageOf(b)) && KeptBy(header, cnt, pages, SegOf(b))
    {
      var p := PageOf(b);
      BlockInPage(p, header[p].size, b);
      assert Keeps(header, cnt, p);
    }
  }

  lemma NothingSwept(header: Headers, state: States, cnt: Counts)
    ensures HeadersAfter(header, cnt, {}) == header && StatesAfter(state, header, cnt, {}) == state
    ensures CountsAfter(header, cnt, {}) == cnt
  {
  }

  /** Why a segment is not given back. */
  ghost predicate MustStay(state: States, header: Headers, cnt: Counts, queues: seq<Block>, pages: set<Page>,
                           s: SegId)
  {
    s !in state || state[s] == ABANDON || (exists q :: q in queues && SegOf(q) == s) || KeptBy(header, cnt, pages, s)
  }

  ghost predicate Freed(owner: map<SegId, ClientId>, state: States, t: ClientId, n: nat, s: SegId) {
    s < n && s in owner && s in state && owner[s] == t && state[s] != ABANDON
  }

  ghost function OwnersAfter(owner: map<SegId, ClientId>, state: States, t: ClientId, n: nat): map<SegId, ClientId> {
    map s | s in owner :: if Freed(owner, state, t, n, s) then 0 else owner[s]
  }

  ghost function HeadersFreed(header: Headers, owner: map<SegId, ClientId>, state: States, t: ClientId,
                              n: nat): Headers
  {
    map p | p in header :: if Freed(owner, state, t, n, SegOfPage(p)) then WIPED else header[p]
  }

  lemma FreedOneMore(header: Headers, owner: map<SegId, ClientId>, state: States, t: ClientId, n: nat)
    requires n in owner && n in state
    ensures OwnersAfter(owner, state, t, n)[n] == owner[n]
    ensures OwnersAfter(owner, state, t, n + 1)
         == (if owner[n] == t && state[n] != ABANDON
             then OwnersAfter(owner, state, t, n)[n := 0]
             else OwnersAfter(owner, state, t, n))
    ensures HeadersFreed(header, owner, state, t, n + 1)
         == (if owner[n] == t && state[n] != ABANDON
             then map p | p in HeadersFreed(header, owner, state, t, n) ::
                    if SegOfPage(p) == n then WIPED else HeadersFreed(header, owner, state, t, n)[p]
             else HeadersFreed(header, owner, state, t, n))
  {
  }
}
