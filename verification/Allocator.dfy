/** The allocator of one client as a whole: its page queues, its pages with their blocks, and
    the count words of its objects. What the monitor relies on after a crash, that every counted
    block lies on a page queued for a size class, follows here from what the code tests. */
module Allocator {
  import opened Common
  import opened Addresses
  import opened RedoLog
  import PageQueue
  import Segments
  import opened Pages
  import PageHeap

  type Counts = map<Block, nat>

  /** Blocks whose count word is not 0. */
  ghost function Counted(cnt: Counts): set<Block> {
    set b | b in cnt && cnt[b] > 0
  }

  ghost predicate OnQueue(lists: seq<seq<Page>>, p: Page) {
    exists i :: 0 <= i < |lists| && p in lists[i]
  }

  /** The pages on queue i are in use, with the block size of the class. */
  ghost predicate ClassOk(lists: seq<seq<Page>>, meta: PageHeap.Metas, i: nat)
    requires i < |lists| == CXL_BIN_SIZE
  {
    forall p | p in lists[i] :: p in meta && meta[p].size == BlockSize(i)
  }

  /** The pages in use are those on the queues. */
  ghost predicate Matches(lists: seq<seq<Page>>, meta: PageHeap.Metas) {
    && |lists| == CXL_BIN_SIZE
    && (forall i {:trigger ClassOk(lists, meta, i)} | 0 <= i < |lists| :: ClassOk(lists, meta, i))
    && forall p | p in meta :: OnQueue(lists, p)
  }

  /** Counted blocks are live. */
  ghost predicate CountsLive(cnt: Counts, place: Places) {
    forall b | b in cnt && cnt[b] > 0 :: b in place && place[b].Live?
  }

  /** The segments with a stack are the client's. */
  ghost predicate SegmentsOwned(tops: Tops, owners: seq<ClientId>, id: ClientId) {
    forall g | g in tops :: g < |owners| && owners[g] == id
  }

  /** Queues, pages, count words and segments fit together. */
  ghost predicate Fits(lists: seq<seq<Page>>, meta: PageHeap.Metas, cnt: Counts, place: Places, tops: Tops,
                       owners: seq<ClientId>, id: ClientId)
  {
    Matches(lists, meta) && CountsLive(cnt, place) && SegmentsOwned(tops, owners, id)
  }

  // ----- how the queues and the pages change together

  lemma OwnersKept(tops: Tops, owners: seq<ClientId>, owners': seq<ClientId>, id: ClientId)
    requires SegmentsOwned(tops, owners, id) && Claimed(owners, owners', id)
    ensures SegmentsOwned(tops, owners', id)
  {
  }

  lemma SizesMatch(lists: seq<seq<Page>>, meta: PageHeap.Metas, meta': PageHeap.Metas)
    requires Matches(lists, meta) && PageHeap.SameSizes(meta, meta')
    ensures Matches(lists, meta')
  {
    forall i | 0 <= i < |lists| ensures ClassOk(lists, meta', i) {
      assert ClassOk(lists, meta, i);
    }
  }

  lemma FreshMatches(lists: seq<seq<Page>>, meta: PageHeap.Metas, i: nat, p: Page, m: Meta)
    requires Matches(lists, meta) && i < |lists| && p !in meta && m.size == BlockSize(i)
    ensures Matches(lists[i := [p] + lists[i]], meta[p := m])
  {
    var lists', meta' := lists[i := [p] + lists[i]], meta[p := m];
    forall k | 0 <= k < |lists| ensures ClassOk(lists', meta', k) {
      assert ClassOk(lists, meta, k);
    }
    forall q | q in meta' ensures OnQueue(lists', q) {
      if q == p {
        assert q in lists'[i];
      } else {
        assert OnQueue(lists, q);
        var k :| 0 <= k < |lists| && q in lists[k];
        assert q in lists'[k];
      }
    }
  }

  lemma GoneMatches(lists: seq<seq<Page>>, meta: PageHeap.Metas, i: nat, p: Page, meta': PageHeap.Metas)
    requires Matches(lists, meta) && i < |lists| && p in lists[i]
    requires forall k | 0 <= k < |lists| && k != i :: p !in lists[k]
    requires PageHeap.SizesWithout(meta, meta', {p})
    ensures Matches(lists[i := PageQueue.Without(lists[i], {p})], meta')
  {
    var lists' := lists[i := PageQueue.Without(lists[i], {p})];
    forall k | 0 <= k < |lists| ensures ClassOk(lists', meta', k) {
      assert ClassOk(lists, meta, k);
      forall q | q in lists'[k] ensures q in lists[k] && q != p {
        if k == i {
          PageQueue.WithoutElems(lists[i], {p}, q);
        }
      }
    }
    forall q | q in meta' ensures OnQueue(lists', q) {
      assert OnQueue(lists, q);
      var k :| 0 <= k < |lists| && q in lists[k];
      if k == i {
        PageQueue.WithoutElems(lists[i], {p}, q);
      }
      assert q in lists'[k];
    }
  }

  lemma LivesOn(cnt: Counts, place: Places, place': Places)
    requires CountsLive(cnt, place) && forall b | b in place && place[b].Live? :: b in place' && place'[b].Live?
    ensures CountsLive(cnt, place')
  {
  }

  lemma CollectedLives(cnt: Counts, place: Places, g: SegId, p: Page, place': Places)
    requires CountsLive(cnt, place)
    requires place' == Collected(place, g) || place' == Refilled(Collected(place, g), p)
    ensures CountsLive(cnt, place')
  {
    LivesOn(cnt, place, place');
  }

  lemma CollectFits(lists: seq<seq<Page>>, meta: PageHeap.Metas, cnt: Counts, place: Places, tops: Tops,
                    owners: seq<ClientId>, id: ClientId, p: Page, meta': PageHeap.Metas, place': Places, tops': Tops)
    requires Fits(lists, meta, cnt, place, tops, owners, id) && PageHeap.SameSizes(meta, meta')
    requires p / PAGES_PER_SEGMENT in tops && tops' == tops[p / PAGES_PER_SEGMENT := 0]
    requires var all := Collected(place, p / PAGES_PER_SEGMENT); place' == all || place' == Refilled(all, p)
    ensures Fits(lists, meta', cnt, place', tops', owners, id)
    ensures forall q | AllLive(place, q) :: AllLive(place', q)
  {
    SizesMatch(lists, meta, meta');
    CollectedLives(cnt, place, p / PAGES_PER_SEGMENT, p, place');
  }

  lemma CarvedLives(cnt: Counts, place: Places, p: Page, size: nat)
    requires CountsLive(cnt, place) && p > 0 && 0 < size <= PAGE_SIZE && forall b | b in place :: PageOf(b) != p
    ensures CountsLive(cnt, Carved(place, Grid(p, size, Capacity(size))))
  {
    GridGood(p, size);
  }

  /** A block freed by its owner: the page goes only when it holds no counted block. */
  lemma FreedLives(cnt: Counts, place: Places, b: Block, place': Places, gone: bool)
    requires CountsLive(cnt, place) && b in place && b !in Counted(cnt)
    requires place' == if gone then Retired(place, PageOf(b)) else place[b := Local]
    requires gone ==> PageHeap.NoOtherOut(place, b)
    ensures CountsLive(cnt, place')
    ensures gone ==> forall x | x in Counted(cnt) :: PageOf(x) != PageOf(b)
  {
    forall x | x in Counted(cnt) && gone ensures PageOf(x) != PageOf(b) {
      assert x in place && place[x].Live? && x != b;
    }
  }

  /** The block size of a page leads back to its queue, for special pages too. */
  lemma BinBack(i: nat)
    requires i < CXL_BIN_SIZE
    ensures BlockSize(i) > 0 && Bin(i < 2, BlockSize(i)) == i && BlockSize(i) <= PAGE_SIZE
  {
  }

  // ----- walking a queue

  lemma HeapFacts(heap: PageHeap.Heap)
    requires heap.Valid()
    ensures forall b | b in heap.place :: b != 0 && PageOf(b) in heap.meta
    ensures forall p | p in heap.meta :: p / PAGES_PER_SEGMENT in heap.threadFree
  {
  }

  /** No block is lost, and none becomes live or ceases to be. */
  ghost predicate SameLive(place: Places, place': Places) {
    && (forall b | b in place :: b in place' && (place'[b].Live? <==> place[b].Live?))
    && (forall b | b in place' && b !in place :: !place'[b].Live?)
  }

  lemma SameLiveTwice(a: Places, b: Places, c: Places)
    requires SameLive(a, b) && SameLive(b, c)
    ensures SameLive(a, c)
  {
  }

  lemma CollectedLive(place: Places, g: SegId, p: Page, place': Places)
    requires place' == Collected(place, g) || place' == Refilled(Collected(place, g), p)
    ensures SameLive(place, place')
  {
  }

  lemma CarvedLive(place: Places, p: Page, size: nat)
    requires p > 0 && 0 < size <= PAGE_SIZE && forall b | b in place :: PageOf(b) != p
    ensures SameLive(place, Carved(place, Grid(p, size, Capacity(size))))
  {
    GridGood(p, size);
  }

  lemma TakenBlocks(place0: Places, place: Places, b: Block)
    requires SameLive(place0, place) && b in place && place[b].Free?
    ensures LiveBlocks(place[b := Live]) == LiveBlocks(place0) + {b} && b !in LiveBlocks(place0)
    ensures forall x | x in place0 :: x in place[b := Live]
  {
  }

  function LiveBlocks(place: Places): set<Block> {
    set b | b in place && place[b].Live?
  }

  lemma SameBlocks(place: Places, place': Places)
    requires SameLive(place, place')
    ensures LiveBlocks(place') == LiveBlocks(place)
  {
  }

  /** `cxl_page_free_collect` for a page in use. */
  method CollectPage(heap: PageHeap.Heap, p: Page, ghost lists: seq<seq<Page>>, ghost cnt: Counts,
                     ghost owners: seq<ClientId>, ghost id: ClientId)
    requires heap.Valid() && p in heap.meta && heap.logged == {}
    requires Fits(lists, heap.meta, cnt, heap.place, heap.threadFree, owners, id)
    modifies heap`next, heap`meta, heap`threadFree, heap`place, heap`sheets, heap`stacks
    ensures heap.Valid() && heap.meta.Keys == old(heap.meta).Keys
    ensures Fits(lists, heap.meta, cnt, heap.place, heap.threadFree, owners, id)
    ensures heap.meta[p].free == 0 ==> AllLive(heap.place, p)
    ensures forall q | AllLive(old(heap.place), q) :: AllLive(heap.place, q)
    ensures SameLive(old(heap.place), heap.place)
  {
    HeapFacts(heap);
    heap.FreeCollect(p);
    CollectedLive(old(heap.place), p / PAGES_PER_SEGMENT, p, heap.place);
    CollectFits(lists, old(heap.meta), cnt, old(heap.place), old(heap.threadFree), owners, id, p, heap.meta, heap.place,
                heap.threadFree);
  }

  /** Every block of the first k pages is live. */
  ghost predicate Spent(place: Places, list: seq<Page>, k: nat) {
    forall j | 0 <= j < k && j < |list| :: AllLive(place, list[j])
  }

  lemma SpentOn(place: Places, place': Places, list: seq<Page>, k: nat)
    requires Spent(place, list, k) && forall q | AllLive(place, q) :: AllLive(place', q)
    ensures Spent(place', list, k)
    ensures k < |list| && AllLive(place', list[k]) ==> Spent(place', list, k + 1)
  {
  }

  lemma SpentCarved(place: Places, p: Page, size: nat, list: seq<Page>)
    requires p > 0 && 0 < size <= PAGE_SIZE && p !in list
    ensures Spent(place, list, |list|) ==> Spent(Carved(place, Grid(p, size, Capacity(size))), list, |list|)
  {
    GridGood(p, size);
  }

  /** One round of the loop below. */
  method CollectNext(heap: PageHeap.Heap, page: Page, i: nat, ghost k: nat, ghost lists: seq<seq<Page>>,
                     ghost cnt: Counts, ghost owners: seq<ClientId>, ghost id: ClientId) returns (free: bool)
    requires heap.Valid() && heap.logged == {} && i < |lists| && k < |lists[i]| && page == lists[i][k]
    requires Fits(lists, heap.meta, cnt, heap.place, heap.threadFree, owners, id) && Spent(heap.place, lists[i], k)
    modifies heap`next, heap`meta, heap`threadFree, heap`place, heap`sheets, heap`stacks
    ensures heap.Valid() && heap.meta.Keys == old(heap.meta).Keys
    ensures Fits(lists, heap.meta, cnt, heap.place, heap.threadFree, owners, id)
    ensures page in heap.meta && free == (heap.meta[page].free != 0)
    ensures !free ==> Spent(heap.place, lists[i], k + 1)
    ensures SameLive(old(heap.place), heap.place)
  {
    InUse(lists, heap.meta, i, page);
    CollectPage(heap, page, lists, cnt, owners, id);
    SpentOn(old(heap.place), heap.place, lists[i], k);
    free := heap.meta[page].free != 0;
  }

  ghost predicate LeadsOn(next: PageQueue.Links, list: seq<Page>, k: nat)
    requires k < |list|
  {
    list[k] != 0 && list[k] in next && next[list[k]] == if k + 1 < |list| then list[k + 1] else 0
  }

  /** Following the links from the first page visits the list. */
  ghost predicate Leads(next: PageQueue.Links, first: Page, list: seq<Page>) {
    && first == (if list == [] then 0 else list[0])
    && forall k: nat {:trigger LeadsOn(next, list, k)} | k < |list| :: LeadsOn(next, list, k)
  }

  lemma LinkedLeads(next: PageQueue.Links, prev: PageQueue.Links, first: Page, list: seq<Page>)
    requires PageQueue.Linked(next, prev, 0, first, list)
    ensures Leads(next, first, list)
  {
    forall k: nat | k < |list| ensures LeadsOn(next, list, k) {
      PageQueue.NextOnList(next, prev, 0, first, list, k);
    }
  }

  /** The loop of `cxl_page_queue_find_free_ex`, along the links of queue i: a page with a free
      block, or every block of every page on the queue is live. */
  method CollectQueue(heap: PageHeap.Heap, headers: PageQueue.Headers, first: Page, i: nat,
                      ghost lists: seq<seq<Page>>, ghost cnt: Counts, ghost owners: seq<ClientId>, ghost id: ClientId)
      returns (found: Option<Page>)
    requires heap.Valid() && heap.logged == {} && i < |lists|
    requires Fits(lists, heap.meta, cnt, heap.place, heap.threadFree, owners, id)
    requires Leads(headers.next, first, lists[i])
    modifies heap`next, heap`meta, heap`threadFree, heap`place, heap`sheets, heap`stacks
    ensures heap.Valid() && heap.meta.Keys == old(heap.meta).Keys
    ensures Fits(lists, heap.meta, cnt, heap.place, heap.threadFree, owners, id)
    ensures found.Some? ==> found.value in lists[i] && found.value in heap.meta && heap.meta[found.value].free != 0
    ensures found.None? ==> Spent(heap.place, lists[i], |lists[i]|)
    ensures SameLive(old(heap.place), heap.place)
  {
    ghost var list := lists[i];
    found := None;
    var page := first;
    ghost var k := 0;
    while page != 0
      invariant k <= |list| && page == if k < |list| then list[k] else 0
      invariant heap.Valid() && heap.meta.Keys == old(heap.meta).Keys
      invariant Fits(lists, heap.meta, cnt, heap.place, heap.threadFree, owners, id) && Spent(heap.place, list, k)
      invariant SameLive(old(heap.place), heap.place)
      decreases |list| - k
    {
      assert LeadsOn(headers.next, list, k);
      var next := headers.next[page];
      ghost var place := heap.place;
      var free := CollectNext(heap, page, i, k, lists, cnt, owners, id);
      SameLiveTwice(old(heap.place), place, heap.place);
      if free {
        return Some(page);
      }
      page := next;
      k := k + 1;
    }
    assert k < |list| ==> LeadsOn(headers.next, list, k);
  }

  lemma InUse(lists: seq<seq<Page>>, meta: PageHeap.Metas, i: nat, p: Page)
    requires Matches(lists, meta) && i < |lists| && p in lists[i]
    ensures p in meta && meta[p].size == BlockSize(i)
  {
    assert ClassOk(lists, meta, i);
  }

  // ----- pages come and go

  lemma FirstFree(p: Page, i: nat)
    requires p > 0 && i < CXL_BIN_SIZE
    ensures 0 < BlockSize(i) <= PAGE_SIZE && NewMeta(p, BlockSize(i)).free != 0
  {
    BinBack(i);
    GridInPage(p, BlockSize(i), 0, 1);
  }

  lemma CarveFits(lists: seq<seq<Page>>, meta: PageHeap.Metas, cnt: Counts, place: Places, tops: Tops,
                  owners: seq<ClientId>, id: ClientId, p: Page, i: nat, size: nat, m: Meta, tops': Tops)
    requires Fits(lists, meta, cnt, place, tops, owners, id) && i < |lists| && p !in meta && p > 0
    requires p / PAGES_PER_SEGMENT < |owners| && owners[p / PAGES_PER_SEGMENT] == id
    requires tops'.Keys == tops.Keys + {p / PAGES_PER_SEGMENT} && forall b | b in place :: PageOf(b) != p
    requires size == BlockSize(i) == m.size && 0 < size <= PAGE_SIZE
    ensures Fits(lists[i := [p] + lists[i]], meta[p := m], cnt, Carved(place, Grid(p, size, Capacity(size))), tops',
                 owners, id)
  {
    FreshMatches(lists, meta, i, p, m);
    CarvedLives(cnt, place, p, size);
  }

  // ----- the steps on the pages, as the client's operations use them

  datatype Part = Blocks | Together

  ghost predicate Holds(part: Part, heap: PageHeap.Heap, lists: seq<seq<Page>>, cnt: Counts, owners: seq<ClientId>,
                        id: ClientId)
    reads heap
  {
    match part
    case Blocks => heap.Valid()
    case Together => Fits(lists, heap.meta, cnt, heap.place, heap.threadFree, owners, id)
  }

  /** The pages are sound, and fit the queues, the count words and the segments. */
  ghost predicate Stocked(heap: PageHeap.Heap, lists: seq<seq<Page>>, cnt: Counts, owners: seq<ClientId>, id: ClientId)
    reads heap
  {
    forall part :: Holds(part, heap, lists, cnt, owners, id)
  }

  lemma Unpack(heap: PageHeap.Heap, lists: seq<seq<Page>>, cnt: Counts, owners: seq<ClientId>, id: ClientId)
    requires Stocked(heap, lists, cnt, owners, id)
    ensures heap.Valid() && Fits(lists, heap.meta, cnt, heap.place, heap.threadFree, owners, id)
  {
    assert Holds(Blocks, heap, lists, cnt, owners, id) && Holds(Together, heap, lists, cnt, owners, id);
  }

  /** `cxl_find_page` and `cxl_malloc_generic`, up to the fresh page. */
  method FindQueued(heap: PageHeap.Heap, headers: PageQueue.Headers, first: Page, i: nat,
                    ghost lists: seq<seq<Page>>, ghost cnt: Counts, ghost owners: seq<ClientId>, ghost id: ClientId)
      returns (found: Option<Page>)
    requires Stocked(heap, lists, cnt, owners, id) && i < |lists| && Leads(headers.next, first, lists[i])
    modifies heap
    ensures Stocked(heap, lists, cnt, owners, id)
    ensures found.Some? ==> found.value in lists[i] && found.value in heap.meta && heap.meta[found.value].free != 0
    ensures found.None? ==> Spent(heap.place, lists[i], |lists[i]|) && heap.ring == CLEARED && heap.logged == {}
    ensures heap.ring == CLEARED || (lists[i] != [] && found == Some(lists[i][0]) && heap.place == old(heap.place))
    ensures SameLive(old(heap.place), heap.place)
  {
    Unpack(heap, lists, cnt, owners, id);
    if first != 0 {
      InUse(lists, heap.meta, i, first);
      if heap.meta[first].free != 0 {
        return Some(first);
      }
    }
    heap.ClearRing();
    found := CollectQueue(heap, headers, first, i, lists, cnt, owners, id);
  }

  /** The carving of a page just taken from free_page, after its segment's stack is set up. */
  method CarveFresh(heap: PageHeap.Heap, p: Page, i: nat, ghost lists: seq<seq<Page>>, ghost cnt: Counts,
                    ghost owners: seq<ClientId>, ghost id: ClientId)
    requires Stocked(heap, lists, cnt, owners, id)
    requires heap.logged == {} && heap.ring == CLEARED && i < |lists| && p !in heap.meta && p > 0
    requires p / PAGES_PER_SEGMENT < |owners| && owners[p / PAGES_PER_SEGMENT] == id
    modifies heap
    ensures Stocked(heap, lists[i := [p] + lists[i]], cnt, owners, id)
    ensures p in heap.meta && heap.meta[p].free != 0 && heap.ring == CLEARED
    ensures Spent(old(heap.place), lists[i], |lists[i]|) ==> Spent(heap.place, lists[i], |lists[i]|)
    ensures SameLive(old(heap.place), heap.place)
  {
    Unpack(heap, lists, cnt, owners, id);
    HeapFacts(heap);
    FirstFree(p, i);
    assert ClassOk(lists, heap.meta, i);
    SpentCarved(heap.place, p, BlockSize(i), lists[i]);
    CarvedLive(heap.place, p, BlockSize(i));
    var size := BlockSize(i);
    ghost var lists' := lists[i := [p] + lists[i]];
    CarveNext(heap, p, i, size, lists, lists', cnt, owners, id);
  }

  method CarveNext(heap: PageHeap.Heap, p: Page, ghost i: nat, size: nat, ghost lists: seq<seq<Page>>,
                   ghost lists': seq<seq<Page>>, ghost cnt: Counts, ghost owners: seq<ClientId>, ghost id: ClientId)
    requires heap.Valid() && Fits(lists, heap.meta, cnt, heap.place, heap.threadFree, owners, id)
    requires heap.logged == {} && heap.ring == CLEARED && i < |lists| && p !in heap.meta && p > 0
    requires lists' == lists[i := [p] + lists[i]] && size == BlockSize(i) && 0 < size <= PAGE_SIZE
    requires p / PAGES_PER_SEGMENT < |owners| && owners[p / PAGES_PER_SEGMENT] == id
    requires forall b | b in heap.place :: PageOf(b) != p
    modifies heap
    ensures heap.Valid() && Fits(lists', heap.meta, cnt, heap.place, heap.threadFree, owners, id)
    ensures p in heap.meta && heap.meta[p] == NewMeta(p, size) && heap.ring == CLEARED
    ensures heap.place == Carved(old(heap.place), Grid(p, size, Capacity(size)))
  {
    ghost var tops := heap.threadFree;
    if p / PAGES_PER_SEGMENT !in heap.threadFree {
      heap.Claim(p / PAGES_PER_SEGMENT);
    }
    CarveFits(lists, heap.meta, cnt, heap.place, tops, owners, id, p, i, size, NewMeta(p, size), heap.threadFree);
    heap.Carve(p, size);
  }

  /** A block taken from a page of queue i. */
  method TakeFrom(heap: PageHeap.Heap, p: Page, i: nat, ghost lists: seq<seq<Page>>, ghost cnt: Counts,
                  ghost owners: seq<ClientId>, ghost id: ClientId) returns (b: Block)
    requires Stocked(heap, lists, cnt, owners, id)
    requires p in heap.meta && heap.meta[p].free != 0 && i < |lists| == CXL_BIN_SIZE && p in lists[i]
    modifies heap`meta, heap`place, heap`sheets
    ensures Stocked(heap, lists, cnt, owners, id)
    ensures PageOf(b) == p && b !in Counted(cnt) && b in old(heap.place) && old(heap.place[b]).Free?
    ensures heap.place == old(heap.place)[b := Live]
    ensures forall slot | b <= slot < b + BlockSize(i) :: Unlogged(heap.ring, slot)
  {
    Unpack(heap, lists, cnt, owners, id);
    InUse(lists, heap.meta, i, p);
    b := heap.Take(p);
    TakeFits(lists, old(heap.meta), cnt, old(heap.place), heap.threadFree, owners, id, heap.meta, b, heap.place);
  }

  lemma TakeFits(lists: seq<seq<Page>>, meta: PageHeap.Metas, cnt: Counts, place: Places, tops: Tops,
                 owners: seq<ClientId>, id: ClientId, meta': PageHeap.Metas, b: Block, place': Places)
    requires Fits(lists, meta, cnt, place, tops, owners, id) && PageHeap.SameSizes(meta, meta')
    requires b in place && place[b].Free? && place' == place[b := Live]
    ensures Fits(lists, meta', cnt, place', tops, owners, id) && b !in Counted(cnt)
  {
    SizesMatch(lists, meta, meta');
    LivesOn(cnt, place, place');
  }

  /** A block freed by its owner; `gone` tells that its page was given back with it, which is
      so exactly when no other block of the page is live or waiting to be collected. No block of
      such a page is counted, and the pages left fit the queues without it. */
  method FreeLocal(heap: PageHeap.Heap, b: Block, ghost i: nat, ghost lists: seq<seq<Page>>, ghost cnt: Counts,
                   ghost owners: seq<ClientId>, ghost id: ClientId) returns (gone: bool)
    requires Stocked(heap, lists, cnt, owners, id) && i < |lists| && PageOf(b) in lists[i]
    requires b in heap.place && heap.place[b].Live? && b !in Counted(cnt)
    requires forall k | 0 <= k < |lists| && k != i :: PageOf(b) !in lists[k]
    modifies heap`next, heap`meta, heap`place, heap`sheets
    ensures gone <==> PageHeap.NoOtherOut(old(heap.place), b)
    ensures heap.place == if gone then Retired(old(heap.place), PageOf(b)) else old(heap.place)[b := Local]
    ensures PageOf(b) in old(heap.meta) && old(heap.meta)[PageOf(b)].used > 0
    ensures var p, m := PageOf(b), old(heap.meta)[PageOf(b)];
            heap.meta == if gone then old(heap.meta) - {p}
                         else old(heap.meta)[p := m.(localFree := b, used := m.used - 1)]
    ensures heap.next == old(heap.next)[b := old(heap.meta)[PageOf(b)].localFree]
    ensures !gone ==> Stocked(heap, lists, cnt, owners, id)
    ensures gone ==> Stocked(heap, lists[i := PageQueue.Without(lists[i], {PageOf(b)})], cnt, owners, id)
    ensures gone ==> forall x | x in Counted(cnt) :: PageOf(x) != PageOf(b)
  {
    Unpack(heap, lists, cnt, owners, id);
    heap.FreeLocally(b);
    gone := PageOf(b) !in heap.meta;
    FreeFits(lists, old(heap.meta), cnt, old(heap.place), heap.threadFree, owners, id, b, i, heap.meta, heap.place);
  }

  lemma FreeFits(lists: seq<seq<Page>>, meta: PageHeap.Metas, cnt: Counts, place: Places, tops: Tops,
                 owners: seq<ClientId>, id: ClientId, b: Block, i: nat, meta': PageHeap.Metas, place': Places)
    requires Fits(lists, meta, cnt, place, tops, owners, id) && i < |lists| && PageOf(b) in lists[i]
    requires b in place && b !in Counted(cnt) && forall k | 0 <= k < |lists| && k != i :: PageOf(b) !in lists[k]
    requires PageOf(b) !in meta' <==> PageHeap.NoOtherOut(place, b)
    requires place' == if PageOf(b) in meta' then place[b := Local] else Retired(place, PageOf(b))
    requires PageHeap.SizesWithout(meta, meta', if PageOf(b) in meta' then {} else {PageOf(b)})
    ensures var gone := PageOf(b) !in meta';
            && Fits(if gone then lists[i := PageQueue.Without(lists[i], {PageOf(b)})] else lists, meta', cnt, place',
                    tops, owners, id)
            && (gone ==> forall x | x in Counted(cnt) :: PageOf(x) != PageOf(b))
  {
    var gone := PageOf(b) !in meta';
    FreedLives(cnt, place, b, place', gone);
    if gone {
      GoneMatches(lists, meta, i, PageOf(b), meta');
    } else {
      SizesMatch(lists, meta, meta');
    }
  }

  /** A block freed by another client. */
  method FreeAway(heap: PageHeap.Heap, b: Block, ghost lists: seq<seq<Page>>, ghost cnt: Counts,
                  ghost owners: seq<ClientId>, ghost id: ClientId)
    requires Stocked(heap, lists, cnt, owners, id)
    requires b in heap.place && heap.place[b].Live? && b !in Counted(cnt)
    modifies heap`next, heap`threadFree, heap`place, heap`stacks
    ensures Stocked(heap, lists, cnt, owners, id)
    ensures SegOf(b) in heap.threadFree && heap.threadFree[SegOf(b)] == b
    ensures heap.place == old(heap.place)[b := Remote]
  {
    Unpack(heap, lists, cnt, owners, id);
    AwayFits(lists, heap.meta, cnt, heap.place, heap.threadFree, owners, id, b, SegOf(b));
    HeapFacts(heap);
    heap.FreeRemotely(b);
  }

  lemma AwayFits(lists: seq<seq<Page>>, meta: PageHeap.Metas, cnt: Counts, place: Places, tops: Tops,
                 owners: seq<ClientId>, id: ClientId, b: Block, g: SegId)
    requires Fits(lists, meta, cnt, place, tops, owners, id) && b !in Counted(cnt)
    ensures g in tops ==> Fits(lists, meta, cnt, place[b := Remote], tops[g := b], owners, id)
  {
  }

  /** A segment without a page in use goes. */
  method DropSegment(heap: PageHeap.Heap, g: SegId, ghost lists: seq<seq<Page>>, ghost cnt: Counts,
                     ghost owners: seq<ClientId>, ghost owners': seq<ClientId>, ghost id: ClientId)
    requires Stocked(heap, lists, cnt, owners, id) && g < |owners| && owners' == owners[g := 0]
    requires forall p: Page | OnQueue(lists, p) :: p / PAGES_PER_SEGMENT != g
    modifies heap`threadFree, heap`stacks
    ensures Stocked(heap, lists, cnt, owners', id)
  {
    Unpack(heap, lists, cnt, owners, id);
    heap.Drop(g);
  }

  /** Segments claimed since change nothing. */
  lemma Reclaimed(heap: PageHeap.Heap, lists: seq<seq<Page>>, cnt: Counts, owners: seq<ClientId>,
                  owners': seq<ClientId>, id: ClientId)
    requires Stocked(heap, lists, cnt, owners, id) && Claimed(owners, owners', id)
    ensures Stocked(heap, lists, cnt, owners', id)
  {
    Unpack(heap, lists, cnt, owners, id);
    OwnersKept(heap.threadFree, owners, owners', id);
  }

  /** A change to the counts that leaves counted only live blocks. */
  lemma Recounted(heap: PageHeap.Heap, lists: seq<seq<Page>>, cnt: Counts, cnt': Counts, owners: seq<ClientId>,
                  id: ClientId)
    requires Stocked(heap, lists, cnt, owners, id)
    requires forall b | b in Counted(cnt') :: b in Counted(cnt) || (b in heap.place && heap.place[b].Live?)
    ensures Stocked(heap, lists, cnt', owners, id)
  {
    Unpack(heap, lists, cnt, owners, id);
  }

  // ----- the queues of the client

  /** Entries without an owner may have become this client's. */
  ghost predicate Claimed(owners: seq<ClientId>, owners': seq<ClientId>, id: ClientId) {
    && |owners'| == |owners| && id != 0
    && forall s | 0 <= s < |owners| :: owners'[s] == owners[s] || (owners[s] == 0 && owners'[s] == id)
  }

  /** Walking queue i by its links. */
  lemma LinksOf(client: Segments.Client, i: nat)
    requires client.Valid() && i < |client.bins|
    ensures Leads(client.headers.next, client.bins[i].first, client.Lists()[i])
  {
    assert Segments.BinOk(client.bins, client.headers, client.taken, i);
    LinkedLeads(client.headers.next, client.headers.prev, client.bins[i].first, client.bins[i].list);
  }

  /** Pages on the queues are pages taken from free_page. */
  lemma QueuedIsTaken(client: Segments.Client, p: Page)
    requires client.Valid() && OnQueue(client.Lists(), p)
    ensures p in client.taken
  {
    var lists := client.Lists();
    var k :| 0 <= k < |lists| && p in lists[k];
    assert Segments.BinOk(client.bins, client.headers, client.taken, k);
    Segments.InElems(client.bins[k].list, p);
  }

  /** No page of a segment that the client does not own is queued. */
  lemma NotQueued(client: Segments.Client, g: SegId)
    requires client.Valid() && g < client.vec.Length && client.vec[g] != client.id
    ensures forall p: Page | OnQueue(client.Lists(), p) :: p / PAGES_PER_SEGMENT != g
  {
    forall p: Page | OnQueue(client.Lists(), p) ensures p / PAGES_PER_SEGMENT != g {
      QueuedIsTaken(client, p);
      assert Segments.Mine(client.vec[..], client.id, p);
    }
  }

  /** The page is on one queue only. */
  lemma OneQueue(client: Segments.Client, i: nat, p: Page)
    requires client.Valid() && i < |client.bins| && p in client.bins[i].list
    ensures forall k | 0 <= k < |client.bins| && k != i :: p !in client.bins[k].list
  {
    assert Segments.BinOk(client.bins, client.headers, client.taken, i);
    Segments.InElems(client.bins[i].list, p);
    forall k | 0 <= k < |client.bins| && k != i ensures p !in client.bins[k].list {
      Segments.InElems(client.bins[k].list, p);
    }
  }

  /** A page just taken was not in use. */
  lemma NotCarved(client: Segments.Client, heap: PageHeap.Heap, cnt: Counts)
    requires client.Valid() && Stocked(heap, client.Lists(), cnt, client.vec[..], client.id)
    ensures forall p | p in heap.meta :: p in client.taken
  {
    Unpack(heap, client.Lists(), cnt, client.vec[..], client.id);
    forall p | p in heap.meta ensures p in client.taken {
      QueuedIsTaken(client, p);
    }
  }

  /** The queue part of `cxl_page_fresh`. */
  method QueueFresh(client: Segments.Client, i: nat) returns (page: Option<Page>)
    requires client.Valid() && i < |client.bins|
    modifies client`used, client`taken, client.vec, client.headers, client.freePage, client.bins[i]
    ensures client.Valid() && Claimed(old(client.vec[..]), client.vec[..], client.id)
    ensures Segments.ClaimsAsNeeded(old(client.vec[..]), client.vec[..], client.id, old(client.freePage.list))
    ensures page.None? ==> client.Lists() == old(client.Lists())
    ensures page.None? ==> forall s | 0 <= s < client.vec.Length :: client.vec[s] != 0
    ensures page.Some? ==> client.Lists() == old(client.Lists())[i := [page.value] + old(client.Lists())[i]]
    ensures page.Some? ==> page.value !in old(client.taken) && page.value > 0
    ensures page.Some? ==> page.value / PAGES_PER_SEGMENT < client.vec.Length
    ensures page.Some? ==> client.vec[page.value / PAGES_PER_SEGMENT] == client.id
  {
    page := client.PageFresh(i);
    if page.Some? {
      assert page.value in client.taken;
      assert Segments.Mine(client.vec[..], client.id, page.value);
    }
  }

  /** The count words change, and no block becomes counted or not. */
  lemma OneMore(cnt: Counts, b: Block)
    requires b in Counted(cnt)
    ensures Counted(cnt[b := cnt[b] + 1]) == Counted(cnt)
  {
  }

  lemma OneLess(cnt: Counts, b: Block)
    requires b in Counted(cnt)
    ensures cnt[b] > 0
    ensures Counted(cnt[b := cnt[b] - 1]) == if cnt[b] == 1 then Counted(cnt) - {b} else Counted(cnt)
  {
  }

  lemma FirstCount(cnt: Counts, b: Block)
    ensures Counted(cnt[b := 1]) == Counted(cnt) + {b}
  {
  }

  lemma EmptyFits(heap: PageHeap.Heap, lists: seq<seq<Page>>, cnt: Counts, owners: seq<ClientId>, id: ClientId)
    requires heap.Valid() && heap.meta == map[] && heap.threadFree == map[] && cnt == map[]
    requires |lists| == CXL_BIN_SIZE && forall i | 0 <= i < |lists| :: lists[i] == []
    ensures Stocked(heap, lists, cnt, owners, id)
  {
  }

  class Allocator {
    const client: Segments.Client
    const heap: PageHeap.Heap
    var cnt: Counts // the count words of the objects

    ghost predicate Valid()
      reads this, heap, client, client.vec, client.headers, client.freePage, client.bins
    {
      && client.Valid() && client.counted == Counted(cnt)
      && Stocked(heap, client.Lists(), cnt, client.vec[..], client.id)
    }

    constructor (client: Segments.Client, heap: PageHeap.Heap)
      requires client.Valid() && heap.Valid() && heap.meta == map[] && heap.threadFree == map[]
      requires client.counted == {} && forall i | 0 <= i < |client.bins| :: client.bins[i].list == []
      ensures Valid() && cnt == map[] && this.client == client && this.heap == heap
    {
      this.client, this.heap, cnt := client, heap, map[];
      new;
      EmptyFits(heap, client.Lists(), cnt, client.vec[..], client.id);
    }

    /** `cxl_page_fresh`: a page from free_page, in a segment of the client, queued and carved.
        The code carves first; that sets both links of the page to 0, which they are already. */
    method Fresh(i: nat) returns (page: Option<Page>)
      requires Valid() && i < |client.bins| && heap.logged == {} && heap.ring == CLEARED
      requires Spent(heap.place, client.bins[i].list, |client.bins[i].list|)
      modifies client`used, client`taken, client.vec, client.headers, client.freePage, client.bins[i], heap
      ensures Valid() && heap.ring == CLEARED
      ensures Segments.ClaimsAsNeeded(old(client.vec[..]), client.vec[..], client.id, old(client.freePage.list))
      ensures Spent(heap.place, old(client.bins[i].list), |old(client.bins[i].list)|)
      ensures page.Some? ==> client.bins[i].list == [page.value] + old(client.bins[i].list)
      ensures page.Some? ==> page.value in heap.meta && heap.meta[page.value].free != 0
      ensures page.None? ==> heap.place == old(heap.place) && client.bins[i].list == old(client.bins[i].list)
      ensures SameLive(old(heap.place), heap.place)
      ensures page.None? ==> forall s | 0 <= s < client.vec.Length :: client.vec[s] != 0
    {
      ghost var lists, owners := client.Lists(), client.vec[..];
      NotCarved(client, heap, cnt);
      page := QueueFresh(client, i);
      Reclaimed(heap, lists, cnt, owners, client.vec[..], client.id);
      if page.Some? {
        CarveFresh(heap, page.value, i, lists, cnt, client.vec[..], client.id);
      }
    }

    /** `cxl_find_page` and, if the first page has no free block, `cxl_malloc_generic`: a page of
        queue i with a free block. It is a fresh one only when every block of every other page
        on the queue is live, and there is none only when moreover every segment has an owner.
        At most one segment is claimed, the first without an owner, and only for lack of a free page.
        Unless the first page has a free block, the redo ring is cleared first. */
    method FindPage(i: nat) returns (page: Option<Page>)
      requires Valid() && i < |client.bins|
      modifies client`used, client`taken, client.vec, client.headers, client.freePage, client.bins[i], heap
      ensures Valid()
      ensures page.Some? ==> page.value in client.bins[i].list && page.value in heap.meta
      ensures page.Some? ==> heap.meta[page.value].free != 0
      ensures heap.ring != CLEARED ==>
                && old(client.bins[i].list) != [] && page == Some(old(client.bins[i].list)[0])
                && heap.place == old(heap.place)
      ensures client.bins[i].list != old(client.bins[i].list) ==>
                && page.Some? && client.bins[i].list == [page.value] + old(client.bins[i].list)
                && Spent(heap.place, old(client.bins[i].list), |old(client.bins[i].list)|)
      ensures page.None? ==> Spent(heap.place, client.bins[i].list, |client.bins[i].list|)
      ensures page.None? ==> forall s | 0 <= s < client.vec.Length :: client.vec[s] != 0
      ensures SameLive(old(heap.place), heap.place)
      ensures Segments.ClaimsAsNeeded(old(client.vec[..]), client.vec[..], client.id, old(client.freePage.list))
    {
      LinksOf(client, i);
      page := FindQueued(heap, client.headers, client.bins[i].first, i, client.Lists(), cnt, client.vec[..], client.id);
      if page.None? {
        ghost var place := heap.place;
        page := Fresh(i);
        SameLiveTwice(old(heap.place), place, heap.place);
      }
    }

    /** A block of size class i, for a root, a message queue or an object: it was free, and the
        redo ring names no slot in it. */
    method AllocBlock(i: nat) returns (block: Option<Block>)
      requires Valid() && i < |client.bins|
      modifies client`used, client`taken, client.vec, client.headers, client.freePage, client.bins[i], heap
      ensures Valid()
      ensures block.Some? ==> PageOf(block.value) in client.bins[i].list && block.value !in Counted(cnt)
      ensures block.Some? ==> block.value in heap.place && block.value !in LiveBlocks(old(heap.place))
      ensures LiveBlocks(heap.place)
           == LiveBlocks(old(heap.place)) + (if block.Some? then {block.value} else {})
      ensures forall b | b in old(heap.place) :: b in heap.place
      ensures block.Some? ==>
                forall slot | block.value <= slot < block.value + BlockSize(i) :: Unlogged(heap.ring, slot)
      ensures block.None? ==> Spent(heap.place, client.bins[i].list, |client.bins[i].list|)
      ensures block.None? ==> forall s | 0 <= s < client.vec.Length :: client.vec[s] != 0
    {
      var page := FindPage(i);
      SameBlocks(old(heap.place), heap.place);
      if page.None? {
        return None;
      }
      ghost var place := heap.place;
      var b := TakeFrom(heap, page.value, i, client.Lists(), cnt, client.vec[..], client.id);
      TakenBlocks(old(heap.place), place, b);
      block := Some(b);
    }

    /** `block_to_cxlobj`: an object with its first count. */
    method AllocObject(i: nat) returns (block: Option<Block>)
      requires Valid() && 2 <= i < |client.bins|
      modifies this`cnt, client, client.vec, client.headers, client.freePage, client.bins[i], heap
      ensures Valid()
      ensures block.Some? ==> block.value !in Counted(old(cnt)) && cnt == old(cnt)[block.value := 1]
      ensures block.Some? ==> block.value !in LiveBlocks(old(heap.place))
      ensures LiveBlocks(heap.place)
           == LiveBlocks(old(heap.place)) + (if block.Some? then {block.value} else {})
      ensures forall b | b in old(heap.place) :: b in heap.place
      ensures block.Some? ==> PageOf(block.value) in client.bins[i].list
      ensures block.Some? ==>
                forall slot | block.value <= slot < block.value + BlockSize(i) :: Unlogged(heap.ring, slot)
      ensures block.None? ==> cnt == old(cnt) && Spent(heap.place, client.bins[i].list, |client.bins[i].list|)
      ensures block.None? ==> forall s | 0 <= s < client.vec.Length :: client.vec[s] != 0
    {
      block := AllocBlock(i);
      if block.Some? {
        FirstCount(cnt, block.value);
        ghost var lists := client.Lists();
        Recounted(heap, lists, cnt, cnt[block.value := 1], client.vec[..], client.id);
        client.Count(block.value, i);
        assert client.Lists() == lists;
        cnt := cnt[block.value := 1];
      }
    }

    /** `link_reference` on an object of this client, by anybody. */
    method LinkObject(b: Block)
      requires Valid() && b in Counted(cnt)
      modifies this`cnt
      ensures Valid() && cnt == old(cnt)[b := old(cnt)[b] + 1]
    {
      OneMore(cnt, b);
      Recounted(heap, client.Lists(), cnt, cnt[b := cnt[b] + 1], client.vec[..], client.id);
      cnt := cnt[b := cnt[b] + 1];
    }

    /** `unlink_reference` on an object of this client, by anybody. */
    method UnlinkObject(b: Block)
      requires Valid() && b in Counted(cnt)
      modifies this`cnt, client`counted
      ensures Valid() && old(cnt)[b] > 0 && cnt == old(cnt)[b := old(cnt)[b] - 1]
    {
      OneLess(cnt, b);
      ghost var lists := client.Lists();
      Recounted(heap, lists, cnt, cnt[b := cnt[b] - 1], client.vec[..], client.id);
      if cnt[b] == 1 {
        client.Uncount(b);
        assert client.Lists() == lists;
      }
      cnt := cnt[b := cnt[b] - 1];
    }

    /** `cxl_free` by the owner: the block heads the local list of its page, and `used` is one
        less. The page is given back exactly when none of its other blocks is
        live or waiting to be collected; then it leaves the queue that its block size leads to,
        no counted block lay on it, and its segment goes too if that was the last page. */
    method FreeBlock(b: Block, special: bool, ghost i: nat)
      requires Valid() && b in heap.place && heap.place[b].Live? && b !in Counted(cnt)
      requires i < |client.bins| && PageOf(b) in client.bins[i].list && special == (i < 2)
      modifies client`used, client`taken, client.vec, client.headers, client.freePage, client.bins[i], heap
      ensures Valid()
      ensures client.bins[i].list == if PageHeap.NoOtherOut(old(heap.place), b)
                                     then PageQueue.Without(old(client.bins[i].list), {PageOf(b)})
                                     else old(client.bins[i].list)
      ensures PageOf(b) in old(heap.meta) && old(heap.meta)[PageOf(b)].used > 0
      ensures heap.place == if PageHeap.NoOtherOut(old(heap.place), b) then Retired(old(heap.place), PageOf(b))
                            else old(heap.place)[b := Local]
      ensures var p, m := PageOf(b), old(heap.meta)[PageOf(b)];
              heap.meta == if PageHeap.NoOtherOut(old(heap.place), b) then old(heap.meta) - {p}
                           else old(heap.meta)[p := m.(localFree := b, used := m.used - 1)]
      ensures heap.next == old(heap.next)[b := old(heap.meta)[PageOf(b)].localFree]
    {
      var p := PageOf(b);
      OneQueue(client, i, p);
      QueueOf(heap, p, i, client.Lists(), cnt, client.vec[..], client.id);
      var size := heap.meta[p].size;
      var gone := FreeLocal(heap, b, i, client.Lists(), cnt, client.vec[..], client.id);
      if gone {
        GivePage(p, Bin(special, size));
      }
    }

    /** `cxl_page_free` of a page whose header is wiped already: its queue, and its segment. */
    method GivePage(page: Page, i: nat)
      requires client.Valid() && client.counted == Counted(cnt) && i < |client.bins| && page in client.bins[i].list
      requires Stocked(heap, client.Lists()[i := PageQueue.Without(client.Lists()[i], {page})], cnt, client.vec[..],
                       client.id)
      requires forall b | b in Counted(cnt) :: PageOf(b) != page
      modifies client`used, client`taken, client.vec, client.headers, client.freePage, client.bins[i]
      modifies heap`threadFree, heap`stacks
      ensures Valid() && client.bins[i].list == PageQueue.Without(old(client.bins[i].list), {page})
    {
      ghost var owners := client.vec[..];
      client.FreePage(page, i);
      var g := page / PAGES_PER_SEGMENT;
      if client.vec[g] != client.id {
        NotQueued(client, g);
        DropSegment(heap, g, client.Lists(), cnt, owners, client.vec[..], client.id);
      }
    }

    /** `cxl_free` by another client. */
    method FreeRemote(b: Block)
      requires Valid() && b in heap.place && heap.place[b].Live? && b !in Counted(cnt)
      modifies heap`next, heap`threadFree, heap`place, heap`stacks
      ensures Valid() && SegOf(b) in heap.threadFree && heap.threadFree[SegOf(b)] == b
      ensures heap.place == old(heap.place)[b := Remote]
    {
      FreeAway(heap, b, client.Lists(), cnt, client.vec[..], client.id);
    }
  }

  /** The block size in the header leads to the queue the page is on. */
  lemma QueueOf(heap: PageHeap.Heap, p: Page, i: nat, lists: seq<seq<Page>>, cnt: Counts, owners: seq<ClientId>,
                id: ClientId)
    requires Stocked(heap, lists, cnt, owners, id) && i < |lists| && p in lists[i]
    ensures i < CXL_BIN_SIZE && p in heap.meta && heap.meta[p].size > 0 && Bin(i < 2, heap.meta[p].size) == i
  {
    Unpack(heap, lists, cnt, owners, id);
    InUse(lists, heap.meta, i, p);
    BinBack(i);
  }

  /** A page on a queue is in use, in a segment of the client, and its header fits. */
  lemma PageInUse(heap: PageHeap.Heap, lists: seq<seq<Page>>, cnt: Counts, owners: seq<ClientId>, id: ClientId,
                  i: nat, p: Page)
    requires Stocked(heap, lists, cnt, owners, id) && i < |lists| && p in lists[i]
    ensures p > 0 && p in heap.meta && p / PAGES_PER_SEGMENT < |owners| && 0 < heap.meta[p].size <= PAGE_SIZE
    ensures heap.meta[p].free == 0 || (heap.meta[p].free in heap.place && PageOf(heap.meta[p].free) == p)
  {
    Unpack(heap, lists, cnt, owners, id);
    InUse(lists, heap.meta, i, p);
    BinBack(i);
    assert PageOk(heap.next, heap.place, p, heap.sheets[p]);
    assert Covers(heap.place, p, heap.sheets[p].meta.size);
    assert heap.meta[p].free != 0 ==> heap.meta[p].free in heap.sheets[p].free;
  }

  /** Every block lies on the grid of its page. */
  lemma BlockInUse(heap: PageHeap.Heap, b: Block) returns (k: nat)
    requires heap.Valid() && b in heap.place
    ensures PageOf(b) in heap.meta && heap.meta[PageOf(b)].size > 0
    ensures k < PAGE_SIZE / heap.meta[PageOf(b)].size && b == BlockAt(PageOf(b), heap.meta[PageOf(b)].size, k)
  {
    var p := PageOf(b);
    assert Covers(heap.place, p, heap.sheets[p].meta.size);
    var size := heap.meta[p].size;
    k :| 0 <= k < Capacity(size) && b == Grid(p, size, Capacity(size))[k];
  }
}
