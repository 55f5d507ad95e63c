/** Claiming segments, handing out their pages, and giving both back. */
module Segments {
  import opened Common
  import opened Addresses
  import opened PageQueue

  type SegId = nat

  type Block = nat // its offset in the segments area

  function SegOf(p: Page): SegId {
    p / PAGES_PER_SEGMENT
  }

  /** `&segment->meta_page[i]`; page 0 of a segment holds the headers and is never used. */
  function PageNo(s: SegId, i: nat): Page {
    s * PAGES_PER_SEGMENT + i
  }

  /** Pages i, i + 1, .. of a segment. */
  function PagesFrom(s: SegId, i: nat): (list: seq<Page>)
    requires i <= PAGES_PER_SEGMENT
    ensures |list| == PAGES_PER_SEGMENT - i && forall k | 0 <= k < |list| :: list[k] == PageNo(s, i + k)
    decreases PAGES_PER_SEGMENT - i
  {
    if i == PAGES_PER_SEGMENT then [] else [PageNo(s, i)] + PagesFrom(s, i + 1)
  }

  /** Pages 1 .. i - 1 of a segment. */
  function PagesTo(s: SegId, i: nat): set<Page> {
    set k | 1 <= k < i :: PageNo(s, k)
  }

  function Whole(s: SegId): set<Page> {
    PagesTo(s, PAGES_PER_SEGMENT)
  }

  function Within(pages: set<Page>, s: SegId): set<Page> {
    set p | p in pages && SegOf(p) == s
  }

  // ----- the books of one client

  /** The page is a usable page of a segment the client owns. */
  predicate Mine(owners: seq<ClientId>, id: ClientId, p: Page) {
    SegOf(p) < |owners| && owners[SegOf(p)] == id && p in Whole(SegOf(p))
  }

  ghost predicate SegOk(free: set<Page>, taken: set<Page>, used: map<SegId, nat>, s: SegId) {
    s in used && used[s] == |Within(taken, s)| && Whole(s) <= free + taken
  }

  /** Every usable page of every owned segment is free or taken, not both, and no other
      page is; `used` counts the pages taken. */
  ghost predicate PoolOk(owners: seq<ClientId>, id: ClientId, free: set<Page>, taken: set<Page>,
                         used: map<SegId, nat>)
  {
    && free !! taken
    && (forall p {:trigger Mine(owners, id, p)} | p in free || p in taken :: Mine(owners, id, p))
    && (forall s: SegId {:trigger SegOk(free, taken, used, s)} | s < |owners| && owners[s] == id ::
        SegOk(free, taken, used, s))
  }

  lemma PageInSeg(s: SegId, i: nat)
    requires i < PAGES_PER_SEGMENT
    ensures SegOf(PageNo(s, i)) == s
  {
  }

  lemma WholeIn(s: SegId, p: Page)
    requires p in Whole(s)
    ensures SegOf(p) == s && p != 0
  {
  }

  lemma {:induction false} CountTo(s: SegId, i: nat)
    requires 1 <= i
    ensures |PagesTo(s, i)| == i - 1
    decreases i
  {
    if i == 1 {
      assert PagesTo(s, 1) == {};
    } else {
      CountTo(s, i - 1);
      assert PagesTo(s, i) == PagesTo(s, i - 1) + {PageNo(s, i - 1)};
    }
  }

  /** Segment accounting: free pages and pages in use make up the segment. */
  lemma Accounting(owners: seq<ClientId>, id: ClientId, free: set<Page>, taken: set<Page>, used: map<SegId, nat>,
                   s: SegId)
    requires PoolOk(owners, id, free, taken, used) && s < |owners| && owners[s] == id
    ensures s in used && |Within(free, s)| + used[s] == PAGES_PER_SEGMENT - 1
    ensures used[s] == 0 <==> Within(taken, s) == {}
    ensures used[s] == 0 <==> Whole(s) <= free
  {
    assert SegOk(free, taken, used, s);
    forall p | p in Within(free, s) + Within(taken, s) ensures p in Whole(s) {
      assert Mine(owners, id, p);
    }
    forall p | p in Whole(s) ensures p in Within(free, s) + Within(taken, s) {
      WholeIn(s, p);
    }
    assert Whole(s) == Within(free, s) + Within(taken, s);
    CountTo(s, PAGES_PER_SEGMENT);
    if Whole(s) <= free {
      assert Within(taken, s) == {};
    }
  }

  lemma OtherSeg(free: set<Page>, taken: set<Page>, used: map<SegId, nat>, free': set<Page>, taken': set<Page>,
                 used': map<SegId, nat>, s: SegId)
    requires SegOk(free, taken, used, s) && s in used' && used'[s] == used[s]
    requires Within(free', s) == Within(free, s) && Within(taken', s) == Within(taken, s)
    ensures SegOk(free', taken', used', s)
  {
    forall p | p in Whole(s) ensures p in free' + taken' {
      WholeIn(s, p);
      assert p in Within(free, s) + Within(taken, s);
      assert p in Within(free', s) + Within(taken', s);
    }
  }

  /** A newly claimed segment: all its pages are free. */
  lemma ClaimOk(owners: seq<ClientId>, id: ClientId, free: set<Page>, taken: set<Page>, used: map<SegId, nat>, s: SegId)
    requires PoolOk(owners, id, free, taken, used) && s < |owners| && owners[s] == 0 != id
    ensures PoolOk(owners[s := id], id, free + Whole(s), taken, used[s := 0])
    ensures Whole(s) !! free
  {
    forall p | p in free || p in taken ensures Mine(owners[s := id], id, p) && SegOf(p) != s {
      assert Mine(owners, id, p);
    }
    forall p | p in Whole(s) ensures Mine(owners[s := id], id, p) && p !in free && p !in taken {
      WholeIn(s, p);
    }
    var owners' := owners[s := id];
    forall q: SegId | q < |owners| && owners'[q] == id ensures SegOk(free + Whole(s), taken, used[s := 0], q) {
      if q == s {
        assert Within(taken, s) == {};
      } else {
        assert SegOk(free, taken, used, q);
        forall p | p in Whole(s) ensures SegOf(p) != q {
          WholeIn(s, p);
        }
        assert Within(free + Whole(s), q) == Within(free, q);
        OtherSeg(free, taken, used, free + Whole(s), taken, used[s := 0], q);
      }
    }
  }

  lemma TakePageOk(owners: seq<ClientId>, id: ClientId, free: set<Page>, taken: set<Page>, used: map<SegId, nat>,
                   p: Page)
    requires PoolOk(owners, id, free, taken, used) && p in free
    ensures SegOf(p) < |owners| && owners[SegOf(p)] == id && SegOf(p) in used
    ensures PoolOk(owners, id, free - {p}, taken + {p}, used[SegOf(p) := used[SegOf(p)] + 1])
  {
    var s := SegOf(p);
    var used' := used[s := (if s in used then used[s] else 0) + 1];
    assert Mine(owners, id, p);
    assert SegOk(free, taken, used, s);
    assert Within(taken + {p}, s) == Within(taken, s) + {p};
    forall q: SegId | q < |owners| && owners[q] == id ensures SegOk(free - {p}, taken + {p}, used', q) {
      assert SegOk(free, taken, used, q);
      if q != s {
        assert Within(free - {p}, q) == Within(free, q) && Within(taken + {p}, q) == Within(taken, q);
        OtherSeg(free, taken, used, free - {p}, taken + {p}, used', q);
      }
    }
    forall x | x in free - {p} || x in taken + {p} ensures Mine(owners, id, x) {
    }
  }

  lemma PutPageOk(owners: seq<ClientId>, id: ClientId, free: set<Page>, taken: set<Page>, used: map<SegId, nat>,
                  p: Page)
    requires PoolOk(owners, id, free, taken, used) && p in taken
    ensures SegOf(p) < |owners| && owners[SegOf(p)] == id && SegOf(p) in used && used[SegOf(p)] > 0 && p !in free
    ensures PoolOk(owners, id, free + {p}, taken - {p}, used[SegOf(p) := used[SegOf(p)] - 1])
  {
    var s := SegOf(p);
    assert Mine(owners, id, p);
    assert SegOk(free, taken, used, s);
    assert p in Within(taken, s);
    assert Within(taken - {p}, s) == Within(taken, s) - {p};
    var used' := used[s := used[s] - 1];
    forall q: SegId | q < |owners| && owners[q] == id ensures SegOk(free + {p}, taken - {p}, used', q) {
      assert SegOk(free, taken, used, q);
      if q != s {
        assert Within(free + {p}, q) == Within(free, q) && Within(taken - {p}, q) == Within(taken, q);
        OtherSeg(free, taken, used, free + {p}, taken - {p}, used', q);
      }
    }
    forall x | x in free + {p} || x in taken - {p} ensures Mine(owners, id, x) {
    }
  }

  /** An unused segment given back. */
  lemma DropOk(owners: seq<ClientId>, id: ClientId, free: set<Page>, taken: set<Page>, used: map<SegId, nat>, s: SegId)
    requires PoolOk(owners, id, free, taken, used) && s < |owners| && owners[s] == id != 0 && s in used && used[s] == 0
    ensures Whole(s) <= free
    ensures PoolOk(owners[s := 0], id, free - Whole(s), taken, used)
  {
    assert SegOk(free, taken, used, s);
    assert Within(taken, s) == {};
    forall p | p in Whole(s) ensures p in free {
      WholeIn(s, p);
      assert p in taken ==> p in Within(taken, s);
    }
    forall p | p in free - Whole(s) || p in taken ensures Mine(owners[s := 0], id, p) {
      assert Mine(owners, id, p);
      assert p in taken && SegOf(p) == s ==> p in Within(taken, s);
    }
    var owners' := owners[s := 0];
    forall q: SegId | q < |owners| && owners'[q] == id ensures SegOk(free - Whole(s), taken, used, q) {
      assert SegOk(free, taken, used, q);
      forall p | p in Whole(s) ensures SegOf(p) != q {
        WholeIn(s, p);
      }
      assert Within(free - Whole(s), q) == Within(free, q);
      OtherSeg(free, taken, used, free - Whole(s), taken, used, q);
    }
  }

  /** No page is in the books of two clients. */
  lemma NoSharedPage(owners: seq<ClientId>, a: ClientId, b: ClientId,
                     freeA: set<Page>, takenA: set<Page>, usedA: map<SegId, nat>,
                     freeB: set<Page>, takenB: set<Page>, usedB: map<SegId, nat>)
    requires a != b && PoolOk(owners, a, freeA, takenA, usedA) && PoolOk(owners, b, freeB, takenB, usedB)
    ensures freeA + takenA !! freeB + takenB
  {
    forall p | p in freeA + takenA ensures p !in freeB + takenB {
      assert Mine(owners, a, p);
      assert !Mine(owners, b, p);
    }
  }

  /** Claiming and giving back disturb no other client. */
  lemma OthersKept(owners: seq<ClientId>, owners': seq<ClientId>, a: ClientId, b: ClientId,
                   free: set<Page>, taken: set<Page>, used: map<SegId, nat>)
    requires PoolOk(owners, b, free, taken, used) && b != 0 && b != a && |owners'| == |owners|
    requires forall s | 0 <= s < |owners| :: owners'[s] == owners[s] || {owners[s], owners'[s]} <= {0, a}
    ensures PoolOk(owners', b, free, taken, used)
  {
    forall p | p in free || p in taken ensures Mine(owners', b, p) {
      assert Mine(owners, b, p);
    }
    forall s: SegId | s < |owners'| && owners'[s] == b ensures SegOk(free, taken, used, s) {
      assert owners[s] in {owners[s], owners'[s]} && owners'[s] in {owners[s], owners'[s]};
    }
  }

  lemma ElemsPush(s: SegId, i: nat, list: seq<Page>)
    requires 1 <= i < PAGES_PER_SEGMENT
    ensures [PageNo(s, i)] + (PagesFrom(s, i + 1) + list) == PagesFrom(s, i) + list
  {
  }

  lemma NotYet(s: SegId, i: nat, list: seq<Page>)
    requires 1 <= i < PAGES_PER_SEGMENT && Whole(s) !! Elems(list)
    ensures PageNo(s, i) != 0 && PageNo(s, i) !in PagesFrom(s, i + 1) + list
  {
    assert PageNo(s, i) in Whole(s);
  }

  lemma ElemsFrom(s: SegId, list: seq<Page>)
    ensures Elems(PagesFrom(s, 1) + list) == Elems(list) + Whole(s)
  {
    var pages := PagesFrom(s, 1);
    forall p | p in Whole(s) ensures p in pages {
      var k :| 1 <= k < PAGES_PER_SEGMENT && p == PageNo(s, k);
      assert pages[k - 1] == p;
    }
    forall p | p in pages ensures p in Whole(s) {
    }
  }

  lemma ElemsWithout(list: seq<Page>, gone: set<Page>)
    ensures Elems(Without(list, gone)) == Elems(list) - gone
  {
    forall p ensures p in Without(list, gone) <==> p in list && p !in gone {
      WithoutElems(list, gone, p);
    }
  }

  /** Page i is on the list when the pages before it are taken off. */
  lemma StillThere(list: seq<Page>, s: SegId, i: nat)
    requires 1 <= i < PAGES_PER_SEGMENT && Whole(s) <= Elems(list)
    ensures PageNo(s, i) in Without(list, PagesTo(s, i))
    ensures Elems(Without(list, PagesTo(s, i))) <= Elems(list)
    ensures PagesTo(s, i) + {PageNo(s, i)} == PagesTo(s, i + 1)
  {
    assert PageNo(s, i) in Whole(s);
    ElemsWithout(list, PagesTo(s, i));
    WithoutElems(list, PagesTo(s, i), PageNo(s, i));
  }

  /** Links that survive one change after another survive both. */
  lemma UntouchedTwice(a: Links, b: Links, c: Links, list: seq<Page>, rest: seq<Page>)
    requires Untouched(a, b, list) && Untouched(b, c, rest) && Elems(rest) <= Elems(list)
    ensures Untouched(a, c, list)
  {
    forall p | p in a && p !in list ensures p in c && c[p] == a[p] {
      assert p !in Elems(rest);
    }
  }

  /** A queue with other pages does not notice the change. */
  lemma QueueKept(next: Links, prev: Links, next': Links, prev': Links, head: Page, list: seq<Page>, changed: seq<Page>)
    requires Linked(next, prev, 0, head, list) && Elems(list) !! Elems(changed)
    requires Untouched(next, next', changed) && Untouched(prev, prev', changed)
    ensures Linked(next', prev', 0, head, list)
  {
    forall p | p in list ensures p !in changed {
      assert p in Elems(list);
    }
    LinkedFrame(next, prev, next', prev', 0, head, list);
  }

  // ----- the queues of the size classes

  lemma InElems(list: seq<Page>, p: Page)
    ensures p in list <==> p in Elems(list)
  {
  }

  /** The links of these pages are as before. */
  ghost predicate Fixed(links: Links, links': Links, pages: set<Page>) {
    forall p | p in links && p in pages :: p in links' && links'[p] == links[p]
  }

  lemma FixedTwice(a: Links, b: Links, c: Links, pages: set<Page>)
    requires Fixed(a, b, pages) && Fixed(b, c, pages)
    ensures Fixed(a, c, pages)
  {
  }

  lemma UntouchedFixed(links: Links, links': Links, list: seq<Page>, pages: set<Page>)
    requires Untouched(links, links', list) && pages !! Elems(list)
    ensures Fixed(links, links', pages)
  {
    forall p | p in links && p in pages ensures p !in list {
      assert p in list ==> p in Elems(list);
    }
  }

  /** A queue whose pages keep their links stays linked. */
  lemma QueueFixed(next: Links, prev: Links, next': Links, prev': Links, head: Page, list: seq<Page>, pages: set<Page>)
    requires Linked(next, prev, 0, head, list) && Elems(list) <= pages
    requires Fixed(next, next', pages) && Fixed(prev, prev', pages)
    ensures Linked(next', prev', 0, head, list)
  {
    forall p | p in list ensures p in pages {
      assert p in Elems(list);
    }
    LinkedFrame(next, prev, next', prev', 0, head, list);
  }

  /** Queue i is intact, has only pages handed out, and shares none with another queue. */
  ghost predicate BinOk(bins: seq<Queue>, h: Headers, taken: set<Page>, i: nat)
    requires i < |bins|
    reads bins, h
  {
    && bins[i].Valid(h) && Elems(bins[i].list) <= taken
    && forall k | 0 <= k < |bins| && k != i :: bins[k] != bins[i] && Elems(bins[k].list) !! Elems(bins[i].list)
  }

  /** The first segment without an owner has become this client's. */
  ghost predicate ClaimsFirst(owners: seq<ClientId>, owners': seq<ClientId>, id: ClientId, s: SegId) {
    && s < |owners| && owners[s] == 0 && (forall k | 0 <= k < s :: owners[k] != 0)
    && owners' == owners[s := id]
  }

  /** While there are free pages no segment is claimed, and otherwise at most one. */
  ghost predicate ClaimsAsNeeded(owners: seq<ClientId>, owners': seq<ClientId>, id: ClientId, free: seq<Page>) {
    owners' == owners || (free == [] && exists s :: ClaimsFirst(owners, owners', id, s))
  }

  /** Taking a free page: the first one there is, else the first of a segment just claimed. */
  ghost predicate TakesFirst(owners: seq<ClientId>, owners': seq<ClientId>, id: ClientId, free: seq<Page>,
                             free': seq<Page>, page: Page)
  {
    if free != [] then page == free[0] && owners' == owners && free' == Without(free, {page})
    else
      exists s ::
        && ClaimsFirst(owners, owners', id, s) && page == PageNo(s, 1)
        && free' == Without(PagesFrom(s, 1), {page})
  }

  lemma FirstOfClaimed(owners: seq<ClientId>, owners': seq<ClientId>, id: ClientId, s: SegId, list: seq<Page>,
                       free': seq<Page>, page: Page)
    requires ClaimsFirst(owners, owners', id, s) && list == PagesFrom(s, 1) + []
    requires TakesFirst(owners', owners', id, list, free', page)
    ensures TakesFirst(owners, owners', id, [], free', page)
  {
    assert PagesFrom(s, 1) + [] == PagesFrom(s, 1);
  }

  lemma TakesAsNeeded(owners: seq<ClientId>, owners': seq<ClientId>, id: ClientId, free: seq<Page>, free': seq<Page>,
                      page: Page)
    requires TakesFirst(owners, owners', id, free, free', page)
    ensures ClaimsAsNeeded(owners, owners', id, free) && |owners'| == |owners|
    ensures forall s | 0 <= s < |owners| :: owners'[s] == owners[s] || (owners[s] == 0 && owners'[s] == id)
  {
  }

  class Client {
    const id: ClientId
    const vec: array<ClientId>    // thread_id of every segment's allocation state, shared
    const headers: Headers
    const freePage: Queue
    const bins: seq<Queue>        // pages[]: root blocks, message queues, then the size classes
    var used: map<SegId, nat>
    ghost var taken: set<Page>    // pages taken off free_page
    ghost var counted: set<Block> // object blocks of this client's segments with a count

    /** The accounts of free and taken pages. */
    ghost predicate Books()
      reads this, vec, headers, freePage
    {
      && id != 0
      && freePage.Valid(headers)
      && PoolOk(vec[..], id, Elems(freePage.list), taken, used)
    }

    ghost predicate Queues()
      reads this, headers, bins
    {
      && |bins| == CXL_BIN_SIZE && freePage !in bins
      && forall i {:trigger BinOk(bins, headers, taken, i)} | 0 <= i < |bins| :: BinOk(bins, headers, taken, i)
    }

    /** A page of a size class for objects. */
    ghost predicate ObjectPage(p: Page)
      reads this, bins
    {
      exists i :: 2 <= i < |bins| && p in bins[i].list
    }

    /** What the monitor relies on when the client dies: every counted block lies on a page
        that is queued for a size class. */
    ghost predicate Valid()
      reads this, vec, headers, freePage, bins
    {
      Books() && Queues() && forall b | b in counted :: ObjectPage(PageOf(b))
    }

    /** The pages on each queue. */
    ghost function Lists(): (lists: seq<seq<Page>>)
      reads this, bins
      ensures |lists| == |bins| && forall i | 0 <= i < |bins| :: lists[i] == bins[i].list
    {
      seq(|bins|, i requires 0 <= i < |bins| reads this, bins => bins[i].list)
    }

    /** `thread_init` under an id that owns no segment. */
    constructor (id: ClientId, vec: array<ClientId>, headers: Headers)
      requires id != 0 && forall s | 0 <= s < vec.Length :: vec[s] != id
      ensures Valid() && fresh(freePage) && freePage.list == [] && taken == {} && counted == {}
      ensures this.id == id && this.vec == vec && this.headers == headers
      ensures forall i | 0 <= i < |bins| :: fresh(bins[i]) && bins[i].list == []
    {
      var free := new Queue();
      var queues: seq<Queue> := [];
      while |queues| < CXL_BIN_SIZE
        invariant |queues| <= CXL_BIN_SIZE && free.list == [] && free.first == 0 && free.last == 0 && free !in queues
        invariant forall i | 0 <= i < |queues| ::
                    fresh(queues[i]) && queues[i].list == [] && queues[i].first == 0 && queues[i].last == 0
        invariant forall i, k | 0 <= i < k < |queues| :: queues[i] != queues[k]
        invariant fresh(free)
      {
        var queue := new Queue();
        queues := queues + [queue];
      }
      this.id, this.vec, this.headers := id, vec, headers;
      freePage, bins := free, queues;
      used, taken, counted := map[], {}, {};
    }

    /** `cxl_segment_alloc`: claim the first free segment, if any, and put its pages on
        free_page in address order. A claimed segment had no owner, and no other entry changes. */
    method SegmentAlloc() returns (claimed: Option<SegId>)
      requires Books()
      modifies this`used, vec, headers, freePage
      ensures Books()
      ensures claimed.None? ==> vec[..] == old(vec[..]) && freePage.list == old(freePage.list)
      ensures claimed.None? ==> forall s | 0 <= s < vec.Length :: old(vec[s]) != 0
      ensures claimed.Some? ==> ClaimsFirst(old(vec[..]), vec[..], id, claimed.value)
      ensures claimed.Some? ==> freePage.list == PagesFrom(claimed.value, 1) + old(freePage.list)
      ensures Fixed(old(headers.next), headers.next, taken) && Fixed(old(headers.prev), headers.prev, taken)
    {
      var s := 0;
      while s < vec.Length && vec[s] != 0
        invariant s <= vec.Length && forall k | 0 <= k < s :: vec[k] != 0
      {
        s := s + 1;
      }
      if s == vec.Length {
        return None;
      }
      ghost var list := freePage.list;
      ClaimOk(vec[..], id, Elems(list), taken, used, s);
      vec[s] := id;
      used := used[s := 0];
      QueuePages(s);
      ElemsFrom(s, list);
      UntouchedFixed(old(headers.next), headers.next, freePage.list, taken);
      UntouchedFixed(old(headers.prev), headers.prev, freePage.list, taken);
      assert vec[..] == old(vec[..])[s := id];
      claimed := Some(s);
    }

    /** The loop over the pages of a claimed segment, from the last one down. */
    method QueuePages(s: SegId)
      requires freePage.Valid(headers) && Whole(s) !! Elems(freePage.list)
      modifies headers, freePage
      ensures freePage.Valid(headers) && freePage.list == PagesFrom(s, 1) + old(freePage.list)
      ensures Untouched(old(headers.next), headers.next, freePage.list)
      ensures Untouched(old(headers.prev), headers.prev, freePage.list)
    {
      ghost var list, next0, prev0 := freePage.list, headers.next, headers.prev;
      var i := PAGES_PER_SEGMENT - 1;
      while i >= 1
        invariant 0 <= i < PAGES_PER_SEGMENT && Pushed(PagesFrom(s, i + 1) + list, next0, prev0)
      {
        PushFree(s, i, list, next0, prev0);
        i := i - 1;
      }
    }

    /** free_page has exactly these pages, and only their links have changed. */
    ghost predicate Pushed(list: seq<Page>, next0: Links, prev0: Links)
      reads headers, freePage
    {
      && freePage.Valid(headers) && freePage.list == list
      && Untouched(next0, headers.next, list) && Untouched(prev0, headers.prev, list)
    }

    /** One round of the loop above. */
    method PushFree(s: SegId, i: nat, ghost list: seq<Page>, ghost next0: Links, ghost prev0: Links)
      requires 1 <= i < PAGES_PER_SEGMENT && Whole(s) !! Elems(list)
      requires Pushed(PagesFrom(s, i + 1) + list, next0, prev0)
      modifies headers, freePage
      ensures Pushed(PagesFrom(s, i) + list, next0, prev0)
    {
      ElemsPush(s, i, list);
      PageInSeg(s, i);
      NotYet(s, i, list);
      freePage.Push(headers, PageNo(s, i));
    }

    /** The last lines of `cxl_segment_page_alloc`. */
    method TakeFirst() returns (p: Page)
      requires Books() && freePage.first != 0
      modifies this`used, this`taken, headers, freePage
      ensures Books() && old(freePage.list) != [] && p == old(freePage.list)[0] && p != 0
      ensures freePage.list == Without(old(freePage.list), {p})
      ensures p !in old(taken) && taken == old(taken) + {p}
      ensures Fixed(old(headers.next), headers.next, old(taken)) && Fixed(old(headers.prev), headers.prev, old(taken))
    {
      p := freePage.first;
      assert p in Elems(freePage.list);
      TakePageOk(vec[..], id, Elems(freePage.list), taken, used, p);
      ElemsWithout(freePage.list, {p});
      freePage.Remove(headers, p);
      UntouchedFixed(old(headers.next), headers.next, old(freePage.list), taken);
      UntouchedFixed(old(headers.prev), headers.prev, old(freePage.list), taken);
      used := used[SegOf(p) := used[SegOf(p)] + 1];
      taken := taken + {p};
    }

    /** `cxl_segment_page_alloc`: the first free page, after claiming a segment if there is
        none. It fails only when every segment has an owner. */
    method PageAlloc() returns (page: Option<Page>)
      requires Books()
      modifies this`used, this`taken, vec, headers, freePage
      ensures Books()
      ensures page.None? ==> taken == old(taken) && forall s | 0 <= s < vec.Length :: vec[s] != 0
      ensures page.Some? ==> page.value !in old(taken) && taken == old(taken) + {page.value} && page.value != 0
      ensures page.Some? ==>
                TakesFirst(old(vec[..]), vec[..], id, old(freePage.list), freePage.list, page.value)
      ensures page.None? ==> vec[..] == old(vec[..]) && freePage.list == old(freePage.list) == []
      ensures Fixed(old(headers.next), headers.next, old(taken)) && Fixed(old(headers.prev), headers.prev, old(taken))
      decreases if freePage.list == [] then 1 else 0
    {
      if freePage.first == 0 {
        var claimed := SegmentAlloc();
        if claimed.None? {
          return None;
        }
        ghost var list, next, prev := freePage.list, headers.next, headers.prev;
        page := PageAlloc();
        FixedTwice(old(headers.next), next, headers.next, old(taken));
        FixedTwice(old(headers.prev), prev, headers.prev, old(taken));
        FirstOfClaimed(old(vec[..]), vec[..], id, claimed.value, list, freePage.list, page.value);
        return;
      }
      var p := TakeFirst();
      page := Some(p);
    }

    /** One round of the loop below. */
    method RemovePage(s: SegId, i: nat, ghost list: seq<Page>, ghost next0: Links, ghost prev0: Links)
      requires 1 <= i < PAGES_PER_SEGMENT && Whole(s) <= Elems(list)
      requires freePage.Valid(headers) && freePage.list == Without(list, PagesTo(s, i))
      requires Untouched(next0, headers.next, list) && Untouched(prev0, headers.prev, list)
      modifies headers, freePage
      ensures freePage.Valid(headers) && freePage.list == Without(list, PagesTo(s, i + 1))
      ensures Untouched(next0, headers.next, list) && Untouched(prev0, headers.prev, list)
    {
      StillThere(list, s, i);
      ghost var next, prev := headers.next, headers.prev;
      ghost var rest := freePage.list;
      freePage.Remove(headers, PageNo(s, i));
      UntouchedTwice(next0, next, headers.next, list, rest);
      UntouchedTwice(prev0, prev, headers.prev, list, rest);
      WithoutTwice(list, PagesTo(s, i), {PageNo(s, i)});
    }

    /** `cxl_segment_free`: all pages of an unused segment leave free_page, and the segment
        has no owner. */
    method SegmentFree(s: SegId)
      requires Books() && s < vec.Length && vec[s] == id && s in used && used[s] == 0
      modifies vec, headers, freePage
      ensures Books() && vec[..] == old(vec[..])[s := 0]
      ensures freePage.list == Without(old(freePage.list), Whole(s))
      ensures Untouched(old(headers.next), headers.next, old(freePage.list))
      ensures Untouched(old(headers.prev), headers.prev, old(freePage.list))
    {
      ghost var list := freePage.list;
      DropOk(vec[..], id, Elems(list), taken, used, s);
      ElemsWithout(list, Whole(s));
      WithoutAbsent(list, PagesTo(s, 1));
      var i := 1;
      while i < PAGES_PER_SEGMENT
        invariant 1 <= i <= PAGES_PER_SEGMENT
        invariant freePage.Valid(headers) && freePage.list == Without(list, PagesTo(s, i))
        invariant Untouched(old(headers.next), headers.next, list) && Untouched(old(headers.prev), headers.prev, list)
        modifies headers, freePage
      {
        RemovePage(s, i, list, old(headers.next), old(headers.prev));
        i := i + 1;
      }
      vec[s] := 0;
      assert vec[..] == old(vec[..])[s := 0];
    }

    /** The first half of `cxl_page_free`: from the queue of its size class to free_page. */
    method MovePage(page: Page, pq: Queue)
      requires Books() && pq != freePage && pq.Valid(headers) && page in pq.list && Elems(pq.list) <= taken
      modifies this`used, this`taken, headers, freePage, pq
      ensures Books() && pq.Valid(headers) && pq.list == Without(old(pq.list), {page}) && Elems(pq.list) <= taken
      ensures taken == old(taken) - {page} && freePage.list == [page] + old(freePage.list)
      ensures Mine(vec[..], id, page)
      ensures Fixed(old(headers.next), headers.next, old(taken) - Elems(old(pq.list)))
      ensures Fixed(old(headers.prev), headers.prev, old(taken) - Elems(old(pq.list)))
    {
      ghost var list, mine := freePage.list, pq.list;
      assert page in Elems(mine);
      PutPageOk(vec[..], id, Elems(list), taken, used, page);
      ElemsWithout(mine, {page});
      ghost var next, prev := headers.next, headers.prev;
      pq.Remove(headers, page);
      QueueKept(next, prev, headers.next, headers.prev, freePage.first, list, mine);
      UntouchedFixed(next, headers.next, mine, taken - Elems(mine));
      UntouchedFixed(prev, headers.prev, mine, taken - Elems(mine));
      next, prev := headers.next, headers.prev;
      freePage.Push(headers, page);
      assert Elems([page] + list) == Elems(list) + {page};
      QueueKept(next, prev, headers.next, headers.prev, pq.first, pq.list, [page] + list);
      UntouchedFixed(next, headers.next, [page] + list, taken - Elems(mine));
      UntouchedFixed(prev, headers.prev, [page] + list, taken - Elems(mine));
      used := used[SegOf(page) := used[SegOf(page)] - 1];
      taken := taken - {page};
    }

    /** `cxl_page_free`: the page moves from the queue of its size class to free_page. The
        segment is given back exactly when that was its last page in use. */
    method PageFree(page: Page, pq: Queue)
      requires Books() && pq != freePage && pq.Valid(headers) && page in pq.list && Elems(pq.list) <= taken
      modifies this`used, this`taken, vec, headers, freePage, pq
      ensures Books() && pq.Valid(headers) && pq.list == Without(old(pq.list), {page}) && Elems(pq.list) <= taken
      ensures taken == old(taken) - {page}
      ensures SegOf(page) < vec.Length && old(vec[SegOf(page)]) == id
      ensures Within(taken, SegOf(page)) != {} ==>
                vec[..] == old(vec[..]) && freePage.list == [page] + old(freePage.list)
      ensures Within(taken, SegOf(page)) == {} ==>
                && vec[..] == old(vec[..])[SegOf(page) := 0]
                && freePage.list == Without([page] + old(freePage.list), Whole(SegOf(page)))
      ensures Fixed(old(headers.next), headers.next, old(taken) - Elems(old(pq.list)))
      ensures Fixed(old(headers.prev), headers.prev, old(taken) - Elems(old(pq.list)))
    {
      ghost var rest := taken - Elems(pq.list);
      MovePage(page, pq);
      var s := SegOf(page);
      Accounting(vec[..], id, Elems(freePage.list), taken, used, s);
      if used[s] == 0 {
        ghost var next, prev, list := headers.next, headers.prev, freePage.list;
        assert page in Elems(old(pq.list));
        SegmentFree(s);
        QueueKept(next, prev, headers.next, headers.prev, pq.first, pq.list, list);
        UntouchedFixed(next, headers.next, list, rest);
        UntouchedFixed(prev, headers.prev, list, rest);
      }
    }

    /** A page handed out, on no queue yet, goes on queue i. */
    method PushPage(page: Page, i: nat)
      requires Books() && Queues() && i < |bins| && page in taken && page != 0
      requires forall k | 0 <= k < |bins| :: page !in bins[k].list
      modifies headers, bins[i]
      ensures Books() && Queues() && bins[i].list == [page] + old(bins[i].list)
    {
      ghost var next, prev, pages := headers.next, headers.prev, [page] + bins[i].list;
      assert BinOk(bins, headers, taken, i);
      bins[i].Push(headers, page);
      assert Elems(pages) == Elems(old(bins[i].list)) + {page};
      QueueKept(next, prev, headers.next, headers.prev, freePage.first, freePage.list, pages);
      forall k | 0 <= k < |bins| && k != i ensures bins[k].Valid(headers) && Elems(bins[k].list) !! Elems(pages) {
        assert old(BinOk(bins, headers, taken, k));
        InElems(bins[k].list, page);
        QueueKept(next, prev, headers.next, headers.prev, bins[k].first, bins[k].list, pages);
      }
      forall k | 0 <= k < |bins| ensures BinOk(bins, headers, taken, k) {
        assert old(BinOk(bins, headers, taken, k));
      }
    }

    /** `cxl_page_fresh` without the carving: a free page goes on the queue of its size class. */
    method PageFresh(i: nat) returns (page: Option<Page>)
      requires Valid() && i < |bins|
      modifies this`used, this`taken, vec, headers, freePage, bins[i]
      ensures Valid()
      ensures page.None? ==> taken == old(taken) && bins[i].list == old(bins[i].list)
      ensures page.None? ==> forall s | 0 <= s < vec.Length :: vec[s] != 0
      ensures page.Some? ==> page.value !in old(taken) && taken == old(taken) + {page.value}
      ensures page.Some? ==> bins[i].list == [page.value] + old(bins[i].list)
      ensures Lists() == old(Lists())[i := bins[i].list]
      ensures forall s | 0 <= s < vec.Length :: vec[s] == old(vec[s]) || (old(vec[s]) == 0 && vec[s] == id)
      ensures ClaimsAsNeeded(old(vec[..]), vec[..], id, old(freePage.list))
    {
      assert BinOk(bins, headers, taken, i);
      ghost var free := freePage.list;
      page := PageAlloc();
      if page.Some? {
        TakesAsNeeded(old(vec[..]), vec[..], id, free, freePage.list, page.value);
      }
      forall k | 0 <= k < |bins| ensures BinOk(bins, headers, taken, k) {
        assert old(BinOk(bins, headers, taken, k));
        QueueFixed(old(headers.next), old(headers.prev), headers.next, headers.prev, bins[k].first, bins[k].list,
                   old(taken));
      }
      if page.Some? {
        forall k | 0 <= k < |bins| ensures page.value !in bins[k].list {
          assert old(BinOk(bins, headers, taken, k));
          InElems(bins[k].list, page.value);
        }
        PushPage(page.value, i);
      }
      forall b | b in counted ensures ObjectPage(PageOf(b)) {
        assert old(ObjectPage(PageOf(b)));
        var k :| 2 <= k < |bins| && PageOf(b) in old(bins[k].list);
        assert old(BinOk(bins, headers, taken, k));
        assert PageOf(b) in bins[k].list;
      }
    }

    /** `cxl_page_free` of a page of queue i whose blocks have no count. */
    method FreePage(page: Page, i: nat)
      requires Valid() && i < |bins| && page in bins[i].list && forall b | b in counted :: PageOf(b) != page
      modifies this`used, this`taken, vec, headers, freePage, bins[i]
      ensures Valid() && taken == old(taken) - {page} && bins[i].list == Without(old(bins[i].list), {page})
      ensures Lists() == old(Lists())[i := bins[i].list]
      ensures SegOf(page) < vec.Length && old(vec[SegOf(page)]) == id
      ensures vec[..] == if Within(taken, SegOf(page)) == {} then old(vec[..])[SegOf(page) := 0] else old(vec[..])
    {
      assert BinOk(bins, headers, taken, i);
      PageFree(page, bins[i]);
      ElemsWithout(old(bins[i].list), {page});
      forall k | 0 <= k < |bins| && k != i ensures bins[k].Valid(headers) && Elems(bins[k].list) <= taken {
        assert old(BinOk(bins, headers, taken, k));
        assert page in Elems(old(bins[i].list));
        QueueFixed(old(headers.next), old(headers.prev), headers.next, headers.prev, bins[k].first, bins[k].list,
                   old(taken) - Elems(old(bins[i].list)));
      }
      forall k | 0 <= k < |bins| ensures BinOk(bins, headers, taken, k) {
        assert old(BinOk(bins, headers, taken, k));
      }
      forall b | b in counted ensures ObjectPage(PageOf(b)) {
        assert old(ObjectPage(PageOf(b)));
        var k :| 2 <= k < |bins| && PageOf(b) in old(bins[k].list);
        assert old(BinOk(bins, headers, taken, k));
        WithoutElems(old(bins[i].list), {page}, PageOf(b));
        assert PageOf(b) in bins[k].list;
      }
    }

    /** `block_to_cxlobj`: an object gets its first count in a block of the size class. */
    method Count(b: Block, i: nat)
      requires Valid() && 2 <= i < |bins| && PageOf(b) in bins[i].list
      modifies this`counted
      ensures Valid() && counted == old(counted) + {b}
    {
      counted := counted + {b};
      assert ObjectPage(PageOf(b));
    }

    /** The last count of an object is gone. */
    method Uncount(b: Block)
      requires Valid()
      modifies this`counted
      ensures Valid() && counted == old(counted) - {b}
    {
      counted := counted - {b};
    }
  }
}
