/** The pages of one client: each page has two free lists threaded through its blocks, and
    each segment a stack of blocks freed by other clients. Blocks that the redo ring still
    names do not come back. */
module Pages {
  import opened Common
  import opened Addresses

  /** A block is its offset; 0 is null. */
  type Block = nat
  type Page = nat
  type SegId = nat

  function SegOf(b: Block): SegId {
    PageOf(b) / PAGES_PER_SEGMENT
  }

  /** The mutable part of a page header. */
  datatype Meta = Meta(free: Block, localFree: Block, used: nat, size: nat)

  /** Where a carved block is. */
  datatype Place = Free | Local | Remote | Live
  {
    /** What `used` counts: blocks freed by another client are not collected yet. */
    predicate Out() { Live? || Remote? }
  }

  type Links = map<Block, Block>
  type Places = map<Block, Place>

  // ----- lists threaded through the blocks

  /** The links from `head` run through exactly this list, without repetition, and end in 0. */
  ghost predicate Chain(next: Links, head: Block, list: seq<Block>)
    decreases list
  {
    if list == [] then head == 0
    else head == list[0] && head != 0 && head in next && head !in list[1..] && Chain(next, next[head], list[1..])
  }

  lemma {:induction false} ChainFrame(next: Links, next': Links, head: Block, list: seq<Block>)
    requires Chain(next, head, list)
    requires forall b | b in list && b in next :: b in next' && next'[b] == next[b]
    ensures Chain(next', head, list)
    decreases list
  {
    if list != [] {
      ChainFrame(next, next', next[head], list[1..]);
    }
  }

  /** Pushing a block: write its link, then make it the head. */
  lemma ChainPush(next: Links, b: Block, head: Block, list: seq<Block>)
    requires Chain(next, head, list) && b != 0 && b !in list
    ensures Chain(next[b := head], b, [b] + list)
  {
    ChainFrame(next, next[b := head], head, list);
    assert ([b] + list)[1..] == list;
  }

  // ----- one page

  ghost function Outside(place: Places, p: Page): set<Block> {
    set b | b in place && PageOf(b) == p && place[b].Out()
  }

  /** A list holds exactly the blocks of the page that are in one place. */
  ghost predicate Lists(place: Places, p: Page, where: Place, list: seq<Block>) {
    forall b :: b in list <==> b in place && place[b] == where && PageOf(b) == p
  }

  /** The header of a page with its two lists. */
  datatype Sheet = Sheet(meta: Meta, free: seq<Block>, local: seq<Block>)

  ghost predicate PageOk(next: Links, place: Places, p: Page, s: Sheet) {
    && Chain(next, s.meta.free, s.free) && Lists(place, p, Free, s.free)
    && Chain(next, s.meta.localFree, s.local) && Lists(place, p, Local, s.local)
    && s.meta.used == |Outside(place, p)|
  }

  /** A page is unaffected by changes to blocks elsewhere. */
  lemma PageFrame(next: Links, place: Places, next': Links, place': Places, p: Page, s: Sheet)
    requires PageOk(next, place, p, s)
    requires forall b | b in next && PageOf(b) == p :: b in next' && next'[b] == next[b]
    requires forall b | PageOf(b) == p :: (b in place <==> b in place') && (b in place ==> place'[b] == place[b])
    ensures PageOk(next', place', p, s)
  {
    ChainFrame(next, next', s.meta.free, s.free);
    ChainFrame(next, next', s.meta.localFree, s.local);
    assert Outside(place', p) == Outside(place, p);
  }

  /** A block moves within its page or not at all. */
  ghost predicate Moves(next: Links, place: Places, next': Links, place': Places, b: Block) {
    && b in place && place'.Keys == place.Keys && next'.Keys == next.Keys + {b}
    && (forall x | x in place && x != b :: place'[x] == place[x])
    && (forall x | x in next && x != b :: next'[x] == next[x])
  }

  lemma OtherPage(next: Links, place: Places, next': Links, place': Places, b: Block, p: Page, s: Sheet)
    requires PageOk(next, place, p, s) && Moves(next, place, next', place', b) && PageOf(b) != p
    ensures PageOk(next', place', p, s)
  {
    PageFrame(next, place, next', place', p, s);
  }

  /** Taking the head of a page's free list. */
  function Take(next: Links, s: Sheet): Sheet
    requires s.meta.free in next && s.free != []
  {
    Sheet(Meta(next[s.meta.free], s.meta.localFree, s.meta.used + 1, s.meta.size), s.free[1..], s.local)
  }

  lemma TakeOk(next: Links, place: Places, p: Page, s: Sheet)
    requires PageOk(next, place, p, s) && s.meta.free != 0
    ensures var b := s.meta.free;
            && s.free != [] && b == s.free[0] && b in next && b in place && place[b].Free? && PageOf(b) == p
            && PageOk(next, place[b := Live], p, Take(next, s))
  {
    var b := s.meta.free;
    assert b in s.free;
    assert s.free == [b] + s.free[1..];
    assert Outside(place[b := Live], p) == Outside(place, p) + {b};
  }

  /** A block goes to the head of its page's local list. */
  function Put(b: Block, s: Sheet): Sheet
    requires s.meta.used > 0
  {
    Sheet(Meta(s.meta.free, b, s.meta.used - 1, s.meta.size), s.free, [b] + s.local)
  }

  lemma PutOk(next: Links, place: Places, b: Block, s: Sheet)
    requires PageOk(next, place, PageOf(b), s) && b in place && b != 0 && place[b].Out()
    ensures s.meta.used > 0
    ensures PageOk(next[b := s.meta.localFree], place[b := Local], PageOf(b), Put(b, s))
  {
    assert b in Outside(place, PageOf(b));
    assert Outside(place[b := Local], PageOf(b)) == Outside(place, PageOf(b)) - {b};
    ChainPush(next, b, s.meta.localFree, s.local);
    ChainFrame(next, next[b := s.meta.localFree], s.meta.free, s.free);
  }

  /** A live block that another client frees still counts as used. */
  lemma StaysOutside(next: Links, place: Places, b: Block, top: Block, p: Page, s: Sheet)
    requires PageOk(next, place, p, s) && b in place && place[b].Live?
    ensures PageOk(next[b := top], place[b := Remote], p, s)
  {
    ChainFrame(next, next[b := top], s.meta.free, s.free);
    ChainFrame(next, next[b := top], s.meta.localFree, s.local);
    assert Outside(place[b := Remote], p) == Outside(place, p);
  }

  /** The refill: the local list becomes the free list. */
  function Refill(s: Sheet): Sheet {
    Sheet(Meta(s.meta.localFree, 0, s.meta.used, s.meta.size), s.local, [])
  }

  function Refilled(place: Places, p: Page): Places {
    map b | b in place :: if PageOf(b) == p && place[b].Local? then Free else place[b]
  }

  lemma RefillOk(next: Links, place: Places, p: Page, s: Sheet)
    requires PageOk(next, place, p, s) && s.meta.free == 0
    ensures PageOk(next, Refilled(place, p), p, Refill(s))
  {
    assert s.free == [];
    assert Outside(Refilled(place, p), p) == Outside(place, p);
  }

  lemma RefillOther(next: Links, place: Places, p: Page, q: Page, s: Sheet)
    requires PageOk(next, place, q, s) && q != p
    ensures PageOk(next, Refilled(place, p), q, s)
  {
    PageFrame(next, place, next, Refilled(place, p), q, s);
  }

  // ----- carving

  /** The blocks of a page: as many as fit, in address order. */
  function Grid(p: Page, size: nat, n: nat): (g: seq<Block>)
    ensures |g| == n && forall i | 0 <= i < n :: g[i] == BlockAt(p, size, i)
    decreases n
  {
    if n == 0 then [] else Grid(p, size, n - 1) + [BlockAt(p, size, n - 1)]
  }

  /** How many blocks a page is carved into. */
  function Capacity(size: nat): nat
    requires size > 0
  {
    PAGE_SIZE / size
  }

  /** The links set up by carving, from the i-th block on. */
  ghost predicate Threaded(next: Links, grid: seq<Block>, i: nat) {
    forall k | i <= k < |grid| :: grid[k] in next && next[grid[k]] == if k + 1 < |grid| then grid[k + 1] else 0
  }

  lemma {:induction false} ThreadedChain(next: Links, grid: seq<Block>, i: nat)
    requires Threaded(next, grid, i) && i <= |grid| && 0 !in grid
    requires forall j, k | 0 <= j < k < |grid| :: grid[j] != grid[k]
    ensures Chain(next, if i < |grid| then grid[i] else 0, grid[i..])
    decreases |grid| - i
  {
    var list := grid[i..];
    if i == |grid| {
      assert list == [];
    } else {
      var b := grid[i];
      assert b in next && next[b] == if i + 1 < |grid| then grid[i + 1] else 0;
      ThreadedChain(next, grid, i + 1);
      assert list[1..] == grid[i + 1..] && b !in list[1..];
      assert Chain(next, next[b], list[1..]);
    }
  }

  lemma StepsApart(i: nat, k: nat, size: nat)
    requires i < k
    ensures i * size + size <= k * size
  {
    assert i * size + size == (i + 1) * size <= k * size;
  }

  lemma WithinPage(p: Page, x: nat)
    requires p > 0 && x < PAGE_SIZE
    ensures PageOf(p * PAGE_SIZE + x) == p && p * PAGE_SIZE + x > 0
  {
  }

  /** Blocks of a page lie in the page, are distinct, and do not overlap. */
  lemma GridInPage(p: Page, size: nat, i: nat, k: nat)
    requires p > 0 && size > 0 && i < k <= Capacity(size)
    ensures BlockAt(p, size, i) + size <= BlockAt(p, size, k)
    ensures PageOf(BlockAt(p, size, i)) == p && BlockAt(p, size, i) > 0
  {
    StepsApart(i, k, size);
    StepsApart(i, Capacity(size), size);
    assert Capacity(size) * size <= PAGE_SIZE;
    WithinPage(p, i * size);
  }

  // ----- the segments

  type Sheets = map<Page, Sheet>

  ghost predicate PagesOk(next: Links, place: Places, sheets: Sheets) {
    && (forall p {:trigger PageOk(next, place, p, sheets[p])} | p in sheets :: PageOk(next, place, p, sheets[p]))
    && (forall b | b in place :: b != 0 && PageOf(b) in sheets)
  }

  /** The stack of remote frees of one segment. */
  ghost predicate StackOk(next: Links, place: Places, g: SegId, top: Block, remote: seq<Block>) {
    && Chain(next, top, remote)
    && forall b :: b in remote <==> b in place && place[b].Remote? && SegOf(b) == g
  }

  type Tops = map<SegId, Block>
  type Stacks = map<SegId, seq<Block>>

  /** The stacks of all segments. */
  ghost predicate StacksOk(next: Links, place: Places, tops: Tops, stacks: Stacks) {
    && tops.Keys == stacks.Keys && (forall b | b in place :: SegOf(b) in tops)
    && forall g {:trigger StackOk(next, place, g, tops[g], stacks[g])} | g in tops ::
         StackOk(next, place, g, tops[g], stacks[g])
  }

  /** No block on a free list is one that the redo ring names. */
  ghost predicate Clear(place: Places, logged: set<Block>) {
    forall b | b in place && place[b].Free? :: b !in logged
  }

  lemma PagesTake(next: Links, place: Places, sheets: Sheets, p: Page)
    requires PagesOk(next, place, sheets) && p in sheets && sheets[p].meta.free != 0
    ensures var b := sheets[p].meta.free;
            && b in next && sheets[p].free != [] && b in place && place[b].Free? && PageOf(b) == p
            && PagesOk(next, place[b := Live], sheets[p := Take(next, sheets[p])])
  {
    TakeOk(next, place, p, sheets[p]);
    var b := sheets[p].meta.free;
    forall q | q in sheets && q != p ensures PageOk(next, place[b := Live], q, sheets[q]) {
      OtherPage(next, place, next, place[b := Live], b, q, sheets[q]);
    }
  }

  lemma PagesPut(next: Links, place: Places, sheets: Sheets, b: Block)
    requires PagesOk(next, place, sheets) && b in place && place[b].Out()
    ensures var p := PageOf(b);
            && sheets[p].meta.used > 0
            && PagesOk(next[b := sheets[p].meta.localFree], place[b := Local], sheets[p := Put(b, sheets[p])])
  {
    var p := PageOf(b);
    PutOk(next, place, b, sheets[p]);
    forall q | q in sheets && q != p
      ensures PageOk(next[b := sheets[p].meta.localFree], place[b := Local], q, sheets[q])
    {
      OtherPage(next, place, next[b := sheets[p].meta.localFree], place[b := Local], b, q, sheets[q]);
    }
  }

  lemma PagesPush(next: Links, place: Places, sheets: Sheets, b: Block, top: Block)
    requires PagesOk(next, place, sheets) && b in place && place[b].Live?
    ensures PagesOk(next[b := top], place[b := Remote], sheets)
  {
    forall q | q in sheets ensures PageOk(next[b := top], place[b := Remote], q, sheets[q]) {
      StaysOutside(next, place, b, top, q, sheets[q]);
    }
  }

  lemma PagesRefill(next: Links, place: Places, sheets: Sheets, p: Page)
    requires PagesOk(next, place, sheets) && p in sheets && sheets[p].meta.free == 0
    ensures PagesOk(next, Refilled(place, p), sheets[p := Refill(sheets[p])])
  {
    RefillOk(next, place, p, sheets[p]);
    forall q | q in sheets && q != p ensures PageOk(next, Refilled(place, p), q, sheets[q]) {
      RefillOther(next, place, p, q, sheets[q]);
    }
  }

  /** The stack loses its head when the head is put on its page's local list. */
  lemma StackPop(next: Links, place: Places, g: SegId, top: Block, remote: seq<Block>, link: Block)
    requires StackOk(next, place, g, top, remote) && top != 0
    ensures remote != [] && top == remote[0] && top in next && top in place && place[top].Remote? && SegOf(top) == g
    ensures StackOk(next[top := link], place[top := Local], g, next[top], remote[1..])
  {
    assert remote == [top] + remote[1..];
    ChainFrame(next, next[top := link], next[top], remote[1..]);
  }

  lemma StackPush(next: Links, place: Places, top: Block, remote: seq<Block>, b: Block)
    requires StackOk(next, place, SegOf(b), top, remote) && b in place && b != 0 && place[b].Live?
    ensures StackOk(next[b := top], place[b := Remote], SegOf(b), b, [b] + remote)
  {
    ChainPush(next, b, top, remote);
  }

  /** A block that moves while the stack does not: it is not on it, and does not go there. */
  lemma StackFrame(next: Links, place: Places, g: SegId, top: Block, remote: seq<Block>, b: Block, link: Block,
                   where: Place)
    requires StackOk(next, place, g, top, remote) && b in place
    requires SegOf(b) != g || (!place[b].Remote? && !where.Remote?)
    ensures StackOk(next[b := link], place[b := where], g, top, remote)
    ensures StackOk(next, place[b := where], g, top, remote)
  {
    ChainFrame(next, next[b := link], top, remote);
  }

  lemma StacksFrame(next: Links, place: Places, tops: Tops, stacks: Stacks, b: Block, link: Block, where: Place)
    requires StacksOk(next, place, tops, stacks) && b in place && !place[b].Remote? && !where.Remote?
    ensures StacksOk(next[b := link], place[b := where], tops, stacks)
    ensures StacksOk(next, place[b := where], tops, stacks)
  {
    forall g | g in tops
      ensures StackOk(next[b := link], place[b := where], g, tops[g], stacks[g])
      ensures StackOk(next, place[b := where], g, tops[g], stacks[g])
    {
      StackFrame(next, place, g, tops[g], stacks[g], b, link, where);
    }
  }

  lemma StacksPop(next: Links, place: Places, tops: Tops, stacks: Stacks, g: SegId, link: Block)
    requires StacksOk(next, place, tops, stacks) && g in tops && tops[g] != 0
    ensures var top := tops[g];
            && stacks[g] != [] && top == stacks[g][0] && top in next && top in place && place[top].Remote?
            && SegOf(top) == g
            && StacksOk(next[top := link], place[top := Local], tops[g := next[top]], stacks[g := stacks[g][1..]])
  {
    var top := tops[g];
    StackPop(next, place, g, top, stacks[g], link);
    var tops', stacks' := tops[g := next[top]], stacks[g := stacks[g][1..]];
    forall q | q in tops' ensures StackOk(next[top := link], place[top := Local], q, tops'[q], stacks'[q]) {
      if q != g {
        StackFrame(next, place, q, tops[q], stacks[q], top, link, Local);
      }
    }
  }

  lemma StacksPush(next: Links, place: Places, tops: Tops, stacks: Stacks, b: Block)
    requires StacksOk(next, place, tops, stacks) && b in place && b != 0 && place[b].Live?
    ensures SegOf(b) in tops
    ensures StacksOk(next[b := tops[SegOf(b)]], place[b := Remote], tops[SegOf(b) := b],
                     stacks[SegOf(b) := [b] + stacks[SegOf(b)]])
  {
    var g := SegOf(b);
    StackPush(next, place, tops[g], stacks[g], b);
    var tops', stacks' := tops[g := b], stacks[g := [b] + stacks[g]];
    forall q | q in tops' ensures StackOk(next[b := tops[g]], place[b := Remote], q, tops'[q], stacks'[q]) {
      if q != g {
        StackFrame(next, place, q, tops[q], stacks[q], b, tops[g], Remote);
      }
    }
  }

  /** Everything on a segment's stack goes to the local lists. */
  function Collected(place: Places, g: SegId): Places {
    map b | b in place :: if place[b].Remote? && SegOf(b) == g then Local else place[b]
  }

  lemma CollectedStep(place: Places, b: Block)
    requires b in place && place[b].Remote?
    ensures Collected(place[b := Local], SegOf(b)) == Collected(place, SegOf(b))
  {
  }

  lemma CollectedDone(next: Links, place: Places, g: SegId, remote: seq<Block>)
    requires StackOk(next, place, g, 0, remote)
    ensures remote == [] && Collected(place, g) == place
  {
    forall b | b in place ensures !(place[b].Remote? && SegOf(b) == g) {
      assert b !in remote;
    }
  }

  // ----- pages come and go

  function Carved(place: Places, grid: seq<Block>): Places {
    map b | b in place.Keys + (set x | x in grid) :: if b in grid then Free else place[b]
  }

  lemma CarvedOther(next: Links, place: Places, next': Links, grid: seq<Block>, p: Page, q: Page, s: Sheet)
    requires PageOk(next, place, q, s) && q != p && forall b | b in grid :: PageOf(b) == p
    requires forall b | b in next && b !in grid :: b in next' && next'[b] == next[b]
    ensures PageOk(next', Carved(place, grid), q, s)
  {
    PageFrame(next, place, next', Carved(place, grid), q, s);
  }

  lemma CarvedPage(place: Places, next': Links, grid: seq<Block>, p: Page, size: nat)
    requires Chain(next', if grid == [] then 0 else grid[0], grid)
    requires forall b | b in place :: PageOf(b) != p
    requires forall b | b in grid :: PageOf(b) == p
    ensures PageOk(next', Carved(place, grid), p, Sheet(Meta(if grid == [] then 0 else grid[0], 0, 0, size), grid, []))
  {
    assert Outside(Carved(place, grid), p) == {};
  }

  lemma PagesCarve(next: Links, place: Places, sheets: Sheets, next': Links, grid: seq<Block>, p: Page, size: nat)
    requires PagesOk(next, place, sheets) && p !in sheets && 0 !in grid
    requires Chain(next', if grid == [] then 0 else grid[0], grid)
    requires forall b | b in grid :: PageOf(b) == p
    requires forall b | b in next && b !in grid :: b in next' && next'[b] == next[b]
    ensures PagesOk(next', Carved(place, grid),
                    sheets[p := Sheet(Meta(if grid == [] then 0 else grid[0], 0, 0, size), grid, [])])
  {
    CarvedPage(place, next', grid, p, size);
    forall q | q in sheets ensures PageOk(next', Carved(place, grid), q, sheets[q]) {
      CarvedOther(next, place, next', grid, p, q, sheets[q]);
    }
  }

  function Retired(place: Places, p: Page): Places {
    map b | b in place && PageOf(b) != p :: place[b]
  }

  lemma RetiredOther(next: Links, place: Places, p: Page, q: Page, s: Sheet)
    requires PageOk(next, place, q, s) && q != p
    ensures PageOk(next, Retired(place, p), q, s)
  {
    PageFrame(next, place, next, Retired(place, p), q, s);
  }

  lemma PagesRetire(next: Links, place: Places, sheets: Sheets, p: Page)
    requires PagesOk(next, place, sheets)
    ensures PagesOk(next, Retired(place, p), sheets - {p})
  {
    forall q | q in sheets && q != p ensures PageOk(next, Retired(place, p), q, sheets[q]) {
      RetiredOther(next, place, p, q, sheets[q]);
    }
  }

  // ----- conservation

  /** The blocks of a page are those it was carved into. */
  ghost predicate Covers(place: Places, p: Page, size: nat) {
    p > 0 && size > 0 && forall b :: b in place && PageOf(b) == p <==> b in Grid(p, size, Capacity(size))
  }

  lemma {:induction false} ChainSize(next: Links, head: Block, list: seq<Block>)
    requires Chain(next, head, list)
    ensures |list| == |Elems(list)|
    decreases list
  {
    if list != [] {
      ChainSize(next, next[head], list[1..]);
      assert list == [list[0]] + list[1..];
      assert Elems(list) == {list[0]} + Elems(list[1..]);
    }
  }

  lemma GrowsByOne(list: seq<Block>, b: Block)
    requires b !in list
    ensures |Elems(list + [b])| == |Elems(list)| + 1
  {
    assert Elems(list + [b]) == Elems(list) + {b};
  }

  lemma {:induction false} GridSize(p: Page, size: nat, n: nat)
    requires p > 0 && size > 0 && n <= Capacity(size)
    ensures |Elems(Grid(p, size, n))| == n
  {
    if n > 0 {
      GridSize(p, size, n - 1);
      LastIsNew(p, size, n - 1);
      GrowsByOne(Grid(p, size, n - 1), BlockAt(p, size, n - 1));
    } else {
      assert Elems(Grid(p, size, n)) == {};
    }
  }

  lemma LastIsNew(p: Page, size: nat, n: nat)
    requires p > 0 && size > 0 && n < Capacity(size)
    ensures BlockAt(p, size, n) !in Grid(p, size, n)
  {
    var g := Grid(p, size, n);
    forall i | 0 <= i < n ensures g[i] != BlockAt(p, size, n) {
      GridInPage(p, size, i, n);
    }
  }

  lemma Thirds(all: set<Block>, a: set<Block>, b: set<Block>, c: set<Block>)
    requires all == a + b + c && a !! b && a !! c && b !! c
    ensures |all| == |a| + |b| + |c|
  {
    assert |a + b| == |a| + |b|;
  }

  lemma CoverAt(place: Places, p: Page, size: nat, free: seq<Block>, local: seq<Block>, b: Block)
    requires Lists(place, p, Free, free) && Lists(place, p, Local, local) && Covers(place, p, size)
    ensures b in Grid(p, size, Capacity(size)) <==> b in free || b in local || b in Outside(place, p)
    ensures !(b in free && b in local) && !(b in free && b in Outside(place, p))
    ensures !(b in local && b in Outside(place, p))
  {
  }

  lemma Cover(place: Places, p: Page, size: nat, free: seq<Block>, local: seq<Block>)
    requires Lists(place, p, Free, free) && Lists(place, p, Local, local) && Covers(place, p, size)
    ensures Elems(Grid(p, size, Capacity(size))) == Elems(free) + Elems(local) + Outside(place, p)
    ensures Elems(free) !! Elems(local) && Elems(free) !! Outside(place, p) && Elems(local) !! Outside(place, p)
  {
    forall b
      ensures b in Elems(Grid(p, size, Capacity(size))) <==> b in Elems(free) + Elems(local) + Outside(place, p)
      ensures !(b in Elems(free) && b in Elems(local)) && !(b in Elems(free) && b in Outside(place, p))
      ensures !(b in Elems(local) && b in Outside(place, p))
    {
      CoverAt(place, p, size, free, local, b);
    }
  }

  /** Block conservation: the two free lists and the blocks in use or awaiting collection
      make up the page, and `used` is 0 exactly when no block is live or on the stack. */
  lemma Conservation(next: Links, place: Places, p: Page, s: Sheet)
    requires PageOk(next, place, p, s) && Covers(place, p, s.meta.size)
    ensures s.meta.used + |s.free| + |s.local| == Capacity(s.meta.size)
    ensures s.meta.used == 0 <==> forall b | b in place && PageOf(b) == p :: !place[b].Out()
  {
    Cover(place, p, s.meta.size, s.free, s.local);
    Thirds(Elems(Grid(p, s.meta.size, Capacity(s.meta.size))), Elems(s.free), Elems(s.local), Outside(place, p));
    ChainSize(next, s.meta.free, s.free);
    ChainSize(next, s.meta.localFree, s.local);
    GridSize(p, s.meta.size, Capacity(s.meta.size));
    UnusedMeansNone(place, p);
  }

  lemma UnusedMeansNone(place: Places, p: Page)
    ensures |Outside(place, p)| == 0 <==> forall b | b in place && PageOf(b) == p :: !place[b].Out()
  {
    if b :| b in place && PageOf(b) == p && place[b].Out() {
      assert b in Outside(place, p);
    } else {
      assert Outside(place, p) == {};
    }
  }

  ghost predicate Whole(place: Places, sheets: Sheets) {
    forall p {:trigger Covers(place, p, sheets[p].meta.size)} | p in sheets :: Covers(place, p, sheets[p].meta.size)
  }

  /** The headers are those of the sheets. */
  ghost predicate Headers(meta: map<Page, Meta>, sheets: Sheets) {
    meta.Keys == sheets.Keys && forall p | p in sheets :: meta[p] == sheets[p].meta
  }

  ghost predicate HeapOk(next: Links, place: Places, sheets: Sheets, tops: Tops, stacks: Stacks, logged: set<Block>) {
    && PagesOk(next, place, sheets)
    && StacksOk(next, place, tops, stacks)
    && Clear(place, logged)
    && Whole(place, sheets)
  }

  // ----- the operations, on all pages and stacks

  lemma WholeKeeps(place: Places, place': Places, sheets: Sheets, p: Page, s: Sheet)
    requires Whole(place, sheets) && place'.Keys == place.Keys && p in sheets && s.meta.size == sheets[p].meta.size
    ensures Whole(place', sheets[p := s])
  {
    forall q | q in sheets ensures Covers(place', q, sheets[p := s][q].meta.size) {
      assert Covers(place, q, sheets[q].meta.size);
    }
  }

  lemma WholeCarve(place: Places, sheets: Sheets, p: Page, s: Sheet)
    requires Whole(place, sheets) && p !in sheets && p > 0 && 0 < s.meta.size <= PAGE_SIZE
    requires forall b | b in place :: PageOf(b) in sheets
    ensures Whole(Carved(place, Grid(p, s.meta.size, Capacity(s.meta.size))), sheets[p := s])
  {
    var grid := Grid(p, s.meta.size, Capacity(s.meta.size));
    GridGood(p, s.meta.size);
    forall q | q in sheets ensures Covers(Carved(place, grid), q, sheets[q].meta.size) {
      assert Covers(place, q, sheets[q].meta.size);
    }
  }

  /** Blocks may move among other places without the stacks noticing. */
  lemma StacksSame(next: Links, place: Places, next': Links, place': Places, tops: Tops, stacks: Stacks)
    requires StacksOk(next, place, tops, stacks) && forall b | b in place' :: SegOf(b) in tops
    requires forall b :: b in place' && place'[b].Remote? <==> b in place && place[b].Remote?
    requires forall b | b in next && b in place :: b in next' && next'[b] == next[b]
    ensures StacksOk(next', place', tops, stacks)
  {
    forall g | g in tops ensures StackOk(next', place', g, tops[g], stacks[g]) {
      assert StackOk(next, place, g, tops[g], stacks[g]);
      ChainFrame(next, next', tops[g], stacks[g]);
    }
  }

  lemma TakeKeeps(next: Links, place: Places, sheets: Sheets, tops: Tops, stacks: Stacks, logged: set<Block>, p: Page)
    requires HeapOk(next, place, sheets, tops, stacks, logged) && p in sheets && sheets[p].meta.free != 0
    ensures var b := sheets[p].meta.free;
            && b in next && sheets[p].free != [] && b in place && place[b].Free? && b !in logged && PageOf(b) == p
            && HeapOk(next, place[b := Live], sheets[p := Take(next, sheets[p])], tops, stacks, logged)
  {
    PagesTake(next, place, sheets, p);
    var b := sheets[p].meta.free;
    WholeKeeps(place, place[b := Live], sheets, p, Take(next, sheets[p]));
    StacksFrame(next, place, tops, stacks, b, 0, Live);
  }

  lemma PutKeeps(next: Links, place: Places, sheets: Sheets, tops: Tops, stacks: Stacks, logged: set<Block>, b: Block)
    requires HeapOk(next, place, sheets, tops, stacks, logged) && b in place && place[b].Live?
    ensures var p := PageOf(b);
            && p in sheets && sheets[p].meta.used > 0
            && HeapOk(next[b := sheets[p].meta.localFree], place[b := Local], sheets[p := Put(b, sheets[p])], tops,
                      stacks, logged)
  {
    PagesPut(next, place, sheets, b);
    WholeKeeps(place, place[b := Local], sheets, PageOf(b), Put(b, sheets[PageOf(b)]));
    StacksFrame(next, place, tops, stacks, b, sheets[PageOf(b)].meta.localFree, Local);
  }

  lemma PopKeeps(next: Links, place: Places, sheets: Sheets, tops: Tops, stacks: Stacks, logged: set<Block>, g: SegId)
    requires HeapOk(next, place, sheets, tops, stacks, logged) && g in tops && tops[g] != 0
    ensures var top := tops[g];
            var p := PageOf(top);
            && stacks[g] != [] && top == stacks[g][0] && top in next && top in place && place[top].Remote?
            && SegOf(top) == g && p in sheets && sheets[p].meta.used > 0
            && HeapOk(next[top := sheets[p].meta.localFree], place[top := Local], sheets[p := Put(top, sheets[p])],
                      tops[g := next[top]], stacks[g := stacks[g][1..]], logged)
  {
    var top := tops[g];
    StacksPop(next, place, tops, stacks, g, 0);
    PagesPut(next, place, sheets, top);
    var s := sheets[PageOf(top)];
    WholeKeeps(place, place[top := Local], sheets, PageOf(top), Put(top, s));
    StacksPop(next, place, tops, stacks, g, s.meta.localFree);
  }

  lemma PushKeeps(next: Links, place: Places, sheets: Sheets, tops: Tops, stacks: Stacks, logged: set<Block>, b: Block)
    requires HeapOk(next, place, sheets, tops, stacks, logged) && b in place && place[b].Live?
    ensures SegOf(b) in tops
    ensures HeapOk(next[b := tops[SegOf(b)]], place[b := Remote], sheets, tops[SegOf(b) := b],
                   stacks[SegOf(b) := [b] + stacks[SegOf(b)]], logged)
  {
    StacksPush(next, place, tops, stacks, b);
    PagesPush(next, place, sheets, b, tops[SegOf(b)]);
    forall q | q in sheets ensures Covers(place[b := Remote], q, sheets[q].meta.size) {
      assert Covers(place, q, sheets[q].meta.size);
    }
  }

  lemma RefillKeeps(next: Links, place: Places, sheets: Sheets, tops: Tops, stacks: Stacks, p: Page)
    requires HeapOk(next, place, sheets, tops, stacks, {}) && p in sheets && sheets[p].meta.free == 0
    ensures HeapOk(next, Refilled(place, p), sheets[p := Refill(sheets[p])], tops, stacks, {})
  {
    PagesRefill(next, place, sheets, p);
    WholeKeeps(place, Refilled(place, p), sheets, p, Refill(sheets[p]));
    StacksSame(next, place, next, Refilled(place, p), tops, stacks);
  }

  lemma CarveKeeps(next: Links, place: Places, sheets: Sheets, tops: Tops, stacks: Stacks, next': Links, p: Page,
                   size: nat)
    requires HeapOk(next, place, sheets, tops, stacks, {}) && p !in sheets && p > 0 && 0 < size <= PAGE_SIZE
    requires p / PAGES_PER_SEGMENT in tops
    requires Threaded(next', Grid(p, size, Capacity(size)), 0)
    requires forall b | b in next && b !in Grid(p, size, Capacity(size)) :: b in next' && next'[b] == next[b]
    ensures HeapOk(next', Carved(place, Grid(p, size, Capacity(size))), sheets[p := NewSheet(p, size)], tops, stacks,
                   {})
  {
    var grid := Grid(p, size, Capacity(size));
    GridGood(p, size);
    assert grid[0..] == grid;
    ThreadedChain(next', grid, 0);
    PagesCarve(next, place, sheets, next', grid, p, size);
    WholeCarve(place, sheets, p, NewSheet(p, size));
    CarvedStacks(next, place, sheets, tops, stacks, next', p, grid);
  }

  function NewMeta(p: Page, size: nat): Meta {
    Meta(BlockAt(p, size, 0), 0, 0, size)
  }

  function NewSheet(p: Page, size: nat): Sheet
    requires size > 0
  {
    Sheet(NewMeta(p, size), Grid(p, size, Capacity(size)), [])
  }

  lemma CarvedStacks(next: Links, place: Places, sheets: Sheets, tops: Tops, stacks: Stacks, next': Links, p: Page,
                     grid: seq<Block>)
    requires StacksOk(next, place, tops, stacks) && p !in sheets && forall b | b in place :: PageOf(b) in sheets
    requires p / PAGES_PER_SEGMENT in tops && forall b | b in grid :: PageOf(b) == p
    requires forall b | b in next && b !in grid :: b in next' && next'[b] == next[b]
    ensures StacksOk(next', Carved(place, grid), tops, stacks)
  {
    StacksSame(next, place, next', Carved(place, grid), tops, stacks);
  }

  lemma GridGood(p: Page, size: nat)
    requires p > 0 && 0 < size <= PAGE_SIZE
    ensures var grid := Grid(p, size, Capacity(size));
            && |grid| > 0 && 0 !in grid && (forall b | b in grid :: PageOf(b) == p)
            && (forall j, k | 0 <= j < k < |grid| :: grid[j] != grid[k])
  {
    var grid := Grid(p, size, Capacity(size));
    forall i | 0 <= i < |grid| ensures grid[i] != 0 && PageOf(grid[i]) == p {
      GridInPage(p, size, i, i + 1);
    }
    forall j, k | 0 <= j < k < |grid| ensures grid[j] != grid[k] {
      GridInPage(p, size, j, k);
    }
  }

  lemma RetireKeeps(next: Links, place: Places, sheets: Sheets, tops: Tops, stacks: Stacks, logged: set<Block>,
                    p: Page)
    requires HeapOk(next, place, sheets, tops, stacks, logged) && p in sheets && sheets[p].meta.used == 0
    ensures HeapOk(next, Retired(place, p), sheets - {p}, tops, stacks, logged)
  {
    assert PageOk(next, place, p, sheets[p]);
    PagesRetire(next, place, sheets, p);
    UnusedMeansNone(place, p);
    StacksSame(next, place, next, Retired(place, p), tops, stacks);
    forall q | q in sheets && q != p ensures Covers(Retired(place, p), q, sheets[q].meta.size) {
      assert Covers(place, q, sheets[q].meta.size);
    }
  }

  /** A newly claimed segment has an empty stack. */
  lemma ClaimKeeps(next: Links, place: Places, sheets: Sheets, tops: Tops, stacks: Stacks, logged: set<Block>, g: SegId)
    requires HeapOk(next, place, sheets, tops, stacks, logged) && g !in tops
    ensures HeapOk(next, place, sheets, tops[g := 0], stacks[g := []], logged)
  {
    var tops', stacks' := tops[g := 0], stacks[g := []];
    forall q | q in tops' ensures StackOk(next, place, q, tops'[q], stacks'[q]) {
      if q != g {
        assert StackOk(next, place, q, tops[q], stacks[q]);
      }
    }
  }

  // ----- a page with nothing to give

  ghost predicate AllLive(place: Places, p: Page) {
    forall b | b in place && PageOf(b) == p :: place[b].Live?
  }

  lemma NothingFree(next: Links, place: Places, sheets: Sheets, remote: seq<Block>, p: Page)
    requires PagesOk(next, place, sheets) && StackOk(next, place, p / PAGES_PER_SEGMENT, 0, remote) && p in sheets
    ensures sheets[p].meta.free == 0 && sheets[p].meta.localFree == 0 ==> AllLive(place, p)
  {
    assert PageOk(next, place, p, sheets[p]);
  }

  /** Walking a page by its block size visits the grid in order, up to the last block. */
  lemma GridOrder(p: Page, size: nat, k: nat)
    requires p > 0 && 0 < size <= PAGE_SIZE && k < Capacity(size)
    ensures var last := BlockAt(p, size, Capacity(size) - 1);
            var grid := Grid(p, size, Capacity(size));
            && (grid[k] < last <==> k + 1 < Capacity(size))
            && (grid[k] == last <==> k + 1 == Capacity(size))
            && grid[k] <= last
            && (k + 1 < Capacity(size) ==> grid[k + 1] == grid[k] + size)
  {
    if k + 1 < Capacity(size) {
      GridInPage(p, size, k, Capacity(size) - 1);
      assert (k + 1) * size == k * size + size;
    }
  }
}
