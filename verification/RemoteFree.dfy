/** The lock-free stack of remote frees, with every client and the collecting owner
    interleaved at each access to shared memory. */
module RemoteFree {
  import opened Common
  import opened Addresses
  import opened Pages

  /** A client in `cxl_free`: block chosen, top of the stack loaded, link written. */
  datatype Pusher = Rest | Begun(b: Block) | Loaded(b: Block, seen: Block) | Linked(b: Block, seen: Block)

  /** The owner in `cxl_thread_free_collect`: top loaded, stack taken, successor fetched,
      block relinked to its page's local list. */
  datatype Collector =
    | Quiet
    | Seen(top: Block)
    | Walking(tail: Block)
    | Fetched(tail: Block, succ: Block)
    | Relinked(tail: Block, succ: Block)

  /** Who has a block: a client that may free it, the stack, the collector, a local list. */
  datatype Where = With(c: ClientId) | Stacked | InHand | Listed

  datatype State = State(
    next: Links,
    top: Block,
    localFree: map<Page, Block>,
    pusher: map<ClientId, Pusher>,
    owner: Collector,
    where: map<Block, Where>,
    stack: seq<Block>,              // history: the blocks from `top` on
    hand: seq<Block>,               // history: what the collector has still to put back
    lists: map<Page, seq<Block>>,   // history: the local lists
    pushes: map<Block, nat>,        // history: successful pushes of each block
    puts: map<Block, nat>)          // history: arrivals on a local list

  datatype Step =
    | Begin(c: ClientId, b: Block) | Load(c: ClientId) | Link(c: ClientId) | CasOk(c: ClientId) | CasFail(c: ClientId)
    | Use(c: ClientId, b: Block, x: Block) | Hand(c: ClientId, b: Block, to: ClientId)
    | OwnerLoad | OwnerCasOk | OwnerCasFail | Fetch | Relink | Publish | Reuse(p: Page, c: ClientId)

  predicate Holds(st: State, c: ClientId, b: Block) {
    b in st.where && st.where[b] == With(c) && c in st.pusher && b in st.pushes && b in st.puts
  }

  predicate Enabled(st: State, a: Step) {
    match a
    case Begin(c, b) => Holds(st, c, b) && st.pusher[c].Rest?
    case Load(c) => c in st.pusher && st.pusher[c].Begun?
    case Link(c) => c in st.pusher && st.pusher[c].Loaded?
    case CasOk(c) =>
      && c in st.pusher && st.pusher[c].Linked? && st.top == st.pusher[c].seen
      && st.pusher[c].b in st.pushes
    case CasFail(c) => c in st.pusher && st.pusher[c].Linked?
    case Use(c, b, x) => Holds(st, c, b) && st.pusher[c].Rest?
    case Hand(c, b, to) => Holds(st, c, b) && st.pusher[c].Rest? && to in st.pusher
    case OwnerLoad => st.owner.Quiet?
    case OwnerCasOk => st.owner.Seen? && st.top == st.owner.top
    case OwnerCasFail => st.owner.Seen?
    case Fetch => st.owner.Walking? && st.owner.tail != 0 && st.owner.tail in st.next
    case Relink => st.owner.Fetched? && PageOf(st.owner.tail) in st.localFree
    case Publish => st.owner.Relinked? && st.owner.tail in st.puts && PageOf(st.owner.tail) in st.lists && st.hand != []
    case Reuse(p, c) =>
      && st.owner.Quiet? && c in st.pusher && p in st.localFree && p in st.lists && st.localFree[p] != 0
      && st.localFree[p] in st.next && st.lists[p] != []
  }

  function DoCas(st: State, c: ClientId, b: Block): State
    requires b in st.pushes
  {
    st.(top := b, pusher := st.pusher[c := Rest], where := st.where[b := Stacked], stack := [b] + st.stack,
        pushes := st.pushes[b := st.pushes[b] + 1])
  }

  /** Take the whole stack; nothing to walk when it is empty. */
  function DoTake(st: State): State {
    st.(top := 0, owner := if st.top == 0 then Quiet else Walking(st.top), stack := [], hand := st.stack,
        where := map b | b in st.where :: if st.where[b].Stacked? then InHand else st.where[b])
  }

  /** The block becomes the head of its page's local list; the walk goes on or ends. */
  function DoPublish(st: State, b: Block, succ: Block): State
    requires b in st.puts && PageOf(b) in st.lists && st.hand != []
  {
    st.(localFree := st.localFree[PageOf(b) := b], owner := if succ == 0 then Quiet else Walking(succ),
        where := st.where[b := Listed], hand := st.hand[1..],
        lists := st.lists[PageOf(b) := [b] + st.lists[PageOf(b)]], puts := st.puts[b := st.puts[b] + 1])
  }

  /** The head of a local list is handed out again (by way of the page's free list). */
  function DoReuse(st: State, p: Page, c: ClientId): State
    requires p in st.localFree && st.localFree[p] in st.next && p in st.lists && st.lists[p] != []
  {
    var b := st.localFree[p];
    st.(localFree := st.localFree[p := st.next[b]], where := st.where[b := With(c)],
        lists := st.lists[p := st.lists[p][1..]])
  }

  function Apply(st: State, a: Step): State
    requires Enabled(st, a)
  {
    match a
    case Begin(c, b) => st.(pusher := st.pusher[c := Begun(b)])
    case Load(c) => st.(pusher := st.pusher[c := Loaded(st.pusher[c].b, st.top)])
    case Link(c) =>
      st.(next := st.next[st.pusher[c].b := st.pusher[c].seen],
          pusher := st.pusher[c := Linked(st.pusher[c].b, st.pusher[c].seen)])
    case CasOk(c) => DoCas(st, c, st.pusher[c].b)
    case CasFail(c) => st.(pusher := st.pusher[c := Begun(st.pusher[c].b)])
    case Use(c, b, x) => st.(next := st.next[b := x])
    case Hand(c, b, to) => st.(where := st.where[b := With(to)])
    case OwnerLoad => if st.top == 0 then st else st.(owner := Seen(st.top))
    case OwnerCasOk => DoTake(st)
    case OwnerCasFail => st.(owner := Seen(st.top))
    case Fetch => st.(owner := Fetched(st.owner.tail, st.next[st.owner.tail]))
    case Relink =>
      st.(next := st.next[st.owner.tail := st.localFree[PageOf(st.owner.tail)]],
          owner := Relinked(st.owner.tail, st.owner.succ))
    case Publish => DoPublish(st, st.owner.tail, st.owner.succ)
    case Reuse(p, c) => DoReuse(st, p, c)
  }

  // ----- the invariant

  ghost predicate StackOk(next: Links, where: map<Block, Where>, top: Block, stack: seq<Block>) {
    && Chain(next, top, stack)
    && forall b :: b in stack <==> b in where && where[b].Stacked?
  }

  /** The links the collector has still to follow; it has already read the first when it
      has fetched the successor. */
  ghost predicate HandOk(next: Links, where: map<Block, Where>, owner: Collector, localFree: map<Page, Block>,
                         hand: seq<Block>)
  {
    && (forall b :: b in hand <==> b in where && where[b].InHand?)
    && match owner
       case Quiet => hand == []
       case Seen(top) => hand == []
       case Walking(tail) => tail != 0 && Chain(next, tail, hand)
       case Fetched(tail, succ) => Split(next, tail, succ, hand)
       case Relinked(tail, succ) =>
         Split(next, tail, succ, hand) && PageOf(tail) in localFree && next[tail] == localFree[PageOf(tail)]
  }

  ghost predicate Split(next: Links, tail: Block, succ: Block, hand: seq<Block>) {
    hand != [] && hand[0] == tail && tail != 0 && tail in next && tail !in hand[1..] && Chain(next, succ, hand[1..])
  }

  ghost predicate ListOk(next: Links, where: map<Block, Where>, p: Page, head: Block, list: seq<Block>) {
    && Chain(next, head, list)
    && forall b :: b in list <==> b in where && where[b].Listed? && PageOf(b) == p
  }

  ghost predicate ListsOk(next: Links, where: map<Block, Where>, localFree: map<Page, Block>,
                          lists: map<Page, seq<Block>>)
  {
    && lists.Keys == localFree.Keys
    && (forall p {:trigger ListOk(next, where, p, localFree[p], lists[p])} | p in lists ::
        ListOk(next, where, p, localFree[p], lists[p]))
    && (forall b | b in where :: b != 0 && PageOf(b) in lists)
  }

  /** A client frees only a block it has; a written link is the top it loaded. */
  ghost predicate PusherOk(next: Links, where: map<Block, Where>, c: ClientId, u: Pusher) {
    match u
    case Rest => true
    case Begun(b) => b in where && where[b] == With(c)
    case Loaded(b, seen) => b in where && where[b] == With(c)
    case Linked(b, seen) => b in where && where[b] == With(c) && b in next && next[b] == seen
  }

  ghost predicate PushersOk(next: Links, where: map<Block, Where>, pusher: map<ClientId, Pusher>) {
    forall c {:trigger PusherOk(next, where, c, pusher[c])} | c in pusher :: PusherOk(next, where, c, pusher[c])
  }

  /** Every successful push has been put on a local list, or is on its way, once. */
  ghost predicate Accounted(where: map<Block, Where>, pushes: map<Block, nat>, puts: map<Block, nat>) {
    && pushes.Keys == puts.Keys == where.Keys
    && forall b | b in where :: pushes[b] == puts[b] + if where[b].Stacked? || where[b].InHand? then 1 else 0
  }

  ghost predicate Inv(st: State) {
    && StackOk(st.next, st.where, st.top, st.stack)
    && HandOk(st.next, st.where, st.owner, st.localFree, st.hand)
    && ListsOk(st.next, st.where, st.localFree, st.lists)
    && PushersOk(st.next, st.where, st.pusher)
    && Accounted(st.where, st.pushes, st.puts)
  }

  // ----- each part of the invariant under each kind of change

  /** Writing the link of a block that a client has disturbs nothing else. */
  lemma WriteKeepsLists(next: Links, where: map<Block, Where>, localFree: map<Page, Block>,
                        lists: map<Page, seq<Block>>, b: Block, x: Block)
    requires ListsOk(next, where, localFree, lists) && b in where && !where[b].Listed?
    ensures ListsOk(next[b := x], where, localFree, lists)
  {
    forall p | p in lists ensures ListOk(next[b := x], where, p, localFree[p], lists[p]) {
      assert ListOk(next, where, p, localFree[p], lists[p]);
      ChainFrame(next, next[b := x], localFree[p], lists[p]);
    }
  }

  lemma WriteKeepsHand(next: Links, where: map<Block, Where>, owner: Collector, localFree: map<Page, Block>,
                       hand: seq<Block>, b: Block, x: Block)
    requires HandOk(next, where, owner, localFree, hand) && b in where && !where[b].InHand?
    ensures HandOk(next[b := x], where, owner, localFree, hand)
  {
    match owner
    case Quiet =>
    case Seen(_) =>
    case Walking(tail) => ChainFrame(next, next[b := x], tail, hand);
    case Fetched(tail, succ) => ChainFrame(next, next[b := x], succ, hand[1..]);
    case Relinked(tail, succ) => ChainFrame(next, next[b := x], succ, hand[1..]);
  }

  lemma WriteKeepsPushers(next: Links, where: map<Block, Where>, pusher: map<ClientId, Pusher>, b: Block, x: Block,
                          c: ClientId, u: Pusher)
    requires PushersOk(next, where, pusher) && b in where && (where[b].With? ==> where[b].c == c)
    requires PusherOk(next[b := x], where, c, u)
    ensures PushersOk(next[b := x], where, pusher[c := u])
  {
    forall d | d in pusher && d != c ensures PusherOk(next[b := x], where, d, pusher[d]) {
      assert PusherOk(next, where, d, pusher[d]);
    }
  }

  /** A block changes hands; no other does. */
  lemma MoveKeepsPushers(next: Links, where: map<Block, Where>, pusher: map<ClientId, Pusher>, b: Block, w: Where,
                         c: ClientId, u: Pusher)
    requires PushersOk(next, where, pusher) && b in where && (where[b].With? ==> where[b].c == c)
    requires PusherOk(next, where[b := w], c, u)
    ensures PushersOk(next, where[b := w], pusher[c := u])
  {
    forall d | d in pusher && d != c ensures PusherOk(next, where[b := w], d, pusher[d]) {
      assert PusherOk(next, where, d, pusher[d]);
    }
  }

  /** A change that is none for blocks on local lists. */
  lemma MoveKeepsLists(next: Links, where: map<Block, Where>, localFree: map<Page, Block>,
                       lists: map<Page, seq<Block>>, where': map<Block, Where>)
    requires ListsOk(next, where, localFree, lists) && where'.Keys == where.Keys
    requires forall b | b in where :: where[b].Listed? <==> where'[b].Listed?
    ensures ListsOk(next, where', localFree, lists)
  {
    forall p | p in lists ensures ListOk(next, where', p, localFree[p], lists[p]) {
      assert ListOk(next, where, p, localFree[p], lists[p]);
    }
  }

  lemma MoveKeepsHand(next: Links, where: map<Block, Where>, owner: Collector, localFree: map<Page, Block>,
                      hand: seq<Block>, where': map<Block, Where>)
    requires HandOk(next, where, owner, localFree, hand) && where'.Keys == where.Keys
    requires forall b | b in where :: where[b].InHand? <==> where'[b].InHand?
    ensures HandOk(next, where', owner, localFree, hand)
  {
  }

  // ----- the steps

  lemma WriteKeeps(st: State, c: ClientId, b: Block, x: Block, u: Pusher)
    requires Inv(st) && b in st.where && st.where[b] == With(c) && c in st.pusher
    requires PusherOk(st.next[b := x], st.where, c, u)
    ensures Inv(st.(next := st.next[b := x], pusher := st.pusher[c := u]))
  {
    ChainFrame(st.next, st.next[b := x], st.top, st.stack);
    WriteKeepsHand(st.next, st.where, st.owner, st.localFree, st.hand, b, x);
    WriteKeepsLists(st.next, st.where, st.localFree, st.lists, b, x);
    WriteKeepsPushers(st.next, st.where, st.pusher, b, x, c, u);
  }

  lemma PusherMoves(st: State, c: ClientId, u: Pusher)
    requires Inv(st) && c in st.pusher && PusherOk(st.next, st.where, c, u)
    ensures Inv(st.(pusher := st.pusher[c := u]))
  {
    forall d | d in st.pusher ensures PusherOk(st.next, st.where, d, st.pusher[c := u][d]) {
      assert PusherOk(st.next, st.where, d, st.pusher[d]);
    }
  }

  lemma HandKeeps(st: State, c: ClientId, b: Block, to: ClientId)
    requires Inv(st) && Holds(st, c, b) && st.pusher[c].Rest?
    ensures Inv(st.(where := st.where[b := With(to)]))
  {
    MoveKeepsPushers(st.next, st.where, st.pusher, b, With(to), c, Rest);
    assert st.pusher[c := Rest] == st.pusher;
    MoveKeepsLists(st.next, st.where, st.localFree, st.lists, st.where[b := With(to)]);
    MoveKeepsHand(st.next, st.where, st.owner, st.localFree, st.hand, st.where[b := With(to)]);
  }

  lemma CasKeeps(st: State, c: ClientId)
    requires Inv(st) && Enabled(st, CasOk(c))
    ensures Inv(DoCas(st, c, st.pusher[c].b))
  {
    var b := st.pusher[c].b;
    assert PusherOk(st.next, st.where, c, st.pusher[c]);
    assert ([b] + st.stack)[1..] == st.stack;
    MoveKeepsPushers(st.next, st.where, st.pusher, b, Stacked, c, Rest);
    MoveKeepsLists(st.next, st.where, st.localFree, st.lists, st.where[b := Stacked]);
    MoveKeepsHand(st.next, st.where, st.owner, st.localFree, st.hand, st.where[b := Stacked]);
  }

  lemma TakeKeeps(st: State)
    requires Inv(st) && Enabled(st, OwnerCasOk)
    ensures Inv(DoTake(st))
  {
    var st' := DoTake(st);
    MoveKeepsLists(st.next, st.where, st.localFree, st.lists, st'.where);
    forall c | c in st.pusher ensures PusherOk(st.next, st'.where, c, st.pusher[c]) {
      assert PusherOk(st.next, st.where, c, st.pusher[c]);
    }
  }

  lemma FetchKeeps(st: State)
    requires Inv(st) && Enabled(st, Fetch)
    ensures Inv(Apply(st, Fetch))
  {
  }

  lemma RelinkKeeps(st: State)
    requires Inv(st) && Enabled(st, Relink)
    ensures Inv(Apply(st, Relink))
  {
    var b := st.owner.tail;
    var x := st.localFree[PageOf(b)];
    assert b in st.hand;
    ChainFrame(st.next, st.next[b := x], st.top, st.stack);
    ChainFrame(st.next, st.next[b := x], st.owner.succ, st.hand[1..]);
    WriteKeepsLists(st.next, st.where, st.localFree, st.lists, b, x);
    forall d | d in st.pusher ensures PusherOk(st.next[b := x], st.where, d, st.pusher[d]) {
      assert PusherOk(st.next, st.where, d, st.pusher[d]);
    }
  }

  lemma PublishKeepsLists(next: Links, where: map<Block, Where>, localFree: map<Page, Block>,
                          lists: map<Page, seq<Block>>, b: Block)
    requires ListsOk(next, where, localFree, lists) && b in where && !where[b].Listed?
    requires PageOf(b) in lists && b in next && next[b] == localFree[PageOf(b)]
    ensures var p := PageOf(b);
            ListsOk(next, where[b := Listed], localFree[p := b], lists[p := [b] + lists[p]])
  {
    var p := PageOf(b);
    assert ListOk(next, where, p, localFree[p], lists[p]);
    assert ([b] + lists[p])[1..] == lists[p];
    forall q | q in lists && q != p ensures ListOk(next, where[b := Listed], q, localFree[q], lists[q]) {
      assert ListOk(next, where, q, localFree[q], lists[q]);
    }
  }

  lemma PublishKeeps(st: State)
    requires Inv(st) && Enabled(st, Publish)
    ensures Inv(DoPublish(st, st.owner.tail, st.owner.succ))
  {
    var b := st.owner.tail;
    assert st.hand == [b] + st.hand[1..];
    PublishKeepsLists(st.next, st.where, st.localFree, st.lists, b);
    PublishKeepsPushers(st.next, st.where, st.pusher, b);
    PublishKeepsAccounts(st.where, st.pushes, st.puts, b);
  }

  lemma PublishKeepsPushers(next: Links, where: map<Block, Where>, pusher: map<ClientId, Pusher>, b: Block)
    requires PushersOk(next, where, pusher) && b in where && !where[b].With?
    ensures PushersOk(next, where[b := Listed], pusher)
  {
    forall d | d in pusher ensures PusherOk(next, where[b := Listed], d, pusher[d]) {
      assert PusherOk(next, where, d, pusher[d]);
    }
  }

  lemma PublishKeepsAccounts(where: map<Block, Where>, pushes: map<Block, nat>, puts: map<Block, nat>, b: Block)
    requires Accounted(where, pushes, puts) && b in where && where[b].InHand?
    ensures Accounted(where[b := Listed], pushes, puts[b := puts[b] + 1])
  {
  }

  lemma ReuseKeepsLists(next: Links, where: map<Block, Where>, localFree: map<Page, Block>,
                        lists: map<Page, seq<Block>>, p: Page, c: ClientId)
    requires ListsOk(next, where, localFree, lists) && p in lists && localFree[p] != 0
    ensures var b := localFree[p];
            && b in where && where[b].Listed? && lists[p] != [] && b in next
            && ListsOk(next, where[b := With(c)], localFree[p := next[b]], lists[p := lists[p][1..]])
  {
    var b := localFree[p];
    assert ListOk(next, where, p, b, lists[p]);
    assert lists[p] == [b] + lists[p][1..];
    forall q | q in lists && q != p ensures ListOk(next, where[b := With(c)], q, localFree[q], lists[q]) {
      assert ListOk(next, where, q, localFree[q], lists[q]);
    }
  }

  lemma ReuseKeeps(st: State, p: Page, c: ClientId)
    requires Inv(st) && Enabled(st, Reuse(p, c))
    ensures Inv(DoReuse(st, p, c))
  {
    var b := st.localFree[p];
    ReuseKeepsLists(st.next, st.where, st.localFree, st.lists, p, c);
    forall d | d in st.pusher ensures PusherOk(st.next, st.where[b := With(c)], d, st.pusher[d]) {
      assert PusherOk(st.next, st.where, d, st.pusher[d]);
    }
  }

  lemma LoadKeeps(st: State, c: ClientId)
    requires Inv(st) && Enabled(st, Load(c))
    ensures Inv(Apply(st, Load(c)))
  {
    assert PusherOk(st.next, st.where, c, st.pusher[c]);
    PusherMoves(st, c, Loaded(st.pusher[c].b, st.top));
  }

  lemma LinkKeeps(st: State, c: ClientId)
    requires Inv(st) && Enabled(st, Link(c))
    ensures Inv(Apply(st, Link(c)))
  {
    assert PusherOk(st.next, st.where, c, st.pusher[c]);
    WriteKeeps(st, c, st.pusher[c].b, st.pusher[c].seen, Linked(st.pusher[c].b, st.pusher[c].seen));
  }

  lemma RetryKeeps(st: State, c: ClientId)
    requires Inv(st) && Enabled(st, CasFail(c))
    ensures Inv(Apply(st, CasFail(c)))
  {
    assert PusherOk(st.next, st.where, c, st.pusher[c]);
    PusherMoves(st, c, Begun(st.pusher[c].b));
  }

  /** The invariant survives every step of every client and of the owner. */
  lemma StepKeeps(st: State, a: Step)
    requires Inv(st) && Enabled(st, a)
    ensures Inv(Apply(st, a))
  {
    match a
    case Begin(c, b) => PusherMoves(st, c, Begun(b));
    case Load(c) => LoadKeeps(st, c);
    case Link(c) => LinkKeeps(st, c);
    case CasOk(c) => CasKeeps(st, c);
    case CasFail(c) => RetryKeeps(st, c);
    case Use(c, b, x) =>
      WriteKeeps(st, c, b, x, Rest);
      assert st.pusher[c := Rest] == st.pusher;
    case Hand(c, b, to) => HandKeeps(st, c, b, to);
    case OwnerLoad =>
    case OwnerCasOk => TakeKeeps(st);
    case OwnerCasFail =>
    case Fetch => FetchKeeps(st);
    case Relink => RelinkKeeps(st);
    case Publish => PublishKeeps(st);
    case Reuse(p, c) => ReuseKeeps(st, p, c);
  }

  // ----- runs

  /** All blocks belong to clients; nothing has been freed. */
  ghost predicate Init(st: State) {
    && st.top == 0 && st.owner.Quiet? && st.stack == [] && st.hand == []
    && st.lists.Keys == st.localFree.Keys && (forall p | p in st.lists :: st.lists[p] == [] && st.localFree[p] == 0)
    && (forall b | b in st.where :: b != 0 && PageOf(b) in st.lists && st.where[b].With?)
    && (forall c | c in st.pusher :: st.pusher[c].Rest?)
    && st.pushes.Keys == st.puts.Keys == st.where.Keys
    && (forall b | b in st.where :: st.pushes[b] == 0 && st.puts[b] == 0)
  }

  ghost predicate Run(states: seq<State>, steps: seq<Step>) {
    && |states| == |steps| + 1 && Init(states[0])
    && forall i | 0 <= i < |steps| :: Enabled(states[i], steps[i]) && states[i + 1] == Apply(states[i], steps[i])
  }

  lemma {:induction false} RunInv(states: seq<State>, steps: seq<Step>, i: nat)
    requires Run(states, steps) && i < |states|
    ensures Inv(states[i])
  {
    if i == 0 {
      InitInv(states[0]);
    } else {
      RunInv(states, steps, i - 1);
      StepKeeps(states[i - 1], steps[i - 1]);
    }
  }

  lemma InitInv(st: State)
    requires Init(st)
    ensures Inv(st)
  {
    assert forall p | p in st.lists :: ListOk(st.next, st.where, p, st.localFree[p], st.lists[p]);
  }

  /** Main theorem: whatever the interleaving, every successful push of a block has reached a
      local list exactly once, or the block is on its way, once. */
  lemma ArrivesOnce(states: seq<State>, steps: seq<Step>, i: nat, b: Block)
    requires Run(states, steps) && i < |states| && b in states[i].where
    ensures var st := states[i];
            && b in st.pushes && b in st.puts
            && st.pushes[b] == st.puts[b] + (if b in st.stack || b in st.hand then 1 else 0)
            && !(b in st.stack && b in st.hand)
  {
    RunInv(states, steps, i);
  }

  /** The lists are acyclic and disjoint at every moment: a block is on at most one, and each
      local list holds blocks of its own page only. */
  lemma ListsSeparate(states: seq<State>, steps: seq<Step>, i: nat, p: Page, b: Block)
    requires Run(states, steps) && i < |states| && p in states[i].lists && b in states[i].lists[p]
    ensures var st := states[i];
            && PageOf(b) == p && b !in st.stack && b !in st.hand
            && p in st.localFree && Chain(st.next, st.localFree[p], st.lists[p])
  {
    RunInv(states, steps, i);
    var st := states[i];
    assert ListOk(st.next, st.where, p, st.localFree[p], st.lists[p]);
  }

  /** When the owner is done and the stack is empty, nothing freed is missing. */
  lemma NothingLost(states: seq<State>, steps: seq<Step>, i: nat, b: Block)
    requires Run(states, steps) && i < |states| && b in states[i].where
    requires states[i].owner.Quiet? && states[i].top == 0
    ensures b in states[i].pushes && b in states[i].puts && states[i].pushes[b] == states[i].puts[b]
  {
    RunInv(states, steps, i);
  }

  // ----- the walk ends

  /** Steps the owner has still to make before the walk is over. */
  function Left(st: State): nat {
    match st.owner
    case Quiet => 0
    case Seen(_) => 0
    case Walking(_) => 3 * |st.hand|
    case Fetched(_, _) => if |st.hand| > 0 then 3 * |st.hand| - 1 else 0
    case Relinked(_, _) => if |st.hand| > 0 then 3 * |st.hand| - 2 else 0
  }

  predicate OwnerStep(a: Step) {
    a.Fetch? || a.Relink? || a.Publish?
  }

  predicate Walks(o: Collector) {
    o.Walking? || o.Fetched? || o.Relinked?
  }

  /** Once it has the stack the owner is never stuck. */
  lemma NeverStuck(st: State)
    requires Inv(st) && Walks(st.owner)
    ensures Left(st) > 0
    ensures match st.owner
            case Walking(_) => Enabled(st, Fetch)
            case Fetched(_, _) => Enabled(st, Relink)
            case Relinked(_, _) => Enabled(st, Publish)
            case _ => false
  {
    assert st.hand != [] && st.hand[0] == st.owner.tail;
    assert st.owner.tail in st.hand;
  }

  lemma OwnerWalks(st: State, a: Step)
    requires HandOk(st.next, st.where, st.owner, st.localFree, st.hand) && Enabled(st, a) && OwnerStep(a)
    ensures Left(st) > 0 && Left(Apply(st, a)) == Left(st) - 1
  {
    match a
    case Fetch => assert st.hand != [];
    case Relink =>
    case Publish => assert st.owner.succ == 0 <==> st.hand[1..] == [];
  }

  /** Every step of the walk brings the end one step closer, and no client delays it. */
  lemma WalkEnds(states: seq<State>, steps: seq<Step>, i: nat)
    requires Run(states, steps) && i < |steps| && Walks(states[i].owner)
    ensures Left(states[i]) > 0
    ensures Left(states[i + 1]) == if OwnerStep(steps[i]) then Left(states[i]) - 1 else Left(states[i])
  {
    RunInv(states, steps, i);
    NeverStuck(states[i]);
    if OwnerStep(steps[i]) {
      OwnerWalks(states[i], steps[i]);
    } else {
      ClientsDoNotDelay(states[i], steps[i]);
    }
  }

  lemma ClientsDoNotDelay(st: State, a: Step)
    requires Enabled(st, a) && !OwnerStep(a) && Walks(st.owner)
    ensures Apply(st, a).hand == st.hand && Apply(st, a).owner == st.owner
  {
  }

  // ----- undisturbed

  /** These steps, one after the other. */
  ghost predicate Plays(states: seq<State>, steps: seq<Step>) {
    && |states| == |steps| + 1
    && forall i | 0 <= i < |steps| :: Enabled(states[i], steps[i]) && states[i + 1] == Apply(states[i], steps[i])
  }

  function Last(states: seq<State>): State
    requires |states| > 0
  {
    states[|states| - 1]
  }

  lemma PlaysFirst(st: State, a: Step, states: seq<State>, steps: seq<Step>)
    requires Enabled(st, a) && Plays(states, steps) && states[0] == Apply(st, a)
    ensures Plays([st] + states, [a] + steps)
  {
  }

  /** `cxl_free` of another client's block, undisturbed: the block is on top of the stack, with
      the old top behind it. */
  lemma FreeAlone(st: State, c: ClientId, b: Block) returns (states: seq<State>)
    requires Enabled(st, Begin(c, b))
    ensures Plays(states, [Begin(c, b), Load(c), Link(c), CasOk(c)]) && states[0] == st
    ensures Last(states) == st.(next := st.next[b := st.top], top := b, pusher := st.pusher[c := Rest],
                                where := st.where[b := Stacked], stack := [b] + st.stack,
                                pushes := st.pushes[b := st.pushes[b] + 1])
  {
    var st1 := Apply(st, Begin(c, b));
    var st2 := Apply(st1, Load(c));
    var st3 := Apply(st2, Link(c));
    var st4 := Apply(st3, CasOk(c));
    states := [st, st1, st2, st3, st4];
    assert st4.pusher == st.pusher[c := Rest];
  }

  /** A block that a client has written to and handed on can be freed by the client that got it. */
  lemma FreeElsewhere(st: State, c: ClientId, b: Block, x: Block, to: ClientId) returns (states: seq<State>)
    requires Enabled(st, Use(c, b, x)) && Enabled(st, Hand(c, b, to)) && st.pusher[to].Rest?
    ensures Plays(states, [Use(c, b, x)] + ([Hand(c, b, to)] + [Begin(to, b), Load(to), Link(to), CasOk(to)]))
    ensures states[0] == st && b in states[1].next && states[1].next[b] == x
    ensures Last(states).top == b && Last(states).stack == [b] + st.stack
    ensures Last(states).where == st.where[b := Stacked]
  {
    var st1 := Apply(st, Use(c, b, x));
    var more := FreeHanded(st1, c, b, to);
    PlaysFirst(st, Use(c, b, x), more, [Hand(c, b, to)] + [Begin(to, b), Load(to), Link(to), CasOk(to)]);
    states := [st] + more;
  }

  lemma FreeHanded(st: State, c: ClientId, b: Block, to: ClientId) returns (states: seq<State>)
    requires Enabled(st, Hand(c, b, to)) && st.pusher[to].Rest?
    ensures Plays(states, [Hand(c, b, to)] + [Begin(to, b), Load(to), Link(to), CasOk(to)]) && states[0] == st
    ensures Last(states).top == b && Last(states).stack == [b] + st.stack
    ensures Last(states).where == st.where[b := Stacked]
  {
    var st' := Apply(st, Hand(c, b, to));
    var more := FreeAlone(st', to, b);
    PlaysFirst(st, Hand(c, b, to), more, [Begin(to, b), Load(to), Link(to), CasOk(to)]);
    states := [st] + more;
    assert st'.where[b := Stacked] == st.where[b := Stacked];
  }

  function NextOfPusher(st: State, c: ClientId): Step
    requires c in st.pusher && !st.pusher[c].Rest?
  {
    match st.pusher[c]
    case Begun(_) => Load(c)
    case Loaded(_, _) => Link(c)
    case Linked(_, seen) => if st.top == seen then CasOk(c) else CasFail(c)
  }

  /** Steps to the push; a top that has changed since it was loaded costs one more round. */
  function PushLeft(st: State, u: Pusher): nat {
    match u
    case Rest => 0
    case Begun(_) => 3
    case Loaded(_, seen) => if st.top == seen then 2 else 5
    case Linked(_, seen) => if st.top == seen then 1 else 4
  }

  /** A client freeing a block is never stuck, and its every step brings the push closer. */
  lemma PusherAdvances(st: State, c: ClientId)
    requires Inv(st) && c in st.pusher && !st.pusher[c].Rest?
    ensures var a := NextOfPusher(st, c);
            && Enabled(st, a) && c in Apply(st, a).pusher
            && PushLeft(Apply(st, a), Apply(st, a).pusher[c]) < PushLeft(st, st.pusher[c])
  {
    assert PusherOk(st.next, st.where, c, st.pusher[c]);
  }

  /** The owner's next step; nothing to do when it is quiet and the stack is empty. */
  function NextOfOwner(st: State): Step {
    match st.owner
    case Quiet => OwnerLoad
    case Seen(top) => if st.top == top then OwnerCasOk else OwnerCasFail
    case Walking(_) => Fetch
    case Fetched(_, _) => Relink
    case Relinked(_, _) => Publish
  }

  predicate Settled(st: State) {
    st.owner.Quiet? && st.top == 0
  }

  /** Steps the owner has still to make before everything on the stack and in its hand is on a
      local list. */
  function CollectLeft(st: State): nat {
    match st.owner
    case Seen(top) => 3 * |st.stack| + if st.top == top then 2 else 3
    case _ => Left(st) + if st.top == 0 then 0 else 3 * |st.stack| + 4
  }

  /** The owner is never stuck: an empty stack apart, its next step is possible and brings it closer. */
  lemma OwnerAdvances(st: State)
    requires Inv(st) && !Settled(st)
    ensures Enabled(st, NextOfOwner(st)) && CollectLeft(Apply(st, NextOfOwner(st))) < CollectLeft(st)
    ensures Apply(st, NextOfOwner(st)).pusher == st.pusher && Apply(st, NextOfOwner(st)).pushes == st.pushes
    ensures Apply(st, NextOfOwner(st)).where.Keys == st.where.Keys
    ensures forall b | b in st.where :: Collects(st.where[b], Apply(st, NextOfOwner(st)).where[b])
  {
    if Walks(st.owner) {
      NeverStuck(st);
      WalkAdvances(st);
    } else {
      StackAdvances(st);
    }
  }

  lemma StackAdvances(st: State)
    requires Inv(st) && !Settled(st) && !Walks(st.owner)
    ensures Enabled(st, NextOfOwner(st)) && CollectLeft(Apply(st, NextOfOwner(st))) < CollectLeft(st)
    ensures Apply(st, NextOfOwner(st)).where.Keys == st.where.Keys
    ensures forall b | b in st.where :: Collects(st.where[b], Apply(st, NextOfOwner(st)).where[b])
  {
    assert st.stack == [] <==> st.top == 0;
  }

  /** Where the collecting takes a block: from the stack to the owner's hand and on to a local list. */
  predicate Collects(was: Where, now: Where) {
    match was
    case With(_) => now == was
    case Stacked => now == was || now.InHand?
    case InHand => now == was || now.Listed?
    case Listed => now == was
  }

  lemma WalkAdvances(st: State)
    requires Inv(st) && Walks(st.owner) && Enabled(st, NextOfOwner(st))
    ensures CollectLeft(Apply(st, NextOfOwner(st))) < CollectLeft(st)
    ensures Apply(st, NextOfOwner(st)).where.Keys == st.where.Keys
    ensures forall b | b in st.where :: Collects(st.where[b], Apply(st, NextOfOwner(st)).where[b])
  {
    OwnerWalks(st, NextOfOwner(st));
    assert st.stack == [] <==> st.top == 0;
    assert st.owner.tail in st.hand;
  }

  /** Left alone, the owner brings every block from the stack, and from its hand, to a local list;
      no other block moves. */
  lemma {:induction false} OwnerFinishes(st: State) returns (states: seq<State>, steps: seq<Step>)
    requires Inv(st)
    ensures Plays(states, steps) && states[0] == st
    ensures var st' := Last(states);
            && Settled(st') && Inv(st') && st'.pusher == st.pusher && st'.pushes == st.pushes
            && st'.where == map b | b in st.where ::
                              if st.where[b].Stacked? || st.where[b].InHand? then Listed else st.where[b]
    decreases CollectLeft(st)
  {
    if Settled(st) {
      states, steps := [st], [];
      SettledListed(st);
    } else {
      OwnerAdvances(st);
      var a := NextOfOwner(st);
      var st' := Apply(st, a);
      StepKeeps(st, a);
      states, steps := OwnerFinishes(st');
      PlaysFirst(st, a, states, steps);
      CollectsOn(st.where, st'.where, Last(states).where);
      states, steps := [st] + states, [a] + steps;
    }
  }

  lemma SettledListed(st: State)
    requires Inv(st) && Settled(st)
    ensures forall b | b in st.where :: !st.where[b].Stacked? && !st.where[b].InHand?
  {
    assert st.stack == [] && st.hand == [];
    forall b | b in st.where ensures !st.where[b].Stacked? && !st.where[b].InHand? {
      assert b !in st.stack && b !in st.hand;
    }
  }

  lemma CollectsOn(where0: map<Block, Where>, where1: map<Block, Where>, where2: map<Block, Where>)
    requires where1.Keys == where0.Keys && forall b | b in where0 :: Collects(where0[b], where1[b])
    requires where2 == map b | b in where1 ::
                         if where1[b].Stacked? || where1[b].InHand? then Listed else where1[b]
    ensures where2 == map b | b in where0 ::
                        if where0[b].Stacked? || where0[b].InHand? then Listed else where0[b]
  {
  }

  /** The head of a local list can be handed out again, to any client; the rest of the list stays. */
  lemma ListedComesBack(st: State, p: Page, c: ClientId)
    requires Inv(st) && Settled(st) && c in st.pusher && p in st.lists && st.lists[p] != []
    ensures Enabled(st, Reuse(p, c))
    ensures var st' := Apply(st, Reuse(p, c));
            && p in st'.lists && st.lists[p] == [st.localFree[p]] + st'.lists[p]
            && Holds(st', c, st.localFree[p]) && st'.where == st.where[st.localFree[p] := With(c)]
  {
    assert ListOk(st.next, st.where, p, st.localFree[p], st.lists[p]);
    assert st.localFree[p] in st.lists[p];
  }
}
