/** Readers of the hash index interleaved, one memory access at a time, with its writers,
    of which each partition has one. */
module HashReaders {
  import opened Common
  import opened HashIndex

  /** A client in `put`: walking its chain, filling a new block (three words), linking it. */
  datatype Writer =
    | Resting
    | Looking(key: nat, val: nat, block: Addr, l: Link, i: nat)
    | Filling(key: nat, val: nat, block: Addr, l: Link, i: nat, words: nat)

  /** A client in `get`: at a link, at a node whose key is to be read, at a node with the key. At
      rest it has what its last `get` answered. */
  datatype Reader =
    | Idle(answer: Option<nat>)
    | AtLink(key: nat, l: Link, i: nat)
    | AtNode(key: nat, a: Addr, i: nat)
    | Hit(key: nat, a: Addr)

  datatype State = State(bucket: seq<Addr>, node: Nodes, writer: map<ClientId, Writer>, reader: map<nat, Reader>,
                         book: Book)

  datatype Step =
    | Put(t: ClientId, key: nat, val: nat, block: Addr) | Look(t: ClientId) | Fill(t: ClientId) | LinkNode(t: ClientId)
    | Get(r: nat, key: nat) | ReadLink(r: nat) | ReadKey(r: nat) | ReadVal(r: nat)

  /** The block is in no chain and no other client's. */
  ghost predicate Private(st: State, t: ClientId, block: Addr) {
    block != 0 && block !in st.book.entry
    && forall u | u in st.writer && u != t && !st.writer[u].Resting? :: st.writer[u].block != block
  }

  /** Null, or a block that has been linked (NothingUninitialised shows that no walk meets
      anything else). */
  predicate Sound(st: State, a: Addr) {
    a == 0 || (a in st.node && a in st.book.entry)
  }

  ghost predicate Enabled(st: State, s: Step) {
    match s
    case Put(t, key, val, block) =>
      1 <= t <= PARTITIONS && t in st.writer && st.writer[t].Resting? && Private(st, t, block)
    case Look(t) => t in st.writer && st.writer[t].Looking? && Sound(st, Deref(st.bucket, st.node, st.writer[t].l))
    case Fill(t) => t in st.writer && st.writer[t].Filling? && st.writer[t].words < 3
    case LinkNode(t) =>
      && t in st.writer && st.writer[t].Filling? && st.writer[t].words == 3
      && t > 0 && BucketOf(PutEntry(t, st.writer[t].key)) < |st.book.chains|
    case Get(r, key) => r in st.reader && st.reader[r].Idle? && key / TOP_BYTE < PARTITIONS
    case ReadLink(r) => r in st.reader && st.reader[r].AtLink?
    case ReadKey(r) => r in st.reader && st.reader[r].AtNode? && st.reader[r].a in st.node
    case ReadVal(r) => r in st.reader && st.reader[r].Hit? && st.reader[r].a in st.node
  }

  /** The node behind the link: update it if it has the key, else go on; past the last
      node, take the block. */
  ghost function DoLook(st: State, t: ClientId, w: Writer): State
    requires w.Looking? && Sound(st, Deref(st.bucket, st.node, w.l))
  {
    var a := Deref(st.bucket, st.node, w.l);
    if a == 0 then
      st.(writer := st.writer[t := Filling(w.key, w.val, w.block, w.l, w.i, 0)])
    else if st.node[a].key == w.key then
      st.(node := st.node[a := st.node[a].(val := w.val)], writer := st.writer[t := Resting],
          book := NewValue(st.book, a, w.val))
    else st.(writer := st.writer[t := Looking(w.key, w.val, w.block, After(a), w.i + 1)])
  }

  /** One word of the block: key, value, link. */
  function Filled(node: Nodes, w: Writer): Node
    requires w.Filling?
  {
    var n := if w.block in node then node[w.block] else Node(0, 0, 0);
    if w.words == 0 then n.(key := w.key) else if w.words == 1 then n.(val := w.val) else n.(next := 0)
  }

  ghost function Apply(st: State, s: Step): State
    requires Enabled(st, s)
  {
    match s
    case Put(t, key, val, block) =>
      st.(writer := st.writer[t := Looking(key, val, block, Head(BucketOf(PutEntry(t, key))), 0)])
    case Look(t) => DoLook(st, t, st.writer[t])
    case Fill(t) =>
      var w := st.writer[t];
      st.(node := st.node[w.block := Filled(st.node, w)],
          writer := st.writer[t := Filling(w.key, w.val, w.block, w.l, w.i, w.words + 1)])
    case LinkNode(t) =>
      var w := st.writer[t];
      st.(bucket := Rehead(st.bucket, w.l, w.block), node := Relink(st.node, w.l, w.block),
          writer := st.writer[t := Resting], book := Extended(st.book, PutEntry(t, w.key), w.block, w.val))
    case Get(r, key) => st.(reader := st.reader[r := AtLink(key, Head(BucketOf(GetEntry(key))), 0)])
    case ReadLink(r) =>
      var u := st.reader[r];
      var a := Deref(st.bucket, st.node, u.l);
      st.(reader := st.reader[r := if a == 0 then Idle(None) else AtNode(u.key, a, u.i)])
    case ReadKey(r) =>
      var u := st.reader[r];
      st.(reader := st.reader[r :=
            if st.node[u.a].key == u.key then Hit(u.key, u.a) else AtLink(u.key, After(u.a), u.i + 1)])
    case ReadVal(r) => st.(reader := st.reader[r := Idle(Some(st.node[st.reader[r].a].val))])
  }

  // ----- the invariant

  ghost predicate WriterOk(bucket: seq<Addr>, node: Nodes, k: Book, t: ClientId, w: Writer)
    requires |bucket| == |k.chains| == PARTITIONS * BUCKETS
  {
    w.Resting? ||
    (&& 1 <= t <= PARTITIONS && w.block != 0 && w.block !in k.entry
     && BucketOf(PutEntry(t, w.key)) < |bucket|
     && (var b := BucketOf(PutEntry(t, w.key));
         && Walked(node, k.chains[b], b, w.i, w.l, w.key)
         && (w.Filling? ==> w.i == |k.chains[b]|))
     && PartlyFilled(node, w))
  }

  ghost predicate PartlyFilled(node: Nodes, w: Writer) {
    w.Filling? ==>
      && w.words <= 3 && (w.words > 0 ==> w.block in node && node[w.block].key == w.key)
      && (w.words > 1 ==> node[w.block].val == w.val) && (w.words > 2 ==> node[w.block].next == 0)
  }

  ghost predicate ReaderOk(bucket: seq<Addr>, node: Nodes, k: Book, u: Reader)
    requires |bucket| == |k.chains| == PARTITIONS * BUCKETS
  {
    match u
    case Idle(_) => true
    case AtLink(key, l, i) =>
      && GoodKey(key)
      && Walked(node, k.chains[BucketOf(GetEntry(key))], BucketOf(GetEntry(key)), i, l, key)
    case AtNode(key, a, i) =>
      && GoodKey(key) && i < |k.chains[BucketOf(GetEntry(key))]| && k.chains[BucketOf(GetEntry(key))][i] == a
      && Passed(node, k.chains[BucketOf(GetEntry(key))], i, key)
    case Hit(key, a) => GoodKey(key) && a in k.entry && k.entry[a] == GetEntry(key)
  }

  predicate GoodKey(key: nat) {
    key / TOP_BYTE < PARTITIONS && BucketOf(GetEntry(key)) < PARTITIONS * BUCKETS
  }

  ghost predicate BlocksApart(writer: map<ClientId, Writer>) {
    forall t, u | t in writer && u in writer && t != u && !writer[t].Resting? && !writer[u].Resting? ::
      writer[t].block != writer[u].block
  }

  ghost predicate Inv(st: State) {
    && IndexOk(st.bucket, st.node, st.book)
    && (forall t {:trigger WriterOk(st.bucket, st.node, st.book, t, st.writer[t])} | t in st.writer ::
          WriterOk(st.bucket, st.node, st.book, t, st.writer[t]))
    && (forall r {:trigger ReaderOk(st.bucket, st.node, st.book, st.reader[r])} | r in st.reader ::
          ReaderOk(st.bucket, st.node, st.book, st.reader[r]))
    && BlocksApart(st.writer)
  }

  // ----- what one client's step means for the others

  /** Chains only grow at their end, linked nodes keep their keys, and nothing is unlinked. */
  ghost predicate Grows(node: Nodes, k: Book, node': Nodes, k': Book) {
    && |k'.chains| == |k.chains|
    && (forall b | 0 <= b < |k.chains| :: k.chains[b] <= k'.chains[b])
    && (forall a | a in k.entry :: a in k'.entry && k'.entry[a] == k.entry[a])
    && (forall a | a in k.entry && a in node :: a in node' && node'[a].key == node[a].key)
  }

  lemma PassedKept(bucket: seq<Addr>, node: Nodes, k: Book, node': Nodes, k': Book, b: nat, i: nat, key: nat)
    requires IndexOk(bucket, node, k) && Grows(node, k, node', k') && b < |bucket| && Passed(node, k.chains[b], i, key)
    ensures Passed(node', k'.chains[b], i, key)
    ensures forall j | 0 <= j < |k.chains[b]| :: k'.chains[b][j] == k.chains[b][j]
  {
    assert BucketOk(node, k.entry, b, bucket[b], k.chains[b]);
    forall j | 0 <= j < i ensures k'.chains[b][j] in node' && node'[k'.chains[b][j]].key != key {
      assert k.chains[b][j] in k.chains[b];
    }
  }

  lemma ReaderKept(bucket: seq<Addr>, node: Nodes, k: Book, bucket': seq<Addr>, node': Nodes, k': Book, u: Reader)
    requires IndexOk(bucket, node, k) && |bucket'| == |bucket| && Grows(node, k, node', k')
    requires ReaderOk(bucket, node, k, u)
    ensures ReaderOk(bucket', node', k', u)
  {
    if u.AtLink? || u.AtNode? {
      PassedKept(bucket, node, k, node', k', BucketOf(GetEntry(u.key)), u.i, u.key);
    }
  }

  lemma WriterKept(bucket: seq<Addr>, node: Nodes, k: Book, bucket': seq<Addr>, node': Nodes, k': Book, t: ClientId,
                   w: Writer)
    requires IndexOk(bucket, node, k) && |bucket'| == |bucket| && Grows(node, k, node', k')
    requires WriterOk(bucket, node, k, t, w) && !w.Resting?
    requires w.block !in k'.entry && (w.block in node ==> w.block in node' && node'[w.block] == node[w.block])
    requires k'.chains[BucketOf(PutEntry(t, w.key))] == k.chains[BucketOf(PutEntry(t, w.key))]
    ensures WriterOk(bucket', node', k', t, w)
  {
    PassedKept(bucket, node, k, node', k', BucketOf(PutEntry(t, w.key)), w.i, w.key);
  }

  lemma PartitionsApart(t: ClientId, u: ClientId, x: nat, y: nat)
    requires t > 0 && u > 0 && t != u
    ensures BucketOf(PutEntry(t, x)) != BucketOf(PutEntry(u, y))
  {
  }

  // ----- the steps

  lemma PutKeeps(st: State, t: ClientId, key: nat, val: nat, block: Addr)
    requires Inv(st) && Enabled(st, Put(t, key, val, block))
    ensures Inv(Apply(st, Put(t, key, val, block)))
  {
    var st' := Apply(st, Put(t, key, val, block));
    forall u | u in st'.writer ensures WriterOk(st'.bucket, st'.node, st'.book, u, st'.writer[u]) {
      if u != t {
        assert WriterOk(st.bucket, st.node, st.book, u, st.writer[u]);
      }
    }
    forall r | r in st'.reader ensures ReaderOk(st'.bucket, st'.node, st'.book, st'.reader[r]) {
      assert ReaderOk(st.bucket, st.node, st.book, st.reader[r]);
    }
  }

  /** A step of writer t that only adds leaves the other clients where they are. */
  lemma OthersKept(st: State, st': State, t: ClientId, w: Writer)
    requires Inv(st) && IndexOk(st'.bucket, st'.node, st'.book) && Grows(st.node, st.book, st'.node, st'.book)
    requires st'.reader == st.reader && t in st.writer && st'.writer == st.writer[t := w]
    requires WriterOk(st'.bucket, st'.node, st'.book, t, w)
    requires w.Resting? || (!st.writer[t].Resting? && w.block == st.writer[t].block)
    requires forall u | u in st.writer && u != t && !st.writer[u].Resting? :: Undisturbed(st, st', u, st.writer[u])
    ensures Inv(st')
  {
    forall u | u in st'.writer ensures WriterOk(st'.bucket, st'.node, st'.book, u, st'.writer[u]) {
      if u != t && !st.writer[u].Resting? {
        assert WriterOk(st.bucket, st.node, st.book, u, st.writer[u]);
        assert Undisturbed(st, st', u, st.writer[u]);
        WriterKept(st.bucket, st.node, st.book, st'.bucket, st'.node, st'.book, u, st.writer[u]);
      }
    }
    forall r | r in st'.reader ensures ReaderOk(st'.bucket, st'.node, st'.book, st'.reader[r]) {
      assert ReaderOk(st.bucket, st.node, st.book, st.reader[r]);
      ReaderKept(st.bucket, st.node, st.book, st'.bucket, st'.node, st'.book, st.reader[r]);
    }
  }

  /** Neither the chain a writer walks nor its block has changed. */
  ghost predicate Undisturbed(st: State, st': State, u: ClientId, w: Writer) {
    !w.Resting? ==>
      && w.block !in st'.book.entry
      && (w.block in st.node ==> w.block in st'.node && st'.node[w.block] == st.node[w.block])
      && u > 0 && BucketOf(PutEntry(u, w.key)) < |st.book.chains| && |st'.book.chains| == |st.book.chains|
      && st'.book.chains[BucketOf(PutEntry(u, w.key))] == st.book.chains[BucketOf(PutEntry(u, w.key))]
  }

  lemma FillKeeps(st: State, t: ClientId)
    requires Inv(st) && Enabled(st, Fill(t))
    ensures Inv(Apply(st, Fill(t)))
  {
    var w := st.writer[t];
    var st' := Apply(st, Fill(t));
    assert WriterOk(st.bucket, st.node, st.book, t, w);
    PrivateOk(st.bucket, st.node, st.book, w.block, Filled(st.node, w));
    forall u | u in st.writer && u != t && !st.writer[u].Resting? ensures Undisturbed(st, st', u, st.writer[u]) {
      assert WriterOk(st.bucket, st.node, st.book, u, st.writer[u]);
    }
    OthersKept(st, st', t, st'.writer[t]);
  }

  lemma LinkKeeps(st: State, t: ClientId)
    requires Inv(st) && Enabled(st, LinkNode(t))
    ensures Inv(Apply(st, LinkNode(t)))
  {
    var w := st.writer[t];
    var e := PutEntry(t, w.key);
    var st' := Apply(st, LinkNode(t));
    assert WriterOk(st.bucket, st.node, st.book, t, w);
    WalkMisses(st.bucket, st.node, st.book, e, w.l);
    AppendOk(st.bucket, st.node, st.book, e, w.l, w.block, w.val);
    forall u | u in st.writer && u != t && !st.writer[u].Resting? ensures Undisturbed(st, st', u, st.writer[u]) {
      assert WriterOk(st.bucket, st.node, st.book, u, st.writer[u]);
      PartitionsApart(t, u, w.key, st.writer[u].key);
      LinkMissesBlock(st, t, st.writer[u].block);
    }
    OthersKept(st, st', t, Resting);
  }

  /** The link written is in a bucket or in a linked node, not in anybody's block. */
  lemma LinkMissesBlock(st: State, t: ClientId, block: Addr)
    requires Inv(st) && t in st.writer && st.writer[t].Filling? && block !in st.book.entry
    ensures block in st.node ==> Relink(st.node, st.writer[t].l, st.writer[t].block)[block] == st.node[block]
  {
    var w := st.writer[t];
    assert WriterOk(st.bucket, st.node, st.book, t, w);
    var b := BucketOf(PutEntry(t, w.key));
    assert BucketOk(st.node, st.book.entry, b, st.bucket[b], st.book.chains[b]);
    if w.i > 0 {
      assert st.book.chains[b][w.i - 1] in st.book.chains[b];
    }
  }

  lemma LookKeeps(st: State, t: ClientId)
    requires Inv(st) && Enabled(st, Look(t))
    ensures Inv(Apply(st, Look(t)))
  {
    var w := st.writer[t];
    var st' := DoLook(st, t, w);
    assert WriterOk(st.bucket, st.node, st.book, t, w);
    var e := PutEntry(t, w.key);
    var a := Deref(st.bucket, st.node, w.l);
    WalkFinds(st.bucket, st.node, st.book, BucketOf(e), w.i, w.l, w.key);
    if a != 0 {
      WalkHits(st.bucket, st.node, st.book, e, w.i);
      if st.node[a].key == w.key {
        NewValueOk(st.bucket, st.node, st.book, a, w.val);
      }
    }
    forall u | u in st.writer && u != t && !st.writer[u].Resting? ensures Undisturbed(st, st', u, st.writer[u]) {
      assert WriterOk(st.bucket, st.node, st.book, u, st.writer[u]);
    }
    OthersKept(st, st', t, st'.writer[t]);
  }

  lemma ReaderKeeps(st: State, r: nat, u: Reader)
    requires Inv(st) && ReaderOk(st.bucket, st.node, st.book, u)
    ensures Inv(st.(reader := st.reader[r := u]))
  {
    var st' := st.(reader := st.reader[r := u]);
    forall t | t in st'.writer ensures WriterOk(st'.bucket, st'.node, st'.book, t, st'.writer[t]) {
      assert WriterOk(st.bucket, st.node, st.book, t, st.writer[t]);
    }
    forall q | q in st'.reader ensures ReaderOk(st'.bucket, st'.node, st'.book, st'.reader[q]) {
      if q != r {
        assert ReaderOk(st.bucket, st.node, st.book, st.reader[q]);
      }
    }
  }

  lemma ReadLinkOk(st: State, r: nat)
    requires Inv(st) && Enabled(st, ReadLink(r))
    ensures var u := st.reader[r];
            var a := Deref(st.bucket, st.node, u.l);
            && Sound(st, a)
            && ReaderOk(st.bucket, st.node, st.book, if a == 0 then Idle(None) else AtNode(u.key, a, u.i))
            && (a == 0 ==> GetEntry(u.key) !in st.book.model)
  {
    var u := st.reader[r];
    assert ReaderOk(st.bucket, st.node, st.book, u);
    var e := GetEntry(u.key);
    WalkFinds(st.bucket, st.node, st.book, BucketOf(e), u.i, u.l, u.key);
    if Deref(st.bucket, st.node, u.l) == 0 {
      WalkMisses(st.bucket, st.node, st.book, e, u.l);
    } else {
      WalkHits(st.bucket, st.node, st.book, e, u.i);
    }
  }

  lemma ReadKeyOk(st: State, r: nat)
    requires Inv(st) && Enabled(st, ReadKey(r))
    ensures var u := st.reader[r];
            ReaderOk(st.bucket, st.node, st.book,
                     if st.node[u.a].key == u.key then Hit(u.key, u.a) else AtLink(u.key, After(u.a), u.i + 1))
  {
    var u := st.reader[r];
    assert ReaderOk(st.bucket, st.node, st.book, u);
    WalkHits(st.bucket, st.node, st.book, GetEntry(u.key), u.i);
  }

  lemma StartOk(st: State, key: nat)
    requires Inv(st) && key / TOP_BYTE < PARTITIONS
    ensures ReaderOk(st.bucket, st.node, st.book, AtLink(key, Head(BucketOf(GetEntry(key))), 0))
  {
  }

  lemma StepKeeps(st: State, s: Step)
    requires Inv(st) && Enabled(st, s)
    ensures Inv(Apply(st, s))
  {
    match s
    case Put(t, key, val, block) => PutKeeps(st, t, key, val, block);
    case Look(t) => LookKeeps(st, t);
    case Fill(t) => FillKeeps(st, t);
    case LinkNode(t) => LinkKeeps(st, t);
    case Get(r, key) =>
      StartOk(st, key);
      ReaderKeeps(st, r, AtLink(key, Head(BucketOf(GetEntry(key))), 0));
    case ReadLink(r) =>
      ReadLinkOk(st, r);
      ReaderKeeps(st, r, Apply(st, s).reader[r]);
    case ReadKey(r) =>
      ReadKeyOk(st, r);
      ReaderKeeps(st, r, Apply(st, s).reader[r]);
    case ReadVal(r) => ReaderKeeps(st, r, Apply(st, s).reader[r]);
  }

  // ----- runs

  /** An empty index, nobody active. Memory outside the index may hold anything. */
  ghost predicate Init(st: State) {
    && IndexOk(st.bucket, st.node, st.book) && st.book.model == map[] && st.book.entry == map[]
    && (forall t | t in st.writer :: st.writer[t].Resting?) && (forall r | r in st.reader :: st.reader[r].Idle?)
  }

  ghost predicate Run(states: seq<State>, steps: seq<Step>) {
    && |states| == |steps| + 1 && Init(states[0])
    && forall i | 0 <= i < |steps| :: Enabled(states[i], steps[i]) && states[i + 1] == Apply(states[i], steps[i])
  }

  lemma {:induction false} RunInv(states: seq<State>, steps: seq<Step>, i: nat)
    requires Run(states, steps) && i < |states|
    ensures Inv(states[i])
  {
    if i == 0 {
      InitInv(states[0]);
    } else {
      RunInv(states, steps, i - 1);
      StepKeeps(states[i - 1], steps[i - 1]);
    }
  }

  lemma InitInv(st: State)
    requires Init(st)
    ensures Inv(st)
  {
  }

  /** What the map says about a key. */
  function Answer(model: map<Entry, nat>, key: nat): Option<nat> {
    if GetEntry(key) in model then Some(model[GetEntry(key)]) else None
  }

  predicate InGet(st: State, r: nat) {
    r in st.reader && !st.reader[r].Idle?
  }

  /** Main theorem: each `get` answers from the map of one moment. Whichever step takes a client
      out of `get`, the answer it leaves is what the map said about its key at that step. */
  lemma GetIsAtomic(states: seq<State>, steps: seq<Step>, i: nat, r: nat)
    requires Run(states, steps) && i < |steps| && InGet(states[i], r)
    ensures r in states[i + 1].reader
    ensures states[i + 1].reader[r].Idle? ==>
              states[i + 1].reader[r].answer == Answer(states[i].book.model, states[i].reader[r].key)
  {
    RunInv(states, steps, i);
    StepAnswers(states[i], steps[i], r);
  }

  /** One step of anybody: a client in `get` returns with the answer, or goes on with its key. */
  lemma StepAnswers(st: State, s: Step, r: nat)
    requires Inv(st) && Enabled(st, s) && InGet(st, r)
    ensures var st' := Apply(st, s);
            && r in st'.reader
            && if st'.reader[r].Idle? then st'.reader[r].answer == Answer(st.book.model, st.reader[r].key)
               else st'.reader[r].key == st.reader[r].key
  {
    if s == ReadLink(r) {
      ReadLinkOk(st, r);
    } else if s == ReadVal(r) {
      assert ReaderOk(st.bucket, st.node, st.book, st.reader[r]);
      assert NodeOk(st.node, st.book, st.reader[r].a);
    }
  }

  /** Until the step in which it returns, a client stays in `get` with the same key. */
  lemma {:induction false} StaysInGet(states: seq<State>, steps: seq<Step>, i: nat, k: nat, r: nat)
    requires Run(states, steps) && i <= k < |states| && InGet(states[i], r)
    requires forall j | i < j <= k :: InGet(states[j], r)
    ensures InGet(states[k], r) && states[k].reader[r].key == states[i].reader[r].key
    decreases k
  {
    if i < k {
      StaysInGet(states, steps, i, k - 1, r);
      assert i < k - 1 ==> InGet(states[k - 1], r);
      RunInv(states, steps, k - 1);
      StepAnswers(states[k - 1], steps[k - 1], r);
    }
  }

  /** No walk, of a reader or of a writer, meets a block that is not a fully written node:
      the guards of their steps hold whenever it is their turn. */
  lemma NothingUninitialised(states: seq<State>, steps: seq<Step>, i: nat, r: nat, t: ClientId)
    requires Run(states, steps) && i < |states|
    ensures r in states[i].reader && states[i].reader[r].AtLink?
            ==> Sound(states[i], Deref(states[i].bucket, states[i].node, states[i].reader[r].l))
    ensures r in states[i].reader && states[i].reader[r].AtNode? ==>
              Enabled(states[i], ReadKey(r)) && NodeOk(states[i].node, states[i].book, states[i].reader[r].a)
    ensures t in states[i].writer && states[i].writer[t].Looking? ==> Enabled(states[i], Look(t))
  {
    RunInv(states, steps, i);
    var st := states[i];
    if r in st.reader {
      ReaderSound(st, r);
    }
    if t in st.writer && st.writer[t].Looking? {
      WriterSound(st, t);
    }
  }

  lemma ReaderSound(st: State, r: nat)
    requires Inv(st) && r in st.reader
    ensures st.reader[r].AtLink? ==> Sound(st, Deref(st.bucket, st.node, st.reader[r].l))
    ensures st.reader[r].AtNode? ==> st.reader[r].a in st.node && NodeOk(st.node, st.book, st.reader[r].a)
  {
    var u := st.reader[r];
    if u.AtLink? {
      ReadLinkOk(st, r);
    } else if u.AtNode? {
      assert ReaderOk(st.bucket, st.node, st.book, u);
      WalkHits(st.bucket, st.node, st.book, GetEntry(u.key), u.i);
      assert NodeOk(st.node, st.book, u.a) by {
        assert st.book.entry[u.a] == st.book.entry[u.a];
      }
    }
  }

  lemma WriterSound(st: State, t: ClientId)
    requires Inv(st) && t in st.writer && st.writer[t].Looking?
    ensures Sound(st, Deref(st.bucket, st.node, st.writer[t].l))
  {
    var w := st.writer[t];
    assert WriterOk(st.bucket, st.node, st.book, t, w);
    WalkFinds(st.bucket, st.node, st.book, BucketOf(PutEntry(t, w.key)), w.i, w.l, w.key);
    if Deref(st.bucket, st.node, w.l) != 0 {
      WalkHits(st.bucket, st.node, st.book, PutEntry(t, w.key), w.i);
    }
  }

  /** The client is in `put` before the step and out of it after. */
  predicate Returns(st: State, st': State, t: ClientId) {
    t in st.writer && t in st'.writer && !st.writer[t].Resting? && st'.writer[t].Resting?
  }

  /** A `put` takes effect in the step in which it returns: this step sets its entry and
      nothing else, and only such a step changes the map. */
  lemma PutIsAtomic(states: seq<State>, steps: seq<Step>, i: nat, t: ClientId)
    requires Run(states, steps) && i < |steps|
    ensures Returns(states[i], states[i + 1], t) ==>
              t > 0 && states[i + 1].book.model
                       == states[i].book.model[PutEntry(t, states[i].writer[t].key) := states[i].writer[t].val]
    ensures states[i + 1].book.model != states[i].book.model ==>
              (steps[i].Look? || steps[i].LinkNode?) && Returns(states[i], states[i + 1], steps[i].t)
  {
    RunInv(states, steps, i);
    StepSets(states[i], steps[i], t);
  }

  lemma StepSets(st: State, s: Step, t: ClientId)
    requires Inv(st) && Enabled(st, s)
    ensures Returns(st, Apply(st, s), t) ==>
              t > 0 && Apply(st, s).book.model
                       == st.book.model[PutEntry(t, st.writer[t].key) := st.writer[t].val]
    ensures Apply(st, s).book.model != st.book.model ==>
              (s.Look? || s.LinkNode?) && Returns(st, Apply(st, s), s.t)
  {
    if s.Look? {
      LookSets(st, s.t);
    }
  }

  lemma LookSets(st: State, t: ClientId)
    requires Inv(st) && Enabled(st, Look(t))
    ensures var st' := Apply(st, Look(t));
            && t > 0
            && st'.book.model == if st'.writer[t].Resting?
                                 then st.book.model[PutEntry(t, st.writer[t].key) := st.writer[t].val]
                                 else st.book.model
  {
    var w := st.writer[t];
    assert WriterOk(st.bucket, st.node, st.book, t, w);
    WalkFinds(st.bucket, st.node, st.book, BucketOf(PutEntry(t, w.key)), w.i, w.l, w.key);
    if Deref(st.bucket, st.node, w.l) != 0 {
      WalkHits(st.bucket, st.node, st.book, PutEntry(t, w.key), w.i);
    }
  }

  /** A client in `put` returns, or goes on with the same key and value. */
  predicate GoesOn(st: State, st': State, t: ClientId) {
    t in st.writer && !st.writer[t].Resting? ==>
      && t in st'.writer
      && (Returns(st, st', t)
          || (!st'.writer[t].Resting?
              && st'.writer[t].key == st.writer[t].key && st'.writer[t].val == st.writer[t].val))
  }

  predicate BusyStep(states: seq<State>, n: nat, t: ClientId)
    requires n + 1 < |states|
  {
    GoesOn(states[n], states[n + 1], t) && !Returns(states[n], states[n + 1], t)
  }

  lemma {:induction false} StaysBusy(states: seq<State>, i: nat, k: nat, t: ClientId)
    requires i <= k < |states| && t in states[i].writer && !states[i].writer[t].Resting?
    requires forall j | i <= j < k :: BusyStep(states, j, t)
    ensures t in states[k].writer && !states[k].writer[t].Resting?
    ensures states[k].writer[t].key == states[i].writer[t].key && states[k].writer[t].val == states[i].writer[t].val
    decreases k
  {
    if i < k {
      StaysBusy(states, i, k - 1, t);
      assert BusyStep(states, k - 1, t);
    }
  }

  /** So each `put` changes the map exactly once: until the step in which it returns, it stays
      in `put` with the same key and value. */
  lemma StaysInPut(states: seq<State>, steps: seq<Step>, i: nat, k: nat, t: ClientId)
    requires Run(states, steps) && i <= k < |states|
    requires t in states[i].writer && !states[i].writer[t].Resting?
    requires forall j | i <= j < k :: !Returns(states[j], states[j + 1], t)
    ensures t in states[k].writer && !states[k].writer[t].Resting?
    ensures states[k].writer[t].key == states[i].writer[t].key && states[k].writer[t].val == states[i].writer[t].val
  {
    forall j | i <= j < k ensures BusyStep(states, j, t) {
      RunWriter(states, steps, j, t);
    }
    StaysBusy(states, i, k, t);
  }

  lemma RunWriter(states: seq<State>, steps: seq<Step>, n: nat, t: ClientId)
    requires Run(states, steps) && n < |steps|
    ensures GoesOn(states[n], states[n + 1], t)
  {
    if t in states[n].writer && !states[n].writer[t].Resting? {
      WriterStays(states[n], steps[n], t);
    }
  }

  lemma WriterStays(st: State, s: Step, t: ClientId)
    requires Enabled(st, s) && t in st.writer && !st.writer[t].Resting?
    ensures t in Apply(st, s).writer
    ensures var w := Apply(st, s).writer[t];
            w.Resting? || (w.key == st.writer[t].key && w.val == st.writer[t].val)
  {
  }

  // ----- every operation comes to its end

  /** These steps, one after the other. */
  ghost predicate Plays(states: seq<State>, steps: seq<Step>) {
    && |states| == |steps| + 1
    && forall i | 0 <= i < |steps| :: Enabled(states[i], steps[i]) && states[i + 1] == Apply(states[i], steps[i])
  }

  lemma PlaysFirst(st: State, s: Step, states: seq<State>, steps: seq<Step>)
    requires Enabled(st, s) && Plays(states, steps) && states[0] == Apply(st, s)
    ensures Plays([st] + states, [s] + steps)
  {
  }

  function Last(states: seq<State>): State
    requires |states| > 0
  {
    states[|states| - 1]
  }

  function NextOfReader(st: State, r: nat): Step
    requires InGet(st, r)
  {
    match st.reader[r]
    case AtLink(_, _, _) => ReadLink(r)
    case AtNode(_, _, _) => ReadKey(r)
    case Hit(_, _) => ReadVal(r)
  }

  /** Accesses a client in `get` has still to make, if its chain does not grow. */
  function ReadsLeft(k: Book, u: Reader): int
    requires !u.Idle? ==> BucketOf(GetEntry(u.key)) < |k.chains|
  {
    match u
    case Idle(_) => 0
    case AtLink(key, _, i) => 3 * (|k.chains[BucketOf(GetEntry(key))]| - i) + 2
    case AtNode(key, _, i) => 3 * (|k.chains[BucketOf(GetEntry(key))]| - i) + 1
    case Hit(_, _) => 1
  }

  /** A client in `get` is never stuck, and its every step brings the answer closer. */
  lemma ReaderAdvances(st: State, r: nat)
    requires Inv(st) && InGet(st, r)
    ensures var s, u := NextOfReader(st, r), st.reader[r];
            && BucketOf(GetEntry(u.key)) < |st.book.chains| && Enabled(st, s)
            && var st' := Apply(st, s);
               && r in st'.reader && st' == st.(reader := st.reader[r := st'.reader[r]])
               && (!st'.reader[r].Idle? ==> st'.reader[r].key == u.key)
               && 0 <= ReadsLeft(st.book, st'.reader[r]) < ReadsLeft(st.book, u)
  {
    var u := st.reader[r];
    assert ReaderOk(st.bucket, st.node, st.book, u);
    if u.AtLink? {
      WalkFinds(st.bucket, st.node, st.book, BucketOf(GetEntry(u.key)), u.i, u.l, u.key);
    } else if u.AtNode? {
      ReaderSound(st, r);
      ReadKeyOk(st, r);
    } else {
      assert NodeOk(st.node, st.book, u.a);
    }
  }

  /** Left alone, a `get` returns what the map says about its key, and changes nothing else. */
  lemma {:induction false} GetFinishes(st: State, r: nat) returns (states: seq<State>, steps: seq<Step>)
    requires Inv(st) && InGet(st, r) && BucketOf(GetEntry(st.reader[r].key)) < |st.book.chains|
    ensures Plays(states, steps) && states[0] == st
    ensures Last(states) == st.(reader := st.reader[r := Idle(Answer(st.book.model, st.reader[r].key))])
    decreases ReadsLeft(st.book, st.reader[r])
  {
    ReaderAdvances(st, r);
    var s := NextOfReader(st, r);
    var st' := Apply(st, s);
    StepAnswers(st, s, r);
    if st'.reader[r].Idle? {
      states, steps := [st'], [];
    } else {
      StepKeeps(st, s);
      states, steps := GetFinishes(st', r);
      assert st'.reader[r := Last(states).reader[r]] == st.reader[r := Last(states).reader[r]];
    }
    PlaysFirst(st, s, states, steps);
    states, steps := [st] + states, [s] + steps;
  }

  predicate InPut(st: State, t: ClientId) {
    t in st.writer && !st.writer[t].Resting?
  }

  function NextOfWriter(st: State, t: ClientId): Step
    requires InPut(st, t)
  {
    match st.writer[t]
    case Looking(_, _, _, _, _) => Look(t)
    case Filling(_, _, _, _, _, words) => if words < 3 then Fill(t) else LinkNode(t)
  }

  function WritesLeft(k: Book, t: ClientId, w: Writer): int
    requires !w.Resting? ==> t > 0 && BucketOf(PutEntry(t, w.key)) < |k.chains|
  {
    match w
    case Resting => 0
    case Looking(key, _, _, _, i) => |k.chains[BucketOf(PutEntry(t, key))]| - i + 5
    case Filling(_, _, _, _, _, words) => 4 - words
  }

  /** A client in `put` is never stuck, and its every step brings the end closer; nobody else
      lengthens its chain. */
  lemma WriterAdvances(st: State, t: ClientId)
    requires Inv(st) && InPut(st, t)
    ensures var s, w := NextOfWriter(st, t), st.writer[t];
            && t > 0 && BucketOf(PutEntry(t, w.key)) < |st.book.chains| && Enabled(st, s)
            && var st' := Apply(st, s);
               && t in st'.writer && |st'.book.chains| == |st.book.chains| && st'.reader == st.reader
               && (!st'.writer[t].Resting? ==>
                     && st'.writer[t].key == w.key && st'.writer[t].val == w.val && st'.book == st.book
                     && 0 <= WritesLeft(st.book, t, st'.writer[t]) < WritesLeft(st.book, t, w))
  {
    var w := st.writer[t];
    assert WriterOk(st.bucket, st.node, st.book, t, w);
    if w.Looking? {
      WalkFinds(st.bucket, st.node, st.book, BucketOf(PutEntry(t, w.key)), w.i, w.l, w.key);
      WriterSound(st, t);
    }
  }

  /** Left alone, a `put` returns having set its entry in the map, and nothing else in it. */
  lemma {:induction false} PutFinishes(st: State, t: ClientId) returns (states: seq<State>, steps: seq<Step>)
    requires Inv(st) && InPut(st, t) && t > 0 && BucketOf(PutEntry(t, st.writer[t].key)) < |st.book.chains|
    ensures Plays(states, steps) && states[0] == st
    ensures var st' := Last(states);
            && t in st'.writer && st'.writer[t].Resting? && st'.reader == st.reader
            && st'.book.model == st.book.model[PutEntry(t, st.writer[t].key) := st.writer[t].val]
    decreases WritesLeft(st.book, t, st.writer[t])
  {
    WriterAdvances(st, t);
    var s := NextOfWriter(st, t);
    var st' := Apply(st, s);
    StepSets(st, s, t);
    if st'.writer[t].Resting? {
      states, steps := [st'], [];
    } else {
      StepKeeps(st, s);
      states, steps := PutFinishes(st', t);
    }
    PlaysFirst(st, s, states, steps);
    states, steps := [st] + states, [s] + steps;
  }

  /** A whole `get`, left alone, from any state of the index. */
  lemma GetAlone(st: State, r: nat, key: nat) returns (states: seq<State>, steps: seq<Step>)
    requires Inv(st) && Enabled(st, Get(r, key))
    ensures Plays(states, steps) && states[0] == st && steps != [] && steps[0] == Get(r, key)
    ensures Last(states) == st.(reader := st.reader[r := Idle(Answer(st.book.model, key))])
  {
    var st' := Apply(st, Get(r, key));
    StepKeeps(st, Get(r, key));
    ReaderAdvances(st', r);
    states, steps := GetFinishes(st', r);
    assert st'.reader[r := Last(states).reader[r]] == st.reader[r := Last(states).reader[r]];
    PlaysFirst(st, Get(r, key), states, steps);
    states, steps := [st] + states, [Get(r, key)] + steps;
  }

  /** A whole `put`, left alone. */
  lemma PutAlone(st: State, t: ClientId, key: nat, val: nat, block: Addr) returns (states: seq<State>, steps: seq<Step>)
    requires Inv(st) && Enabled(st, Put(t, key, val, block))
    ensures Plays(states, steps) && states[0] == st && steps != [] && steps[0] == Put(t, key, val, block)
    ensures var st' := Last(states);
            && t in st'.writer && st'.writer[t].Resting? && st'.reader == st.reader
            && st'.book.model == st.book.model[PutEntry(t, key) := val]
  {
    var st' := Apply(st, Put(t, key, val, block));
    StepKeeps(st, Put(t, key, val, block));
    WriterAdvances(st', t);
    states, steps := PutFinishes(st', t);
    PlaysFirst(st, Put(t, key, val, block), states, steps);
    states, steps := [st] + states, [Put(t, key, val, block)] + steps;
  }
}
