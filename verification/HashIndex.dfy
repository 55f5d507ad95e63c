/** The hash index: one partition of buckets for each writer, each bucket a chain of nodes. */
module HashIndex {
  import opened Common
  import opened Addresses

  type Addr = nat

  const BUCKETS: nat := 0x2_0000 // 2^17 buckets in a partition
  const PARTITIONS: nat := 64    // as many as fit before the segments
  const TOP_BYTE: nat := 0x100_0000_0000_0000 // 2^56

  /** A key with the partition it was put in. */
  datatype Entry = Entry(part: nat, key: nat)

  /** The bucket: `key & ((1 << 17) - 1)` within the partition. */
  function BucketOf(e: Entry): nat {
    e.part * BUCKETS + e.key % BUCKETS
  }

  /** Where `put` of client t writes a key. */
  function PutEntry(t: ClientId, key: nat): Entry
    requires t > 0
  {
    Entry(t - 1, key)
  }

  /** Where `get` looks for a key: the top byte names the partition. */
  function GetEntry(key: nat): Entry {
    Entry(key / TOP_BYTE, key)
  }

  const HASH_TABLE_START: nat := 0x400_0000 // 2^26
  const HASH_TABLE_SIZE: nat := 0x10_0000   // 2^20 bytes of each partition

  /** The address of a bucket. */
  function BucketAddress(e: Entry): nat {
    HASH_TABLE_START + e.part * HASH_TABLE_SIZE + 8 * (e.key % BUCKETS)
  }

  /** Different buckets lie apart, and a bucket lies before the segments if and only if its
      partition is one of the first 64: `put` needs an id up to 64, `get` a top byte below 64. */
  lemma BucketsApart(e: Entry, f: Entry)
    ensures BucketOf(e) < BucketOf(f) ==> BucketAddress(e) + 8 <= BucketAddress(f)
    ensures BucketAddress(e) + 8 <= SEGMENTS_AREA_START <==> e.part < PARTITIONS
    ensures BucketAddress(e) < SEGMENTS_AREA_START <==> e.part < PARTITIONS
  {
    if e.part < f.part {
      assert (e.part + 1) * HASH_TABLE_SIZE <= f.part * HASH_TABLE_SIZE;
    }
    if e.part < PARTITIONS {
      assert e.part * HASH_TABLE_SIZE <= (PARTITIONS - 1) * HASH_TABLE_SIZE;
    } else {
      assert e.part * HASH_TABLE_SIZE >= PARTITIONS * HASH_TABLE_SIZE;
    }
  }

  /** The payload of a node: key, value, link. */
  datatype Node = Node(key: nat, val: nat, next: Addr)

  type Nodes = map<Addr, Node>

  /** The links from `head` run through exactly this list, without repetition. */
  ghost predicate Chain(node: Nodes, head: Addr, list: seq<Addr>)
    decreases list
  {
    if list == [] then head == 0
    else head == list[0] && head != 0 && head in node && head !in list[1..] && Chain(node, node[head].next, list[1..])
  }

  /** The book of the proofs: the entry each node stands for, the node of each entry, and
      the map that the index represents. */
  datatype Book = Book(entry: map<Addr, Entry>, at: map<Entry, Addr>, model: map<Entry, nat>, chains: seq<seq<Addr>>)

  /** The chain of a bucket holds exactly the nodes of its entries. */
  ghost predicate BucketOk(node: Nodes, entry: map<Addr, Entry>, b: nat, head: Addr, list: seq<Addr>) {
    && Chain(node, head, list)
    && forall a :: a in list <==> a in entry && BucketOf(entry[a]) == b
  }

  /** One linked node for each entry, with the key and the value of the map. Blocks not yet
      linked are no concern of the index. */
  ghost predicate NodesOk(node: Nodes, k: Book) {
    && k.at.Keys == k.model.Keys
    && (forall a {:trigger k.entry[a]} | a in k.entry :: NodeOk(node, k, a))
    && (forall e {:trigger k.at[e]} | e in k.at :: k.at[e] in k.entry && k.entry[k.at[e]] == e)
  }

  ghost predicate NodeOk(node: Nodes, k: Book, a: Addr) {
    && a in node && a in k.entry && k.entry[a] in k.at && k.entry[a] in k.model && k.at[k.entry[a]] == a
    && node[a].key == k.entry[a].key && node[a].val == k.model[k.entry[a]]
  }

  ghost predicate IndexOk(bucket: seq<Addr>, node: Nodes, k: Book) {
    && |bucket| == |k.chains| == PARTITIONS * BUCKETS
    && (forall b: nat {:trigger BucketOk(node, k.entry, b, bucket[b], k.chains[b])} | b < |bucket| ::
          BucketOk(node, k.entry, b, bucket[b], k.chains[b]))
    && NodesOk(node, k)
  }

  // ----- walking a chain

  /** The link slot after the first i nodes of a chain. */
  datatype Link = Head(b: nat) | After(a: Addr)

  function Deref(bucket: seq<Addr>, node: Nodes, l: Link): Addr {
    match l
    case Head(b) => if b < |bucket| then bucket[b] else 0
    case After(a) => if a in node then node[a].next else 0
  }

  /** The walk has passed i nodes of the chain, none of them with this key. */
  ghost predicate Walked(node: Nodes, list: seq<Addr>, b: nat, i: nat, l: Link, key: nat) {
    Passed(node, list, i, key) && l == (if i == 0 then Head(b) else After(list[i - 1]))
  }

  ghost predicate Passed(node: Nodes, list: seq<Addr>, i: nat, key: nat) {
    i <= |list| && forall j | 0 <= j < i :: list[j] in node && node[list[j]].key != key
  }

  lemma {:induction false} ChainAt(node: Nodes, head: Addr, list: seq<Addr>, i: nat)
    requires Chain(node, head, list) && i <= |list|
    ensures i < |list| ==> list[i] != 0 && list[i] in node && list[i] !in list[..i]
    ensures i > 0 ==> list[i - 1] in node && node[list[i - 1]].next == if i < |list| then list[i] else 0
    ensures i == 0 ==> head == if i < |list| then list[i] else 0
    decreases list
  {
    if i > 0 {
      ChainAt(node, node[head].next, list[1..], i - 1);
      assert list[..i] == [list[0]] + list[1..][..i - 1];
    }
  }

  /** What the walk finds at its link: the next node of the chain, or its end. */
  lemma WalkFinds(bucket: seq<Addr>, node: Nodes, k: Book, b: nat, i: nat, l: Link, key: nat)
    requires IndexOk(bucket, node, k) && b < |bucket| && Walked(node, k.chains[b], b, i, l, key)
    ensures Deref(bucket, node, l) == if i < |k.chains[b]| then k.chains[b][i] else 0
    ensures i < |k.chains[b]| ==> k.chains[b][i] != 0 && k.chains[b][i] in node
  {
    assert BucketOk(node, k.entry, b, bucket[b], k.chains[b]);
    ChainAt(node, bucket[b], k.chains[b], i);
  }

  /** The walk stops at a node with the key exactly when that node is the entry's. */
  lemma WalkHits(bucket: seq<Addr>, node: Nodes, k: Book, e: Entry, i: nat)
    requires IndexOk(bucket, node, k) && BucketOf(e) < |bucket| && e.part < PARTITIONS && i < |k.chains[BucketOf(e)]|
    ensures var a := k.chains[BucketOf(e)][i];
            a in node && a in k.entry && (node[a].key == e.key ==> k.entry[a] == e && NodeOk(node, k, a))
  {
    var b := BucketOf(e);
    assert BucketOk(node, k.entry, b, bucket[b], k.chains[b]);
    var a := k.chains[b][i];
    assert a in k.chains[b];
    assert NodeOk(node, k, a) by {
      assert k.entry[a] == k.entry[a];
    }
  }

  lemma EntryInChain(bucket: seq<Addr>, node: Nodes, k: Book, e: Entry)
    requires IndexOk(bucket, node, k) && BucketOf(e) < |bucket| && e in k.model
    ensures k.at[e] in k.chains[BucketOf(e)] && k.at[e] in node && node[k.at[e]].key == e.key
  {
    var b := BucketOf(e);
    assert BucketOk(node, k.entry, b, bucket[b], k.chains[b]);
    assert k.entry[k.at[e]] == e;
  }

  /** A walk that has passed the whole chain shows that the entry is not there. */
  lemma WalkMisses(bucket: seq<Addr>, node: Nodes, k: Book, e: Entry, l: Link)
    requires IndexOk(bucket, node, k) && BucketOf(e) < |bucket|
    requires Walked(node, k.chains[BucketOf(e)], BucketOf(e), |k.chains[BucketOf(e)]|, l, e.key)
    ensures e !in k.model
  {
    if e in k.model {
      EntryInChain(bucket, node, k, e);
      assert false;
    }
  }

  /** Writing a block that is not linked changes nothing. */
  lemma PrivateOk(bucket: seq<Addr>, node: Nodes, k: Book, a: Addr, n: Node)
    requires IndexOk(bucket, node, k) && a !in k.entry
    ensures IndexOk(bucket, node[a := n], k)
    ensures forall l: Link, b: nat, i: nat, key: nat | b < |bucket| && Walked(node, k.chains[b], b, i, l, key) ::
              Walked(node[a := n], k.chains[b], b, i, l, key)
  {
    forall b: nat | b < |bucket| ensures BucketOk(node[a := n], k.entry, b, bucket[b], k.chains[b]) {
      assert BucketOk(node, k.entry, b, bucket[b], k.chains[b]);
      ChainFrame(node, node[a := n], bucket[b], k.chains[b]);
    }
    forall x | x in k.entry ensures NodeOk(node[a := n], k, x) {
      assert k.entry[x] == k.entry[x];
      assert NodeOk(node, k, x);
    }
    forall l: Link, b: nat, i: nat, key: nat | b < |bucket| && Walked(node, k.chains[b], b, i, l, key)
      ensures Walked(node[a := n], k.chains[b], b, i, l, key)
    {
      assert BucketOk(node, k.entry, b, bucket[b], k.chains[b]);
      forall j | 0 <= j < i ensures k.chains[b][j] != a {
        assert k.chains[b][j] in k.chains[b];
      }
    }
  }

  // ----- the two things a writer does

  lemma {:induction false} ChainFrame(node: Nodes, node': Nodes, head: Addr, list: seq<Addr>)
    requires Chain(node, head, list)
    requires forall a | a in list && a in node :: a in node' && node'[a].next == node[a].next
    ensures Chain(node', head, list)
    decreases list
  {
    if list != [] {
      ChainFrame(node, node', node[head].next, list[1..]);
    }
  }

  /** Overwriting the value of a node. */
  function NewValue(k: Book, a: Addr, val: nat): Book
    requires a in k.entry
  {
    k.(model := k.model[k.entry[a] := val])
  }

  lemma NewValueOk(bucket: seq<Addr>, node: Nodes, k: Book, a: Addr, val: nat)
    requires IndexOk(bucket, node, k) && a in k.entry
    ensures a in node && IndexOk(bucket, node[a := node[a].(val := val)], NewValue(k, a, val))
  {
    assert NodeOk(node, k, a) by {
      assert k.entry[a] == k.entry[a];
    }
    var node' := node[a := node[a].(val := val)];
    var k' := NewValue(k, a, val);
    forall b: nat | b < |bucket| ensures BucketOk(node', k'.entry, b, bucket[b], k'.chains[b]) {
      assert BucketOk(node, k.entry, b, bucket[b], k.chains[b]);
      ChainFrame(node, node', bucket[b], k.chains[b]);
    }
    forall x | x in k.entry ensures NodeOk(node', k', x) {
      assert k.entry[x] == k.entry[x];
      assert NodeOk(node, k, x);
    }
  }

  /** Storing an address in a link slot. */
  function Relink(node: Nodes, l: Link, a: Addr): Nodes {
    if l.After? && l.a in node then node[l.a := node[l.a].(next := a)] else node
  }

  function Rehead(bucket: seq<Addr>, l: Link, a: Addr): seq<Addr> {
    if l.Head? && l.b < |bucket| then bucket[l.b := a] else bucket
  }

  function Extended(k: Book, e: Entry, a: Addr, val: nat): Book
    requires BucketOf(e) < |k.chains|
  {
    Book(k.entry[a := e], k.at[e := a], k.model[e := val], k.chains[BucketOf(e) := k.chains[BucketOf(e)] + [a]])
  }

  lemma {:induction false} ChainAppend(node: Nodes, head: Addr, list: seq<Addr>, a: Addr)
    requires Chain(node, head, list) && a != 0 && a in node && node[a].next == 0 && a !in list
    ensures list == [] ==> Chain(node, a, [a])
    ensures list != [] ==> list[|list| - 1] in node
                           && Chain(Relink(node, After(list[|list| - 1]), a), head, list + [a])
    decreases list
  {
    if list != [] {
      ChainAt(node, head, list, |list|);
      var node' := Relink(node, After(list[|list| - 1]), a);
      if |list| > 1 {
        ChainAppend(node, node[head].next, list[1..], a);
        assert (list + [a])[1..] == list[1..] + [a];
        assert list[1..][|list| - 2] == list[|list| - 1] != head;
      } else {
        assert (list + [a])[1..] == [a];
        assert Chain(node', a, [a]);
      }
    }
  }

  /** A store that does not touch the links of a chain leaves its bucket alone. */
  lemma OtherBucket(node: Nodes, node': Nodes, entry: map<Addr, Entry>, e: Entry, a: Addr, q: nat, head: Addr,
                    list: seq<Addr>)
    requires BucketOk(node, entry, q, head, list) && BucketOf(e) != q && a !in entry
    requires forall x | x in list && x in node :: x in node' && node'[x].next == node[x].next
    ensures BucketOk(node', entry[a := e], q, head, list)
  {
    ChainFrame(node, node', head, list);
  }

  /** Linking an initialised node at the end of its chain. */
  lemma AppendOk(bucket: seq<Addr>, node: Nodes, k: Book, e: Entry, l: Link, a: Addr, val: nat)
    requires IndexOk(bucket, node, k) && BucketOf(e) < |bucket| && e !in k.model
    requires Walked(node, k.chains[BucketOf(e)], BucketOf(e), |k.chains[BucketOf(e)]|, l, e.key)
    requires a != 0 && a !in k.entry && a in node && node[a] == Node(e.key, val, 0)
    ensures IndexOk(Rehead(bucket, l, a), Relink(node, l, a), Extended(k, e, a, val))
  {
    var b := BucketOf(e);
    var list := k.chains[b];
    var node' := Relink(node, l, a);
    var k' := Extended(k, e, a, val);
    assert BucketOk(node, k.entry, b, bucket[b], list);
    ChainAppend(node, bucket[b], list, a);
    forall q: nat | q < |bucket| && q != b ensures BucketOk(node', k'.entry, q, bucket[q], k.chains[q]) {
      assert BucketOk(node, k.entry, q, bucket[q], k.chains[q]);
      if list != [] {
        assert list[|list| - 1] in list;
      }
      OtherBucket(node, node', k.entry, e, a, q, bucket[q], k.chains[q]);
    }
    AppendNodes(node, k, e, l, a, val);
  }

  lemma AppendNodes(node: Nodes, k: Book, e: Entry, l: Link, a: Addr, val: nat)
    requires NodesOk(node, k) && e !in k.model && BucketOf(e) < |k.chains|
    requires a !in k.entry && a in node && node[a].key == e.key && node[a].val == val
    ensures NodesOk(Relink(node, l, a), Extended(k, e, a, val))
  {
    var node' := Relink(node, l, a);
    var k' := Extended(k, e, a, val);
    forall x | x in k'.entry ensures NodeOk(node', k', x) {
      if x != a {
        assert k.entry[x] == k.entry[x];
        assert NodeOk(node, k, x);
      }
    }
    forall x | x in k'.at ensures k'.at[x] in k'.entry && k'.entry[k'.at[x]] == x {
      if x != e {
        assert k.at[x] in k.entry;
      }
    }
  }

  // ----- the index

  class Index {
    const bucket: array<Addr> // the partitions, one after another
    var node: Nodes
    ghost var book: Book

    ghost predicate Valid()
      reads this, bucket
    {
      IndexOk(bucket[..], node, book)
    }

    /** Zeroed memory: every bucket empty. */
    constructor ()
      ensures Valid() && book.model == map[] && book.entry == map[]
    {
      bucket := new Addr[PARTITIONS * BUCKETS](_ => 0);
      node := map[];
      book := Book(map[], map[], map[], seq(PARTITIONS * BUCKETS, _ => []));
    }

    /** `put` by client t, with the block to use if a node is needed. It writes the entry of
        the client's own partition, and no other. */
    method Put(t: ClientId, key: nat, value: nat, block: Addr)
      requires Valid() && 1 <= t <= PARTITIONS && block != 0 && block !in book.entry
      modifies this, bucket
      ensures Valid() && book.model == old(book.model)[PutEntry(t, key) := value]
      ensures book.entry == old(book.entry) || (PutEntry(t, key) !in old(book.model)
              && book.entry == old(book.entry)[block := PutEntry(t, key)])
    {
      ghost var e := PutEntry(t, key);
      ghost var b := BucketOf(e);
      var entry := Head((t - 1) * BUCKETS + key % BUCKETS);
      var data := Deref(bucket[..], node, entry);
      ghost var i := 0;
      while data != 0
        invariant Valid() && book == old(book)
        invariant b < bucket.Length && Walked(node, book.chains[b], b, i, entry, key)
        invariant data == Deref(bucket[..], node, entry)
        decreases |book.chains[b]| - i
      {
        WalkFinds(bucket[..], node, book, b, i, entry, key);
        WalkHits(bucket[..], node, book, e, i);
        if node[data].key == key {
          NewValueOk(bucket[..], node, book, data, value);
          node := node[data := node[data].(val := value)];
          book := NewValue(book, data, value);
          return;
        }
        entry := After(data);
        data := Deref(bucket[..], node, entry);
        i := i + 1;
      }
      WalkFinds(bucket[..], node, book, b, i, entry, key);
      WalkMisses(bucket[..], node, book, e, entry);
      PrivateOk(bucket[..], node, book, block, Node(key, value, 0));
      node := node[block := Node(key, value, 0)];
      AppendOk(bucket[..], node, book, e, entry, block, value);
      ghost var was := bucket[..];
      node := Relink(node, entry, block);
      if entry.Head? {
        bucket[entry.b] := block;
      }
      assert bucket[..] == Rehead(was, entry, block);
      book := Extended(book, e, block, value);
    }

    /** `get`: finds the value put last under the key by the client that its top byte names. */
    method Get(key: nat) returns (found: bool, value: nat)
      requires Valid() && key / TOP_BYTE < PARTITIONS
      ensures found <==> GetEntry(key) in book.model
      ensures found ==> value == book.model[GetEntry(key)]
    {
      ghost var e := GetEntry(key);
      ghost var b := BucketOf(e);
      var entry := Head(key / TOP_BYTE * BUCKETS + key % BUCKETS);
      var data := Deref(bucket[..], node, entry);
      ghost var i := 0;
      while data != 0
        invariant b < bucket.Length && Walked(node, book.chains[b], b, i, entry, key)
        invariant data == Deref(bucket[..], node, entry)
        decreases |book.chains[b]| - i
      {
        WalkFinds(bucket[..], node, book, b, i, entry, key);
        WalkHits(bucket[..], node, book, e, i);
        if node[data].key == key {
          return true, node[data].val;
        }
        entry := After(data);
        data := Deref(bucket[..], node, entry);
        i := i + 1;
      }
      WalkFinds(bucket[..], node, book, b, i, entry, key);
      WalkMisses(bucket[..], node, book, e, entry);
      return false, 0;
    }
  }

  // ----- sequences of puts

  datatype PutOp = PutOp(t: ClientId, key: nat, value: nat)

  /** The map after a sequence of puts. */
  function AfterPuts(model: map<Entry, nat>, ops: seq<PutOp>): map<Entry, nat>
    requires forall i | 0 <= i < |ops| :: ops[i].t > 0
    decreases ops
  {
    if ops == [] then model
    else var op := ops[|ops| - 1]; AfterPuts(model, ops[..|ops| - 1])[PutEntry(op.t, op.key) := op.value]
  }

  /** When every put of the key is made by the client that its top byte names, `get` sees
      the last of them, and nothing when there was none. */
  lemma {:induction false} GetSeesLastPut(ops: seq<PutOp>, key: nat)
    requires forall i | 0 <= i < |ops| :: ops[i].t > 0 && (ops[i].key == key ==> key / TOP_BYTE == ops[i].t - 1)
    ensures GetEntry(key) in AfterPuts(map[], ops) <==> exists i :: 0 <= i < |ops| && ops[i].key == key
    ensures forall i | 0 <= i < |ops| && ops[i].key == key && (forall j | i < j < |ops| :: ops[j].key != key) ::
              GetEntry(key) in AfterPuts(map[], ops) && AfterPuts(map[], ops)[GetEntry(key)] == ops[i].value
    decreases ops
  {
    if ops != [] {
      var n := |ops| - 1;
      GetSeesLastPut(ops[..n], key);
      if ops[n].key != key {
        forall i | 0 <= i < |ops| && ops[i].key == key && (forall j | i < j < |ops| :: ops[j].key != key)
          ensures GetEntry(key) in AfterPuts(map[], ops) && AfterPuts(map[], ops)[GetEntry(key)] == ops[i].value
        {
          assert ops[..n][i].key == key;
        }
      }
    }
  }

  /** Puts into an empty index, and then a `get`, on the index itself: with the keys put by the
      clients that their top bytes name, it finds the value put last, or nothing when there was
      none. */
  method PutsThenGet(index: Index, ops: seq<PutOp>, blocks: seq<Addr>, key: nat) returns (found: bool, value: nat)
    requires index.Valid() && index.book.model == map[] && index.book.entry == map[]
    requires forall i | 0 <= i < |ops| ::
               1 <= ops[i].t <= PARTITIONS && (ops[i].key == key ==> key / TOP_BYTE == ops[i].t - 1)
    requires key / TOP_BYTE < PARTITIONS
    requires |blocks| == |ops| && 0 !in blocks && forall i, k | 0 <= i < k < |blocks| :: blocks[i] != blocks[k]
    modifies index, index.bucket
    ensures index.Valid() && index.book.model == AfterPuts(map[], ops)
    ensures found <==> exists i :: 0 <= i < |ops| && ops[i].key == key
    ensures forall i | 0 <= i < |ops| && ops[i].key == key && (forall j | i < j < |ops| :: ops[j].key != key) ::
              found && value == ops[i].value
  {
    var n := 0;
    while n < |ops|
      invariant n <= |ops| && index.Valid() && index.book.model == AfterPuts(map[], ops[..n])
      invariant forall a | a in index.book.entry :: a in blocks[..n]
    {
      assert blocks[n] !in blocks[..n];
      index.Put(ops[n].t, ops[n].key, ops[n].value, blocks[n]);
      assert ops[..n + 1][..n] == ops[..n];
      assert blocks[..n + 1] == blocks[..n] + [blocks[n]];
      n := n + 1;
    }
    assert ops[..n] == ops;
    GetSeesLastPut(ops, key);
    found, value := index.Get(key);
  }

  /** A key that was nowhere before is found after a put exactly when the writer's id is one
      more than the key's top byte: other keys can be put, but never got. */
  lemma FoundExactlyInOwnPartition(model: map<Entry, nat>, t: ClientId, key: nat, value: nat)
    requires t > 0 && GetEntry(key) !in model
    ensures GetEntry(key) in AfterPuts(model, [PutOp(t, key, value)]) <==> key / TOP_BYTE == t - 1
  {
    assert [PutOp(t, key, value)][..0] == [];
    assert AfterPuts(model, [PutOp(t, key, value)]) == model[PutEntry(t, key) := value];
  }
}
